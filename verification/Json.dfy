/**
 JSON values, and the exact text `json.dumps` gives a list of strings or a flat
 object of optional strings.  Journal and marker file names, call fingerprints
 and idempotency keys are all digests of such text.
 */
module Json {
  import opened Basics

  /** A JSON value; a number is kept as its literal. */
  datatype Value =
    | Null
    | Bool(b: bool)
    | Number(literal: string)
    | Str(s: string)
    | Arr(items: seq<Value>)
    | Obj(fields: map<string, Value>)

  function HexDigit(d: nat): (c: char)
    requires d < 16
    ensures ' ' <= c <= '~' && HexValue(c) == d
  {
    if d < 10 then '0' + d as char else 'a' + (d - 10) as char
  }

  function HexValue(c: char): nat {
    if '0' <= c <= '9' then (c - '0') as nat
    else if 'a' <= c <= 'f' then (c - 'a') as nat + 10
    else 0
  }

  /** Four lower-case hexadecimal digits. */
  function Hex4(n: nat): (text: string)
    requires n < 0x10000
    ensures |text| == 4 && IsPrintable(text)
  {
    [HexDigit(n / 16 / 16 / 16), HexDigit(n / 16 / 16 % 16), HexDigit(n / 16 % 16), HexDigit(n % 16)]
  }

  function Hex4Value(text: string): nat
    requires |text| == 4
  {
    4096 * HexValue(text[0]) + 256 * HexValue(text[1]) + 16 * HexValue(text[2]) + HexValue(text[3])
  }

  lemma Hex4RoundTrip(n: nat)
    requires n < 0x10000
    ensures Hex4Value(Hex4(n)) == n
  {
    var a := n / 16;
    var b := a / 16;
    assert n == 16 * a + n % 16 && a == 16 * b + a % 16 && b == 16 * (b / 16) + b % 16;
  }

  predicate IsPrintable(text: string) {
    forall i | 0 <= i < |text| :: ' ' <= text[i] <= '~'
  }

  /** Equal texts with heads of one length have equal heads and equal tails. */
  lemma SplitAt(a: string, x: string, b: string, y: string)
    requires |a| == |b| && a + x == b + y
    ensures a == b && x == y
  {
    assert a == (a + x)[..|a|] && b == (b + y)[..|b|];
    assert x == (a + x)[|a|..] && y == (b + y)[|b|..];
  }

  // ---- Python strings ----

  /** A string as Python holds it: code points, lone surrogates included. */
  type Point = n: nat | n < 0x110000
  type Text = seq<Point>

  /** A UTF-16 code unit. */
  type Unit = n: nat | n < 0x10000

  predicate IsHigh(n: nat) {
    0xd800 <= n < 0xdc00
  }

  predicate IsLow(n: nat) {
    0xdc00 <= n < 0xe000
  }

  function UnitsOf(c: Point): (units: seq<Unit>)
    ensures units != [] && units[0] == FirstUnit(c)
  {
    if c < 0x10000 then [c] else [FirstUnit(c), 0xdc00 + (c - 0x10000) % 1024]
  }

  function FirstUnit(c: Point): (u: Unit)
    ensures c >= 0x10000 ==> IsHigh(u)
  {
    if c < 0x10000 then c else 0xd800 + (c - 0x10000) / 1024
  }

  function Units(t: Text): seq<Unit> {
    if t == [] then [] else UnitsOf(t[0]) + Units(t[1..])
  }

  function PairOf(high: Unit, low: Unit): Point
    requires IsHigh(high) && IsLow(low)
  {
    0x10000 + 1024 * (high - 0xd800) + (low - 0xdc00)
  }

  /** Every high surrogate with a low one right behind it taken as the character the two stand for. */
  function Joined(t: Text): Text {
    if t == [] then []
    else if |t| >= 2 && IsHigh(t[0]) && IsLow(t[1]) then [PairOf(t[0], t[1])] + Joined(t[2..])
    else [t[0]] + Joined(t[1..])
  }

  function Decoded(units: seq<Unit>): Text {
    if units == [] then []
    else if |units| >= 2 && IsHigh(units[0]) && IsLow(units[1]) then [PairOf(units[0], units[1])] + Decoded(units[2..])
    else [units[0]] + Decoded(units[1..])
  }

  lemma UnitsOfPair(high: Unit, low: Unit)
    requires IsHigh(high) && IsLow(low)
    ensures UnitsOf(PairOf(high, low)) == [high, low]
  {
  }

  lemma PairOfUnits(c: Point)
    requires c >= 0x10000
    ensures var units := UnitsOf(c); |units| == 2 && IsHigh(units[0]) && IsLow(units[1]) && PairOf(units[0], units[1]) == c
  {
  }

  lemma {:induction false} JoiningKeepsUnits(t: Text)
    ensures Units(Joined(t)) == Units(t)
    decreases |t|
  {
    if t != [] {
      if |t| >= 2 && IsHigh(t[0]) && IsLow(t[1]) {
        JoiningKeepsUnits(t[2..]);
        assert t == [t[0], t[1]] + t[2..];
        TwoUnits(t[0], t[1], t[2..]);
        UnitsOfPair(t[0], t[1]);
        UnitsCons(PairOf(t[0], t[1]), Joined(t[2..]));
      } else {
        JoiningKeepsUnits(t[1..]);
        UnitsCons(t[0], Joined(t[1..]));
      }
    }
  }

  lemma UnitsCons(c: Point, t: Text)
    ensures Units([c] + t) == UnitsOf(c) + Units(t)
  {
    assert ([c] + t)[1..] == t;
  }

  lemma TwoUnits(a: Unit, b: Unit, t: Text)
    ensures Units([a, b] + t) == [a, b] + Units(t)
  {
    assert [a, b] + t == [a] + ([b] + t);
    UnitsCons(a, [b] + t);
    UnitsCons(b, t);
    assert [a] + ([b] + Units(t)) == [a, b] + Units(t);
  }

  lemma {:induction false} DecodingJoins(t: Text)
    ensures Decoded(Units(t)) == Joined(t)
    decreases |t|
  {
    if t != [] {
      var rest := Units(t[1..]);
      DecodingJoins(t[1..]);
      if t[0] >= 0x10000 {
        PairOfUnits(t[0]);
        assert Units(t)[2..] == rest;
      } else {
        assert Units(t)[1..] == rest;
        assert |t| >= 2 ==> rest[0] == FirstUnit(t[1]);
        if |t| >= 2 && IsHigh(t[0]) && IsLow(t[1]) {
          DecodingJoins(t[2..]);
          assert t[1..][1..] == t[2..];
          assert Units(t)[2..] == Units(t[2..]);
        }
      }
    }
  }

  /** Two strings have the same code units exactly when they are the same once their pairs are joined. */
  lemma SameUnitsExactlyWhen(s: Text, t: Text)
    ensures Units(s) == Units(t) <==> Joined(s) == Joined(t)
  {
    DecodingJoins(s);
    DecodingJoins(t);
    JoiningKeepsUnits(s);
    JoiningKeepsUnits(t);
  }

  function Points(s: string): Text {
    seq(|s|, i requires 0 <= i < |s| => s[i] as int)
  }

  /** A string without surrogates has no pair to join. */
  lemma {:induction false} NothingToJoin(t: Text)
    requires forall i | 0 <= i < |t| :: !IsHigh(t[i])
    ensures Joined(t) == t
    decreases |t|
  {
    if t != [] {
      NothingToJoin(t[1..]);
    }
  }

  lemma PointsAreScalars(s: string)
    ensures Joined(Points(s)) == Points(s)
  {
    forall i | 0 <= i < |s| ensures !IsHigh(Points(s)[i]) {
      NoScalarIsASurrogate(s[i]);
    }
    NothingToJoin(Points(s));
  }

  lemma NoScalarIsASurrogate(c: char)
    ensures c as int < 0xd800 || 0xe000 <= c as int
  {
  }

  lemma PointsAreInjective(s: string, t: string)
    requires Points(s) == Points(t)
    ensures s == t
  {
    assert |s| == |Points(s)| == |t|;
    forall i | 0 <= i < |s| ensures s[i] == t[i] {
      assert Points(s)[i] == Points(t)[i];
    }
  }

  // ---- Escaping ----

  /** The letter after the backslash for the characters with a short escape. */
  function ShortEscape(u: Unit): Option<char> {
    if u == '"' as int then Some('"')
    else if u == '\\' as int then Some('\\')
    else if u == '\n' as int then Some('n')
    else if u == '\r' as int then Some('r')
    else if u == '\t' as int then Some('t')
    else if u == 0x0c then Some('f')
    else if u == 0x08 then Some('b')
    else None
  }

  predicate IsPlain(u: Unit) {
    ' ' as int <= u <= '~' as int
  }

  /** `ensure_ascii` escaping of one code unit; a character beyond them is escaped as its two. */
  function EscapeUnit(u: Unit): (text: string)
    ensures text != "" && text[0] != '"' && IsPrintable(text)
  {
    if ShortEscape(u).Some? then ['\\', ShortEscape(u).value]
    else if IsPlain(u) then [u as char]
    else "\\u" + Hex4(u)
  }

  function Escape(units: seq<Unit>): string {
    if units == [] then "" else EscapeUnit(units[0]) + Escape(units[1..])
  }

  lemma {:induction false} EscapeIsPrintable(units: seq<Unit>)
    ensures IsPrintable(Escape(units))
  {
    if units != [] {
      EscapeIsPrintable(units[1..]);
    }
  }

  /** How an escaped unit starts tells which of the three forms it took. */
  lemma EscapeForm(u: Unit, x: string)
    ensures var s := EscapeUnit(u) + x;
            if ShortEscape(u).Some? then |s| >= 2 && s[0] == '\\' && s[1] == ShortEscape(u).value != 'u'
            else if IsPlain(u) then s[0] as int == u && s[0] != '\\'
            else |s| >= 2 && s[0] == '\\' && s[1] == 'u'
  {
  }

  /** No escaped unit is a prefix of another: text decodes one way. */
  lemma EscapeUnitIsDetermined(u: Unit, v: Unit, x: string, y: string)
    requires EscapeUnit(u) + x == EscapeUnit(v) + y
    ensures u == v && x == y
  {
    EscapeForm(u, x);
    EscapeForm(v, y);
    if ShortEscape(u).None? && !IsPlain(u) {
      SplitAt("\\u" + Hex4(u), x, "\\u" + Hex4(v), y);
      SplitAt("\\u", Hex4(u), "\\u", Hex4(v));
      Hex4RoundTrip(u);
      Hex4RoundTrip(v);
    } else {
      assert u == v;
      SplitAt(EscapeUnit(u), x, EscapeUnit(v), y);
    }
  }

  /** The closing quote ends an escaped string at one place only. */
  lemma {:induction false} EscapeIsDetermined(s: seq<Unit>, t: seq<Unit>, x: string, y: string)
    requires Escape(s) + "\"" + x == Escape(t) + "\"" + y
    ensures s == t && x == y
  {
    EscapedHead(s, x);
    EscapedHead(t, y);
    if s == [] {
      SplitAt("\"", x, "\"", y);
    } else {
      var a, b := Escape(s[1..]) + "\"" + x, Escape(t[1..]) + "\"" + y;
      EscapeUnitIsDetermined(s[0], t[0], a, b);
      EscapeIsDetermined(s[1..], t[1..], x, y);
      assert s == [s[0]] + s[1..] && t == [t[0]] + t[1..];
    }
  }

  lemma EscapedHead(s: seq<Unit>, x: string)
    ensures var text := Escape(s) + "\"" + x;
            if s == [] then text == "\"" + x && text[0] == '"'
            else text == EscapeUnit(s[0]) + (Escape(s[1..]) + "\"" + x) && text[0] != '"'
  {
    if s == [] {
      assert Escape(s) + "\"" + x == "\"" + x;
    } else {
      assert Escape(s) + "\"" + x == EscapeUnit(s[0]) + (Escape(s[1..]) + "\"" + x);
    }
  }

  function Quote(t: Text): string {
    "\"" + Escape(Units(t)) + "\""
  }

  // ---- Lists of strings ----

  /** `json.dumps` of a non-empty list of strings, without its opening bracket. */
  function ListTail(items: seq<Text>): string
    requires items != []
  {
    Quote(items[0]) + AfterItem(items)
  }

  function AfterItem(items: seq<Text>): string
    requires items != []
    decreases items, 0
  {
    if |items| == 1 then "]" else ", " + ListTail(items[1..])
  }

  function DumpList(items: seq<Text>): string
    requires items != []
  {
    "[" + ListTail(items)
  }

  /** The lists have the same code units, item by item. */
  predicate SameUnits(p: seq<Text>, q: seq<Text>) {
    |p| == |q| && forall i | 0 <= i < |p| :: Units(p[i]) == Units(q[i])
  }

  /** The lists are the same once the pairs in their items are joined. */
  predicate SameJoined(p: seq<Text>, q: seq<Text>) {
    |p| == |q| && forall i | 0 <= i < |p| :: Joined(p[i]) == Joined(q[i])
  }

  lemma {:induction false} ListTailIsDetermined(p: seq<Text>, q: seq<Text>)
    requires p != [] && q != [] && ListTail(p) == ListTail(q)
    ensures SameUnits(p, q)
    decreases |p|
  {
    ListTailForm(p);
    ListTailForm(q);
    SplitAt("\"", Escape(Units(p[0])) + "\"" + AfterItem(p), "\"", Escape(Units(q[0])) + "\"" + AfterItem(q));
    EscapeIsDetermined(Units(p[0]), Units(q[0]), AfterItem(p), AfterItem(q));
    assert AfterItem(p)[0] == AfterItem(q)[0];
    if |p| > 1 {
      SplitAt(", ", ListTail(p[1..]), ", ", ListTail(q[1..]));
      ListTailIsDetermined(p[1..], q[1..]);
      SameUnitsCons(p, q);
    }
  }

  lemma SameUnitsCons(p: seq<Text>, q: seq<Text>)
    requires p != [] && q != [] && Units(p[0]) == Units(q[0]) && SameUnits(p[1..], q[1..])
    ensures SameUnits(p, q)
  {
    forall i | 0 <= i < |p| ensures Units(p[i]) == Units(q[i]) {
      assert i > 0 ==> p[i] == p[1..][i - 1] && q[i] == q[1..][i - 1];
    }
  }

  lemma {:induction false} SameUnitsSameTail(p: seq<Text>, q: seq<Text>)
    requires p != [] && SameUnits(p, q)
    ensures ListTail(p) == ListTail(q)
    decreases |p|
  {
    if |p| > 1 {
      SameUnitsSameTail(p[1..], q[1..]);
    }
  }

  lemma ListTailForm(items: seq<Text>)
    requires items != []
    ensures ListTail(items) == "\"" + (Escape(Units(items[0])) + "\"" + AfterItem(items))
  {
    Regroup("\"", Escape(Units(items[0])), "\"", AfterItem(items));
  }

  lemma Regroup(a: string, b: string, c: string, d: string)
    ensures a + b + c + d == a + (b + c + d)
  {
  }

  /**
   Two lists of strings, whatever they hold, have the same JSON text exactly
   when they are the same list once adjacent surrogates are joined.
   */
  lemma DumpListsAgreeExactlyWhen(p: seq<Text>, q: seq<Text>)
    requires p != [] && q != []
    ensures DumpList(p) == DumpList(q) <==> SameJoined(p, q)
  {
    if DumpList(p) == DumpList(q) {
      SplitAt("[", ListTail(p), "[", ListTail(q));
      ListTailIsDetermined(p, q);
    }
    SameUnitsExactlyWhenJoined(p, q);
    if SameUnits(p, q) {
      SameUnitsSameTail(p, q);
    }
  }

  lemma SameUnitsExactlyWhenJoined(p: seq<Text>, q: seq<Text>)
    ensures SameUnits(p, q) <==> SameJoined(p, q)
  {
    if |p| == |q| {
      forall i | 0 <= i < |p| ensures Units(p[i]) == Units(q[i]) <==> Joined(p[i]) == Joined(q[i]) {
        SameUnitsExactlyWhen(p[i], q[i]);
      }
    }
  }

  // ---- Flat objects ----

  /** One `"field": value` of a flat object of optional strings. */
  function Entry(field: string, value: Option<string>): string {
    Quote(Points(field)) + ": " + (match value case None => "null" case Some(s) => Quote(Points(s)))
  }

  /** `json.dumps` of a flat object, its fields already in the order they are printed. */
  function DumpFields(fields: seq<(string, Option<string>)>): string {
    "{" + FieldsText(fields) + "}"
  }

  function FieldsText(fields: seq<(string, Option<string>)>): string {
    if fields == [] then ""
    else if |fields| == 1 then Entry(fields[0].0, fields[0].1)
    else Entry(fields[0].0, fields[0].1) + ", " + FieldsText(fields[1..])
  }

  lemma {:induction false} FieldsTextIsPrintable(fields: seq<(string, Option<string>)>)
    ensures IsPrintable(FieldsText(fields))
  {
    if fields != [] {
      EntryIsPrintable(fields[0].0, fields[0].1);
      FieldsTextIsPrintable(fields[1..]);
    }
  }

  lemma EntryIsPrintable(field: string, value: Option<string>)
    ensures IsPrintable(Entry(field, value))
  {
    QuoteIsPrintable(Points(field));
    if value.Some? {
      QuoteIsPrintable(Points(value.value));
    }
  }

  lemma QuoteIsPrintable(t: Text)
    ensures IsPrintable(Quote(t))
  {
    EscapeIsPrintable(Units(t));
  }

  lemma DumpFieldsIsPrintable(fields: seq<(string, Option<string>)>)
    ensures IsPrintable(DumpFields(fields)) && DumpFields(fields) != ""
  {
    FieldsTextIsPrintable(fields);
  }
}
