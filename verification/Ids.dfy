/**
 Identifier grammar and idempotency-key derivation.

 A key is the SHA-256 of its parts joined by the unit separator.  The digest is
 modelled as an injective constructor around its preimage, so every statement
 about keys is a statement about the joined text.
 */
module Ids {
  import opened Basics

  const MAX_ID_BYTES: nat := 160
  const SEPARATOR: char := '\U{001f}'

  /** SHA-256, collision-free by construction. */
  datatype Digest = Sha256(preimage: string)

  predicate IsIdChar(c: char) {
    || 'A' <= c <= 'Z'
    || 'a' <= c <= 'z'
    || '0' <= c <= '9'
    || c in "_-:./"
  }

  /** `_ID_PATTERN` ends in `$`, which also matches just before one final newline. */
  predicate MatchesPattern(value: string) {
    || (value != "" && forall i | 0 <= i < |value| :: IsIdChar(value[i]))
    || (|value| > 1 && value[|value| - 1] == '\n'
        && forall i | 0 <= i < |value| - 1 :: IsIdChar(value[i]))
  }

  /** The ASCII part of `str.isspace`: what `strip` removes at either end. */
  predicate IsSpace(c: char) {
    c in " \t\n\r" || '\U{000b}' <= c <= '\U{000c}' || '\U{001c}' <= c <= '\U{001f}'
  }

  predicate IsStripped(value: string) {
    value != "" ==> !IsSpace(value[0]) && !IsSpace(value[|value| - 1])
  }

  /** Bytes of the UTF-8 encoding. */
  function Utf8Length(value: string): (n: nat)
    ensures |value| <= n
  {
    if value == "" then 0 else
      (if value[0] < '\U{0080}' then 1
       else if value[0] < '\U{0800}' then 2
       else if value[0] < '\U{10000}' then 3 else 4)
      + Utf8Length(value[1..])
  }

  predicate IsValidId(value: string) {
    value != "" && IsStripped(value) && Utf8Length(value) <= MAX_ID_BYTES && MatchesPattern(value)
  }

  predicate SeparatorFree(part: string) {
    SEPARATOR !in part
  }

  lemma {:induction false} AsciiLength(value: string)
    requires forall i | 0 <= i < |value| :: value[i] < '\U{0080}'
    ensures Utf8Length(value) == |value|
  {
    if value != "" {
      AsciiLength(value[1..]);
    }
  }

  /**
   The three client-side tests together are the engine's rule exactly: one to
   160 characters, every one of them in the id alphabet.  The strip test is
   what closes the pattern's trailing-newline exception.
   */
  lemma ValidIdIsTheEngineGrammar(value: string)
    ensures IsValidId(value) <==>
            1 <= |value| <= MAX_ID_BYTES && forall i | 0 <= i < |value| :: IsIdChar(value[i])
    ensures IsValidId(value) ==> SeparatorFree(value)
  {
    if value != "" && forall i | 0 <= i < |value| :: IsIdChar(value[i]) {
      AsciiLength(value);
    }
    if IsValidId(value) {
      assert !IsSpace(value[|value| - 1]);
      AsciiLength(value);
    }
  }

  /** `"\x1f".join(parts)` */
  function Join(parts: seq<string>): string {
    if |parts| == 0 then ""
    else if |parts| == 1 then parts[0]
    else parts[0] + [SEPARATOR] + Join(parts[1..])
  }

  /** No key at all when there is no material or an empty part, where the source raises. */
  function DeriveKey(material: seq<string>): Option<Digest> {
    if material == [] || "" in material then None else Some(Sha256(Join(material)))
  }

  /** Text before the first separator is determined by the whole. */
  lemma FirstPartIsDetermined(a: string, x: string, b: string, y: string)
    requires SeparatorFree(a) && SeparatorFree(b)
    requires a + [SEPARATOR] + x == b + [SEPARATOR] + y
    ensures a == b && x == y
  {
    var s := a + [SEPARATOR] + x;
    assert s[|a|] == SEPARATOR && s[|b|] == SEPARATOR;
    assert |a| == |b|;
    assert a == s[..|a|] && b == s[..|b|];
    assert x == s[|a| + 1..] && y == s[|b| + 1..];
  }

  /** Text after the last separator is determined by the whole. */
  lemma LastPartIsDetermined(x: string, a: string, y: string, b: string)
    requires SeparatorFree(a) && SeparatorFree(b)
    requires x + [SEPARATOR] + a == y + [SEPARATOR] + b
    ensures a == b && x == y
  {
    var s := x + [SEPARATOR] + a;
    assert s == y + [SEPARATOR] + b;
    assert s[|x|] == SEPARATOR && s[|y|] == SEPARATOR;
    assert |x| == |y|;
    assert x == s[..|x|] && y == s[..|y|];
    assert a == s[|x| + 1..] && b == s[|y| + 1..];
  }

  /** A single separator-free part never reads as two or more joined parts. */
  lemma OnePartIsNotMany(a: string, b: string, y: string)
    requires SeparatorFree(a)
    ensures a != b + [SEPARATOR] + y
  {
    assert (b + [SEPARATOR] + y)[|b|] == SEPARATOR;
  }

  /** Joining separator-free parts loses nothing: not the parts, not their number. */
  lemma {:induction false} JoinIsInjective(p: seq<string>, q: seq<string>)
    requires p != [] && q != []
    requires forall s | s in p :: SeparatorFree(s)
    requires forall s | s in q :: SeparatorFree(s)
    requires Join(p) == Join(q)
    ensures p == q
  {
    if |p| == 1 || |q| == 1 {
      if |p| > 1 { OnePartIsNotMany(q[0], p[0], Join(p[1..])); }
      if |q| > 1 { OnePartIsNotMany(p[0], q[0], Join(q[1..])); }
    } else {
      FirstPartIsDetermined(p[0], Join(p[1..]), q[0], Join(q[1..]));
      JoinIsInjective(p[1..], q[1..]);
      assert p == [p[0]] + p[1..] && q == [q[0]] + q[1..];
    }
  }

  /** Without the restriction two different materials share one key. */
  lemma SeparatorInsideAPartCollides()
    ensures DeriveKey(["a\U{001f}b"]) == DeriveKey(["a", "b"]) != None
  {
    assert Join(["a", "b"]) == "a" + [SEPARATOR] + Join(["b"]);
    assert "a" + [SEPARATOR] + "b" == "a\U{001f}b";
    assert Join(["a\U{001f}b"]) == "a\U{001f}b";
  }

  /** Keys name their material: equal keys come from equal parts. */
  lemma KeysNameTheirMaterial(p: seq<string>, q: seq<string>)
    requires forall s | s in p :: SeparatorFree(s)
    requires forall s | s in q :: SeparatorFree(s)
    requires DeriveKey(p).Some? && DeriveKey(p) == DeriveKey(q)
    ensures p == q
  {
    JoinIsInjective(p, q);
  }

  /**
   The five-part key of a retained call, with no restriction on the command:
   the catalog may name a command with any text in it, and the run, scope, call
   and owned text around it still decide the key.
   */
  lemma CallKeyIsInjective(run: string, scope: string, command: string, call: string, owned: string,
                           run': string, scope': string, command': string, call': string, owned': string)
    requires SeparatorFree(run) && SeparatorFree(scope) && SeparatorFree(call) && SeparatorFree(owned)
    requires SeparatorFree(run') && SeparatorFree(scope') && SeparatorFree(call') && SeparatorFree(owned')
    requires DeriveKey([run, scope, command, call, owned]) == DeriveKey([run', scope', command', call', owned'])
    requires DeriveKey([run, scope, command, call, owned]).Some?
    ensures run == run' && scope == scope' && command == command' && call == call' && owned == owned'
  {
    FivePartJoin(run, scope, command, call, owned);
    FivePartJoin(run', scope', command', call', owned');
    var m := command + [SEPARATOR] + call + [SEPARATOR] + owned;
    var m' := command' + [SEPARATOR] + call' + [SEPARATOR] + owned';
    FirstPartIsDetermined(run, scope + [SEPARATOR] + m, run', scope' + [SEPARATOR] + m');
    FirstPartIsDetermined(scope, m, scope', m');
    LastPartIsDetermined(command + [SEPARATOR] + call, owned, command' + [SEPARATOR] + call', owned');
    LastPartIsDetermined(command, call, command', call');
  }

  lemma FivePartJoin(a: string, b: string, c: string, d: string, e: string)
    ensures Join([a, b, c, d, e])
         == a + [SEPARATOR] + (b + [SEPARATOR] + (c + [SEPARATOR] + d + [SEPARATOR] + e))
  {
    assert [a, b, c, d, e][1..] == [b, c, d, e];
    assert [b, c, d, e][1..] == [c, d, e];
    assert [c, d, e][1..] == [d, e];
    assert [d, e][1..] == [e];
    assert Join([d, e]) == d + [SEPARATOR] + e;
    assert Join([c, d, e]) == c + [SEPARATOR] + (d + [SEPARATOR] + e);
    assert Join([b, c, d, e]) == b + [SEPARATOR] + Join([c, d, e]);
    assert c + [SEPARATOR] + (d + [SEPARATOR] + e) == c + [SEPARATOR] + d + [SEPARATOR] + e;
  }
}
