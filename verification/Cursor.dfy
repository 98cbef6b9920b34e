/** The resume cursor: the id a frame carries, and the position it names when it comes back. */
module Cursor {
  import opened Basics

  const WINDOW_START := "-"
  const MAX_CURSOR_DIGITS := 19

  datatype Position = Position(afterSequence: nat, fromWindowStart: bool)

  predicate IsDigit(c: char) {
    '0' <= c <= '9'
  }

  /** Non-empty and all ASCII digits. */
  predicate IsDecimal(text: string) {
    text != "" && forall i | 0 <= i < |text| :: IsDigit(text[i])
  }

  function DigitValue(c: char): (v: nat)
    requires IsDigit(c)
    ensures v < 10
  {
    (c - '0') as nat
  }

  /** `int(decimal)` */
  function ValueOf(decimal: string): nat
    requires forall i | 0 <= i < |decimal| :: IsDigit(decimal[i])
  {
    if decimal == "" then 0
    else 10 * ValueOf(decimal[..|decimal| - 1]) + DigitValue(decimal[|decimal| - 1])
  }

  function DigitFor(v: nat): (c: char)
    requires v < 10
    ensures IsDigit(c) && DigitValue(c) == v
  {
    '0' + v as char
  }

  /** `str(n)` */
  function Decimal(n: nat): (d: string)
    ensures IsDecimal(d)
  {
    if n < 10 then [DigitFor(n)] else Decimal(n / 10) + [DigitFor(n % 10)]
  }

  /** `text.rpartition(":")`, None when there is no colon. */
  function SplitAtLastColon(text: string): Option<(string, string)> {
    if text == "" then None
    else
      var last := |text| - 1;
      if text[last] == ':' then Some((text[..last], ""))
      else match SplitAtLastColon(text[..last])
           case None => None
           case Some((before, after)) => Some((before, after + [text[last]]))
  }

  function ResumePosition(cursor: string, run: string): Option<Position> {
    if cursor == WINDOW_START then Some(Position(0, true))
    else match SplitAtLastColon(cursor)
         case None => None
         case Some((before, decimal)) =>
           if before != run || !IsDecimal(decimal) || |decimal| > MAX_CURSOR_DIGITS then None
           else Some(Position(ValueOf(decimal), false))
  }

  function EventId(run: string, sequence: nat): string {
    run + ":" + Decimal(sequence)
  }

  // ---- Splitting ----

  lemma {:induction false} SplitIsAtTheLastColon(before: string, after: string)
    requires ':' !in after
    ensures SplitAtLastColon(before + ":" + after) == Some((before, after))
    decreases |after|
  {
    var text := before + ":" + after;
    if after == "" {
      assert text[..|text| - 1] == before;
    } else {
      var shorter := after[..|after| - 1];
      SplitIsAtTheLastColon(before, shorter);
      assert text[..|text| - 1] == before + ":" + shorter;
      assert shorter + [text[|text| - 1]] == after;
    }
  }

  lemma {:induction false} SplitJoins(text: string)
    requires SplitAtLastColon(text).Some?
    ensures var (before, after) := SplitAtLastColon(text).value; text == before + ":" + after && ':' !in after
    decreases |text|
  {
    var last := |text| - 1;
    if text[last] != ':' {
      SplitJoins(text[..last]);
      var (before, after) := SplitAtLastColon(text[..last]).value;
      assert text == before + ":" + (after + [text[last]]);
    }
  }

  // ---- Decimals ----

  function Power10(k: nat): nat {
    if k == 0 then 1 else 10 * Power10(k - 1)
  }

  lemma {:induction false} DecimalHasItsValue(n: nat)
    ensures ValueOf(Decimal(n)) == n
  {
    if n >= 10 {
      DecimalHasItsValue(n / 10);
      assert Decimal(n)[..|Decimal(n)| - 1] == Decimal(n / 10);
    } else {
      assert Decimal(n)[..0] == "";
    }
  }

  lemma {:induction false} DecimalLength(n: nat, k: nat)
    requires k >= 1
    ensures |Decimal(n)| <= k <==> n < Power10(k)
    decreases n
  {
    if n >= 10 && k >= 2 {
      DecimalLength(n / 10, k - 1);
    } else if n < 10 {
      PowersGrow(k);
    }
  }

  lemma {:induction false} PowersGrow(k: nat)
    requires k >= 1
    ensures Power10(k) >= 10
  {
    if k >= 2 {
      PowersGrow(k - 1);
    }
  }

  lemma {:induction false} ValueIsBounded(decimal: string)
    requires forall i | 0 <= i < |decimal| :: IsDigit(decimal[i])
    ensures ValueOf(decimal) < Power10(|decimal|)
  {
    if decimal != "" {
      ValueIsBounded(decimal[..|decimal| - 1]);
    }
  }

  // ---- Main results ----

  /**
   Offered back on the same run, colons in its name included, the id of frame n
   names position n, for every n of at most nineteen digits; on any other run,
   and for a longer number, it is refused.
   */
  lemma EventIdNamesItsPosition(run: string, n: nat, other: string)
    ensures ResumePosition(EventId(run, n), other)
            == if other == run && n < Power10(MAX_CURSOR_DIGITS) then Some(Position(n, false)) else None
    ensures EventId(run, n) != WINDOW_START
  {
    var id := EventId(run, n);
    assert id[|run|] == ':';
    SplitIsAtTheLastColon(run, Decimal(n));
    DecimalHasItsValue(n);
    DecimalLength(n, MAX_CURSOR_DIGITS);
  }

  /** A numbered position is only ever read off `run:digits` with at most nineteen digits. */
  lemma OnlyIdsNamePositions(cursor: string, run: string, n: nat)
    ensures ResumePosition(cursor, run) == Some(Position(n, false)) <==>
            exists d :: cursor == run + ":" + d && IsDecimal(d) && |d| <= MAX_CURSOR_DIGITS && ValueOf(d) == n
  {
    if ResumePosition(cursor, run) == Some(Position(n, false)) {
      SplitJoins(cursor);
      var (before, d) := SplitAtLastColon(cursor).value;
      assert cursor == run + ":" + d;
    }
    forall d | cursor == run + ":" + d && IsDecimal(d) && |d| <= MAX_CURSOR_DIGITS && ValueOf(d) == n
      ensures ResumePosition(cursor, run) == Some(Position(n, false))
    {
      assert cursor[|run|] == ':';
      SplitIsAtTheLastColon(run, d);
    }
  }

  /** Whatever a client sends, the position it names has at most nineteen digits. */
  lemma PositionsAreBounded(cursor: string, run: string)
    ensures var p := ResumePosition(cursor, run);
            p.Some? ==> p.value.afterSequence < Power10(MAX_CURSOR_DIGITS)
                        && (p.value.fromWindowStart <==> cursor == WINDOW_START)
  {
    PowersAreMonotone(0, MAX_CURSOR_DIGITS);
    if cursor != WINDOW_START && ResumePosition(cursor, run).Some? {
      var (_, d) := SplitAtLastColon(cursor).value;
      ValueIsBounded(d);
      PowersAreMonotone(|d|, MAX_CURSOR_DIGITS);
    }
  }

  lemma {:induction false} PowersAreMonotone(j: nat, k: nat)
    requires j <= k
    ensures 1 <= Power10(j) <= Power10(k)
    decreases k
  {
    if j < k {
      PowersAreMonotone(j, k - 1);
    } else if j > 0 {
      PowersAreMonotone(j - 1, k - 1);
    }
  }

  /** Ids name one frame of one run. */
  lemma EventIdsAreInjective(run: string, n: nat, run': string, n': nat)
    requires EventId(run, n) == EventId(run', n')
    ensures run == run' && n == n'
  {
    SplitIsAtTheLastColon(run, Decimal(n));
    SplitIsAtTheLastColon(run', Decimal(n'));
    DecimalHasItsValue(n);
    DecimalHasItsValue(n');
  }
}
