/** What a reconnecting viewer can be served: the union of table and ring, cut at its last hole. */
module Replay {
  import opened Basics
  import opened Cursor
  import Json

  /** A retained row; `body` is None when the stored text is not a JSON object. */
  datatype Record = Record(sequence: nat, eventType: string, body: Option<map<string, Json.Value>>)

  datatype Frame = Frame(sequence: nat, eventType: string, body: map<string, Json.Value>)

  datatype Reason = WindowExceeded | Unavailable

  datatype Window = Window(frames: seq<Frame>, gap: Option<Reason>, first: Option<nat>, floor: nat)

  predicate Ascends(ns: seq<nat>) {
    forall i, j | 0 <= i < j < |ns| :: ns[i] < ns[j]
  }

  function Numbers(frames: seq<Frame>): seq<nat> {
    seq(|frames|, i requires 0 <= i < |frames| => frames[i].sequence)
  }

  // ---- Ascending order of a set of numbers ----

  lemma {:induction false} HasLargest(keys: set<nat>)
    requires keys != {}
    ensures exists m :: m in keys && forall k | k in keys :: k <= m
    decreases |keys|
  {
    var k :| k in keys;
    var rest := keys - {k};
    if rest == {} {
      assert keys == {k};
    } else {
      HasLargest(rest);
      var m :| m in rest && forall j | j in rest :: j <= m;
      var top := if m < k then k else m;
      assert forall j | j in keys :: j in rest || j == k;
      assert top in keys;
    }
  }

  function Largest(keys: set<nat>): (m: nat)
    requires keys != {}
    ensures m in keys && forall k | k in keys :: k <= m
  {
    HasLargest(keys);
    var m :| m in keys && forall k | k in keys :: k <= m;
    m
  }

  /** `sorted(keys)` */
  function Ascending(keys: set<nat>): (ns: seq<nat>)
    ensures Ascends(ns) && |ns| == |keys|
    ensures forall n :: n in ns <==> n in keys
    decreases |keys|
  {
    if keys == {} then []
    else
      var top := Largest(keys);
      Ascending(keys - {top}) + [top]
  }

  ghost predicate SameMembers(a: seq<nat>, b: seq<nat>) {
    forall n: nat :: n in a <==> n in b
  }

  /** Each last element is in the other list, and so no larger than its last. */
  lemma SameLast(a: seq<nat>, b: seq<nat>)
    requires Ascends(a) && Ascends(b) && SameMembers(a, b) && a != [] && b != []
    ensures a[|a| - 1] == b[|b| - 1]
  {
    assert a[|a| - 1] in a && b[|b| - 1] in b;
    var i :| 0 <= i < |b| && b[i] == a[|a| - 1];
    var j :| 0 <= j < |a| && a[j] == b[|b| - 1];
  }

  lemma BeforeLast(a: seq<nat>, n: nat)
    requires Ascends(a) && a != []
    ensures n in a[..|a| - 1] <==> n in a && n != a[|a| - 1]
  {
    var last := |a| - 1;
    assert a == a[..last] + [a[last]];
    if n in a[..last] {
      var i :| 0 <= i < last && a[..last][i] == n;
      assert a[i] < a[last];
    }
  }

  /** There is only one ascending list of given members. */
  lemma {:induction false} AscendingIsUnique(a: seq<nat>, b: seq<nat>)
    requires Ascends(a) && Ascends(b) && SameMembers(a, b)
    ensures a == b
    decreases |a|
  {
    assert a != [] ==> a[0] in a;
    assert b != [] ==> b[0] in b;
    if a != [] && b != [] {
      SameLast(a, b);
      var a', b' := a[..|a| - 1], b[..|b| - 1];
      forall n: nat ensures n in a' <==> n in b' {
        BeforeLast(a, n);
        BeforeLast(b, n);
      }
      AscendingIsUnique(a', b');
      assert a == a' + [a[|a| - 1]] && b == b' + [b[|b| - 1]];
    }
  }

  // ---- The two reads ----

  function Newer(table: set<nat>, after: nat): set<nat> {
    set n | n in table && n > after
  }

  /** The numbers of the rows after the cursor in order, at most `limit` of them. */
  function RowsAfter(table: set<nat>, after: nat, limit: nat): seq<nat> {
    var ns := Ascending(Newer(table, after));
    if |ns| <= limit then ns else ns[..limit]
  }

  predicate HasNumber(records: seq<Record>, n: nat) {
    exists i | 0 <= i < |records| :: records[i].sequence == n
  }

  /** The union of both reads by number, a row winning over the ring's copy. */
  ghost predicate IsUnion(merged: map<nat, Record>, rows: seq<Record>, ring: seq<Record>, after: nat) {
    && (forall n: nat :: n in merged <==> HasNumber(rows, n) || (n > after && HasNumber(ring, n)))
    && (forall n: nat | n in merged ::
          merged[n].sequence == n && (if HasNumber(rows, n) then merged[n] in rows else merged[n] in ring))
  }

  method Merge(rows: seq<Record>, ring: seq<Record>, after: nat) returns (merged: map<nat, Record>)
    ensures IsUnion(merged, rows, ring, after)
  {
    merged := map[];
    for i := 0 to |rows|
      invariant IsUnion(merged, rows[..i], [], after)
    {
      merged := merged[rows[i].sequence := rows[i]];
      HasNumberSnoc(rows, i);
    }
    assert rows[..|rows|] == rows;
    for i := 0 to |ring|
      invariant IsUnion(merged, rows, ring[..i], after)
    {
      HasNumberSnoc(ring, i);
      if ring[i].sequence > after && ring[i].sequence !in merged {
        merged := merged[ring[i].sequence := ring[i]];
      }
    }
    assert ring[..|ring|] == ring;
  }

  lemma HasNumberSnoc(records: seq<Record>, i: nat)
    requires i < |records|
    ensures forall n: nat :: HasNumber(records[..i + 1], n) <==> HasNumber(records[..i], n) || records[i].sequence == n
    ensures forall r :: r in records[..i + 1] <==> r in records[..i] || r == records[i]
  {
    assert records[..i + 1] == records[..i] + [records[i]];
    forall n: nat
      ensures HasNumber(records[..i + 1], n) <==> HasNumber(records[..i], n) || records[i].sequence == n
    {
      if HasNumber(records[..i], n) {
        var j :| 0 <= j < i && records[..i][j].sequence == n;
        assert records[..i + 1][j].sequence == n;
      }
      assert records[..i + 1][i] == records[i];
      if HasNumber(records[..i + 1], n) && records[i].sequence != n {
        var j :| 0 <= j < i + 1 && records[..i + 1][j].sequence == n;
        assert records[..i][j].sequence == n;
      }
    }
  }

  function Decoded(r: Record): Option<Frame> {
    if r.body.None? then None else Some(Frame(r.sequence, r.eventType, r.body.value))
  }

  function DecodedAll(ns: seq<nat>, merged: map<nat, Record>): seq<Frame>
    requires forall n | n in ns :: n in merged
  {
    if ns == [] then []
    else
      var init := DecodedAll(ns[..|ns| - 1], merged);
      match Decoded(merged[ns[|ns| - 1]])
      case None => init
      case Some(frame) => init + [frame]
  }

  lemma DecodedStep(ns: seq<nat>, i: nat, merged: map<nat, Record>)
    requires i < |ns| && forall n | n in ns :: n in merged
    ensures var frame := Decoded(merged[ns[i]]);
            DecodedAll(ns[..i + 1], merged)
            == DecodedAll(ns[..i], merged) + if frame.Some? then [frame.value] else []
  {
    assert ns[..i + 1][..i] == ns[..i];
  }

  method RetainedAfter(rows: seq<Record>, ring: seq<Record>, after: nat) returns (frames: seq<Frame>)
    ensures exists merged :: IsUnion(merged, rows, ring, after) && frames == DecodedAll(Ascending(merged.Keys), merged)
  {
    var merged := Merge(rows, ring, after);
    var ns := Ascending(merged.Keys);
    frames := [];
    for i := 0 to |ns|
      invariant frames == DecodedAll(ns[..i], merged)
    {
      var frame := Decoded(merged[ns[i]]);
      DecodedStep(ns, i, merged);
      if frame.Some? {
        frames := frames + [frame.value];
      }
    }
    assert ns[..|ns|] == ns;
  }

  lemma {:induction false} DecodedNumbers(ns: seq<nat>, merged: map<nat, Record>)
    requires Ascends(ns) && forall n | n in ns :: n in merged && merged[n].sequence == n
    ensures var frames := DecodedAll(ns, merged);
            && Ascends(Numbers(frames))
            && (forall n :: n in Numbers(frames) <==> n in ns && merged[n].body.Some?)
            && (forall f | f in frames :: f.sequence in merged && Decoded(merged[f.sequence]) == Some(f))
  {
    if ns != [] {
      var init, last := ns[..|ns| - 1], ns[|ns| - 1];
      DecodedNumbers(init, merged);
      assert ns == init + [last];
      assert forall n | n in init :: n < last;
      var frames := DecodedAll(init, merged);
      if merged[last].body.Some? {
        NumbersSnoc(frames, Decoded(merged[last]).value);
      }
    }
  }

  lemma NumbersSnoc(frames: seq<Frame>, f: Frame)
    ensures Numbers(frames + [f]) == Numbers(frames) + [f.sequence]
  {
  }

  function Decodable(merged: map<nat, Record>): set<nat> {
    set n | n in merged && merged[n].body.Some?
  }

  /**
   Whatever the two unsynchronised reads returned, the frames are strictly
   ascending, one per number, and exactly the numbers some read holds in a form
   that decodes; a row hides the ring's copy.
   */
  lemma RetainedIsTheUnion(merged: map<nat, Record>, rows: seq<Record>, ring: seq<Record>, after: nat)
    requires IsUnion(merged, rows, ring, after)
    ensures var frames := DecodedAll(Ascending(merged.Keys), merged);
            && Ascends(Numbers(frames))
            && Numbers(frames) == Ascending(Decodable(merged))
            && (forall f | f in frames :: f.sequence in merged && Decoded(merged[f.sequence]) == Some(f))
  {
    DecodedNumbers(Ascending(merged.Keys), merged);
    AscendingIsUnique(Numbers(DecodedAll(Ascending(merged.Keys), merged)),
                      Ascending(Decodable(merged)));
  }

  // ---- The window ----

  /** Every number from index `k` on succeeds the one before it. */
  predicate ConsecutiveFrom(ns: seq<nat>, k: nat) {
    forall i | k < i < |ns| :: ns[i] == ns[i - 1] + 1
  }

  /** Going down from index `i`, the first index that does not continue its predecessor. */
  function CutAt(ns: seq<nat>, i: nat): (k: nat)
    requires i < |ns|
    ensures k <= i && (k == 0 || ns[k] != ns[k - 1] + 1)
    ensures forall j | k < j <= i :: ns[j] == ns[j - 1] + 1
  {
    if i == 0 || ns[i] != ns[i - 1] + 1 then i else CutAt(ns, i - 1)
  }

  function TailStart(ns: seq<nat>): (k: nat)
    ensures k <= |ns|
  {
    if ns == [] then 0 else CutAt(ns, |ns| - 1)
  }

  /** A suffix is consecutive exactly when it starts at or after the cut: the cut keeps the longest one. */
  lemma TailIsTheLongestSuffix(ns: seq<nat>, k: nat)
    ensures ConsecutiveFrom(ns, k) <==> k >= TailStart(ns)
  {
    if ns != [] && k < TailStart(ns) {
      var cut := TailStart(ns);
      assert ns[cut] != ns[cut - 1] + 1;
    }
  }

  lemma CutStep(frames: seq<Frame>, i: nat)
    requires 0 < i < |frames|
    ensures var ns := Numbers(frames);
            CutAt(ns, i) == if frames[i].sequence != frames[i - 1].sequence + 1 then i else CutAt(ns, i - 1)
  {
  }

  method ContiguousTail(frames: seq<Frame>) returns (tail: seq<Frame>)
    ensures tail == frames[TailStart(Numbers(frames))..]
  {
    if frames == [] { return frames; }
    var index := |frames| - 1;
    while index > 0
      invariant 0 <= index < |frames|
      invariant CutAt(Numbers(frames), index) == TailStart(Numbers(frames))
    {
      CutStep(frames, index);
      if frames[index].sequence != frames[index - 1].sequence + 1 {
        return frames[index..];
      }
      index := index - 1;
    }
    return frames;
  }

  /** What the stream is told about a window: why it is short, where it starts, what counts as delivered. */
  datatype Answer = Answer(gap: Option<Reason>, first: Option<nat>, floor: nat)

  const NOT_SERVED := Answer(Some(Unavailable), None, 0)

  function Classified(ns: seq<nat>, p: Position): Answer
    requires ns != []
  {
    var cut := TailStart(ns);
    var complete := if p.fromWindowStart then cut == 0 else ns[cut] == p.afterSequence + 1;
    if complete then Answer(None, None, p.afterSequence)
    else Answer(Some(WindowExceeded), Some(ns[cut]), p.afterSequence)
  }

  /** `high` is None when the table could not be read, Some(None) when it holds no row of the run. */
  function ClassifiedEmpty(high: Option<Option<nat>>, ring: set<nat>, p: Position): Answer {
    if high.None? then NOT_SERVED
    else
      var held := if high.value.Some? then ring + {high.value.value} else ring;
      if held == {} then NOT_SERVED
      else if p.afterSequence > Largest(held) then Answer(Some(Unavailable), None, Largest(held))
      else Answer(None, None, Min(p.afterSequence, Largest(held)))
  }

  method EmptyReplayWindow(high: Option<Option<nat>>, ring: seq<Record>, p: Position) returns (w: Window)
    ensures w.frames == []
    ensures Answer(w.gap, w.first, w.floor) == ClassifiedEmpty(high, set n | n in ring :: n.sequence, p)
  {
    if high.None? { return Window([], Some(Unavailable), None, 0); }
    var held := {};
    for i := 0 to |ring|
      invariant held == set r | r in ring[..i] :: r.sequence
    {
      assert ring[..i + 1] == ring[..i] + [ring[i]];
      held := held + {ring[i].sequence};
    }
    assert ring[..|ring|] == ring;
    if high.value.Some? {
      held := held + {high.value.value};
    }
    if held == {} { return Window([], Some(Unavailable), None, 0); }
    var mark := Largest(held);
    if p.afterSequence > mark { return Window([], Some(Unavailable), None, mark); }
    return Window([], None, None, Min(p.afterSequence, mark));
  }

  /** `high` and `later` are what the two further reads return, which only an empty window makes. */
  method ReplayWindow(enabled: bool, retained: Option<seq<Frame>>, p: Position,
                      high: Option<Option<nat>>, later: seq<Record>) returns (w: Window)
    ensures !enabled || retained.None? ==> w == Window([], Some(Unavailable), None, 0)
    ensures enabled && retained.Some? ==>
              var ns := Numbers(retained.value);
              && w.frames == retained.value[TailStart(ns)..]
              && Answer(w.gap, w.first, w.floor)
                 == if ns == [] then ClassifiedEmpty(high, set r | r in later :: r.sequence, p)
                    else Classified(ns, p)
  {
    if !enabled || retained.None? { return Window([], Some(Unavailable), None, 0); }
    var frames := retained.value;
    if frames == [] {
      w := EmptyReplayWindow(high, later, p);
      return;
    }
    var served := ContiguousTail(frames);
    var complete := if p.fromWindowStart then |served| == |frames|
                    else served[0].sequence == p.afterSequence + 1;
    if complete { return Window(served, None, None, p.afterSequence); }
    return Window(served, Some(WindowExceeded), Some(served[0].sequence), p.afterSequence);
  }

  // ---- Main results ----

  lemma {:induction false} ConsecutiveCounts(ns: seq<nat>, k: nat, i: nat)
    requires ConsecutiveFrom(ns, k) && k <= i < |ns|
    ensures ns[i] == ns[k] + (i - k)
    decreases i
  {
    if i > k {
      ConsecutiveCounts(ns, k, i - 1);
    }
  }

  /** From `low` to the newest, every number is there. */
  ghost predicate Dense(ns: seq<nat>, low: nat)
    requires ns != []
  {
    forall n | low <= n <= ns[|ns| - 1] :: n in ns
  }

  lemma DenseIsConsecutive(ns: seq<nat>)
    requires ns != [] && Ascends(ns)
    ensures Dense(ns, ns[0]) <==> ConsecutiveFrom(ns, 0)
  {
    if ConsecutiveFrom(ns, 0) {
      forall n | ns[0] <= n <= ns[|ns| - 1] ensures n in ns {
        ConsecutiveCounts(ns, 0, |ns| - 1);
        ConsecutiveCounts(ns, 0, n - ns[0]);
      }
    }
    if Dense(ns, ns[0]) {
      forall i | 0 < i < |ns| ensures ns[i] == ns[i - 1] + 1 {
        var n := ns[i - 1] + 1;
        assert ns[0] <= n <= ns[i] <= ns[|ns| - 1];
        assert n in ns;
        var j :| 0 <= j < |ns| && ns[j] == n;
      }
    }
  }

  /**
   For a numbered cursor a non-empty window carries no notice exactly when no
   position from the cursor to the newest retained frame is missing; otherwise
   the notice names the window's own first number.
   */
  lemma NumberedWindowIsFlaggedExactlyOnLoss(ns: seq<nat>, after: nat)
    requires ns != [] && Ascends(ns) && ns[0] > after
    ensures var a := Classified(ns, Position(after, false));
            && (a.gap == None <==> Dense(ns, after + 1))
            && (a.gap.Some? ==> a.gap.value == WindowExceeded && a.first == Some(ns[TailStart(ns)]))
  {
    TailIsTheLongestSuffix(ns, 0);
    DenseIsConsecutive(ns);
    if Dense(ns, after + 1) {
      assert after + 1 in ns;
    }
  }

  /** For the window-start sentinel a notice is carried exactly when the retained frames have a hole. */
  lemma SentinelWindowIsFlaggedExactlyOnAHole(ns: seq<nat>, after: nat)
    requires ns != [] && Ascends(ns)
    ensures Classified(ns, Position(after, true)).gap == None <==> Dense(ns, ns[0])
  {
    TailIsTheLongestSuffix(ns, 0);
    DenseIsConsecutive(ns);
  }

  /**
   The mark a resumed stream starts from never exceeds the client's own cursor
   nor the highest number any read returned.
   */
  lemma FloorIsClamped(high: Option<Option<nat>>, ring: set<nat>, p: Position)
    ensures var a := ClassifiedEmpty(high, ring, p);
            && a.floor <= p.afterSequence
            && (a.floor == 0 || exists n :: (n in ring || high == Some(Some(n))) && a.floor <= n)
            && (a.gap == None ==> a.floor == p.afterSequence)
  {
    if high.Some? {
      var held := if high.value.Some? then ring + {high.value.value} else ring;
      if held != {} {
        assert Largest(held) in ring || high == Some(Some(Largest(held)));
      }
    }
  }
}
