/** What every run of the stream keeps, whatever is evicted, dropped, swept or damaged. */
module StreamSafety {
  import opened Basics
  import opened Replay
  import opened StreamModel

  // ---- Outputs ----

  function LastShown(out: seq<Out>): Option<nat> {
    if out == [] then None
    else
      var last := |out| - 1;
      if out[last].Shown? then Some(out[last].n) else LastShown(out[..last])
  }

  /** Each shown number is above the one shown before it. */
  predicate Rising(out: seq<Out>) {
    out == [] ||
    var last := |out| - 1;
    && Rising(out[..last])
    && (out[last].Shown? && LastShown(out[..last]).Some? ==> LastShown(out[..last]).value < out[last].n)
  }

  lemma Snoc(out: seq<Out>, o: Out)
    ensures LastShown(out + [o]) == if o.Shown? then Some(o.n) else LastShown(out)
    ensures Rising(out + [o]) <==>
            Rising(out) && (o.Shown? && LastShown(out).Some? ==> LastShown(out).value < o.n)
  {
    assert (out + [o])[..|out|] == out;
  }

  lemma {:induction false} LastShownIsLargest(out: seq<Out>, i: nat)
    requires Rising(out) && i < |out| && out[i].Shown?
    ensures LastShown(out).Some? && out[i].n <= LastShown(out).value
    decreases |out|
  {
    var last := |out| - 1;
    if i < last {
      LastShownIsLargest(out[..last], i);
    }
  }

  /** Rising outputs are strictly increasing end to end, so nothing is shown twice. */
  lemma {:induction false} RisingIsStrict(out: seq<Out>, i: nat, j: nat)
    requires Rising(out) && i < j < |out| && out[i].Shown? && out[j].Shown?
    ensures out[i].n < out[j].n
    decreases |out|
  {
    var last := |out| - 1;
    if j < last {
      RisingIsStrict(out[..last], i, j);
    } else {
      LastShownIsLargest(out[..last], i);
    }
  }

  // ---- The invariant ----

  predicate Inside(ns: set<nat>, high: nat) {
    forall n | n in ns :: n <= high
  }

  predicate Between(ns: seq<nat>, low: nat, high: nat) {
    forall n | n in ns :: low < n <= high
  }

  predicate StoreOk(s: State) {
    s.below <= s.produced && Inside(s.table, s.produced) && (s.batch.Some? ==> Inside(s.batch.value, s.produced))
  }

  predicate Early(phase: Phase) {
    phase.Attached? || phase.RowsRead? || phase.NothingAfter? || phase.HighRead?
  }

  predicate PhaseOk(c: Connection, produced: nat) {
    match c.phase
    case Attached => true
    case RowsRead(rows) => Inside(rows, produced) && c.cursor.Some? && forall n | n in rows :: n > c.cursor.value.afterSequence
    case NothingAfter => true
    case HighRead(high) => high.Some? && high.value.Some? ==> high.value.value <= produced
    case Serving(todo) =>
      Ascends(todo) && Between(todo, c.mark, Min(produced, c.upto))
      && c.cursor.Some? && (forall n | n in todo :: n > c.cursor.value.afterSequence)
      && (forall n | n in todo :: n >= c.from)
      && (todo == [] ==> c.from <= Max(c.mark, c.since) + 1)
    case Live => c.from <= Max(c.mark, c.since) + 1
  }

  /** A shown number is of the window or live, and above the cursor or live. */
  predicate Fits(c: Connection, n: nat) {
    && (n <= c.upto || n > c.since)
    && (n > c.since || (c.cursor.Some? && n > c.cursor.value.afterSequence))
    && n >= c.from
  }

  predicate OutFits(c: Connection, out: seq<Out>) {
    forall i | 0 <= i < |out| && out[i].Shown? :: Fits(c, out[i].n)
  }

  /** The mark is a position the client claimed, or the last number this connection showed. */
  predicate MarkOk(c: Connection, out: seq<Out>, produced: nat) {
    && c.mark <= produced
    && (LastShown(out).Some? ==> LastShown(out).value <= c.mark)
    && (c.mark == 0 || (c.cursor.Some? && c.mark <= c.cursor.value.afterSequence) || LastShown(out) == Some(c.mark))
  }

  predicate ConnOk(c: Connection, out: seq<Out>, produced: nat) {
    && c.since <= produced && c.from <= c.upto + 1
    && Ascends(c.queue) && Between(c.queue, c.since, produced)
    && PhaseOk(c, produced)
    && MarkOk(c, out, produced)
    && Rising(out) && OutFits(c, out)
    && (Early(c.phase) ==> out == [] && c.mark == 0)
  }

  predicate Inv(s: State) {
    StoreOk(s) && if s.conn.None? then s.out == [] else ConnOk(s.conn.value, s.out, s.produced)
  }

  // ---- The window's numbers are what the two reads leave ----

  function NumberSet(records: seq<Record>): set<nat> {
    set r | r in records :: r.sequence
  }

  /**
   The frames `Replay.RetainedAfter` computes carry exactly the numbers of
   `Retained`, when the damaged rows are those that do not decode.
   */
  lemma RetainedIsWhatIsRead(cfg: Config, merged: map<nat, Record>, rows: seq<Record>, ring: seq<Record>, after: nat)
    requires IsUnion(merged, rows, ring, after)
    requires forall r | r in rows :: r.body.None? <==> r.sequence in cfg.bad
    requires forall r | r in ring :: r.body.Some?
    ensures Numbers(DecodedAll(Ascending(merged.Keys), merged))
            == Ascending(Retained(cfg, NumberSet(rows), NumberSet(ring), after))
  {
    assert Decodable(merged) == Retained(cfg, NumberSet(rows), NumberSet(ring), after) by {
      SameNumbers(cfg, merged, rows, ring, after);
    }
    RetainedIsTheUnion(merged, rows, ring, after);
  }

  lemma SameNumbers(cfg: Config, merged: map<nat, Record>, rows: seq<Record>, ring: seq<Record>, after: nat)
    requires IsUnion(merged, rows, ring, after)
    requires forall r | r in rows :: r.body.None? <==> r.sequence in cfg.bad
    requires forall r | r in ring :: r.body.Some?
    ensures Decodable(merged) == Retained(cfg, NumberSet(rows), NumberSet(ring), after)
  {
    var retained := Retained(cfg, NumberSet(rows), NumberSet(ring), after);
    forall n: nat ensures n in Decodable(merged) <==> n in retained {
      ReadNumber(cfg, merged, rows, ring, after, n);
    }
  }

  lemma ReadNumber(cfg: Config, merged: map<nat, Record>, rows: seq<Record>, ring: seq<Record>, after: nat, n: nat)
    requires IsUnion(merged, rows, ring, after)
    requires forall r | r in rows :: r.body.None? <==> r.sequence in cfg.bad
    requires forall r | r in ring :: r.body.Some?
    ensures n in Decodable(merged) <==> n in Retained(cfg, NumberSet(rows), NumberSet(ring), after)
  {
    HasNumberIsIn(rows, n);
    HasNumberIsIn(ring, n);
  }

  lemma HasNumberIsIn(records: seq<Record>, n: nat)
    ensures HasNumber(records, n) <==> n in NumberSet(records)
  {
    if n in NumberSet(records) {
      var r :| r in records && r.sequence == n;
      var i :| 0 <= i < |records| && records[i] == r;
    }
  }

  // ---- Ascending queues ----

  lemma Appended(ns: seq<nat>, n: nat, low: nat)
    requires Ascends(ns) && n > 0 && Between(ns, low, n - 1) && low < n
    ensures Ascends(ns + [n]) && Between(ns + [n], low, n)
  {
    forall i, j | 0 <= i < j < |ns + [n]| ensures (ns + [n])[i] < (ns + [n])[j] {
      assert ns[i] in ns;
    }
  }

  lemma Popped(ns: seq<nat>, low: nat, high: nat)
    requires ns != [] && Ascends(ns) && Between(ns, low, high)
    ensures low < ns[0] <= high && Ascends(ns[1..]) && Between(ns[1..], ns[0], high) && Between(ns[1..], low, high)
  {
    assert ns[0] in ns;
    forall n | n in ns[1..] ensures ns[0] < n && n in ns {
      var i :| 0 <= i < |ns| - 1 && ns[1..][i] == n;
      assert ns[i + 1] == n;
    }
  }

  lemma Removed(ns: seq<nat>, i: nat, low: nat, high: nat)
    requires i < |ns| && Ascends(ns) && Between(ns, low, high)
    ensures Ascends(ns[..i] + ns[i + 1..]) && Between(ns[..i] + ns[i + 1..], low, high)
  {
    var rest := ns[..i] + ns[i + 1..];
    forall j | 0 <= j < |rest| ensures rest[j] == ns[if j < i then j else j + 1] {
    }
    forall n | n in rest ensures n in ns {
      var j :| 0 <= j < |rest| && rest[j] == n;
      assert n == ns[if j < i then j else j + 1];
    }
  }

  // ---- Steps ----

  lemma ProduceKeepsInv(cfg: Config, s: State)
    requires Inv(s)
    ensures Inv(DoProduce(cfg, s))
  {
    if s.conn.Some? {
      Appended(s.conn.value.queue, s.produced + 1, s.conn.value.since);
    }
  }

  lemma CommitKeepsStore(cfg: Config, s: State)
    requires StoreOk(s) && s.batch.Some?
    ensures Inside(Trimmed(s.table + s.batch.value, cfg.window), s.produced)
  {
  }

  lemma AnnounceKeepsInv(s: State, a: Answer, todo: seq<nat>, from: nat, upto: nat)
    requires Inv(s) && s.conn.Some? && Early(s.conn.value.phase)
    requires s.conn.value.cursor.Some? && a.floor <= Min(s.produced, s.conn.value.cursor.value.afterSequence)
    requires Ascends(todo) && Between(todo, s.conn.value.cursor.value.afterSequence, Min(s.produced, upto))
    requires from <= upto + 1 && (forall n | n in todo :: n >= from) && (todo == [] ==> from <= Max(a.floor, s.conn.value.since) + 1)
    ensures Inv(Announced(s, s.conn.value, a, todo, from, upto))
  {
    assert [Gap][..0] == [];
    Snoc([], Gap);
    assert [] + [Gap] == [Gap];
  }

  /** The frames a ring read leaves to serve, in order. */
  function Frames(cfg: Config, s: State): (ns: seq<nat>)
    requires InPhase(s, ReadRing)
    ensures Ascends(ns)
  {
    var c := s.conn.value;
    Ascending(Retained(cfg, c.phase.rows, Ring(s), c.cursor.value.afterSequence))
  }

  /** They lie after the cursor and within what was produced. */
  lemma FramesLie(cfg: Config, s: State)
    requires Inv(s) && InPhase(s, ReadRing)
    ensures Between(Frames(cfg, s), s.conn.value.cursor.value.afterSequence, s.produced)
  {
    var c := s.conn.value;
    var after := c.cursor.value.afterSequence;
    forall n | n in Frames(cfg, s) ensures after < n <= s.produced {
      assert n in Retained(cfg, c.phase.rows, Ring(s), after);
    }
  }

  lemma TailLies(ns: seq<nat>, k: nat, low: nat, high: nat)
    requires ns != [] && k < |ns| && Ascends(ns) && Between(ns, low, high)
    ensures low < ns[0] <= ns[k] <= ns[|ns| - 1] <= high
    ensures Ascends(ns[k..]) && Between(ns[k..], low, ns[|ns| - 1]) && forall n | n in ns[k..] :: n >= ns[k]
  {
    assert ns[0] in ns && ns[|ns| - 1] in ns;
    forall n | n in ns[k..] ensures low < n <= ns[|ns| - 1] && n >= ns[k] {
      var i :| 0 <= i < |ns[k..]| && ns[k..][i] == n;
      assert ns[k + i] == n && n in ns;
    }
  }

  lemma ReadRingKeepsInv(cfg: Config, s: State)
    requires Inv(s) && InPhase(s, ReadRing)
    ensures Inv(DoReadRing(cfg, s))
  {
    var p := s.conn.value.cursor.value;
    var ns := Frames(cfg, s);
    FramesLie(cfg, s);
    if ns != [] {
      TailLies(ns, TailStart(ns), p.afterSequence, s.produced);
      AnnounceKeepsInv(s, Classified(ns, p), ns[TailStart(ns)..], ns[TailStart(ns)], ns[|ns| - 1]);
    }
  }

  lemma ReadRingAgainKeepsInv(s: State)
    requires Inv(s) && InPhase(s, ReadRingAgain)
    ensures Inv(DoReadRingAgain(s))
  {
    var c := s.conn.value;
    FloorIsClamped(c.phase.high, Ring(s), c.cursor.value);
    var a := ClassifiedEmpty(c.phase.high, Ring(s), c.cursor.value);
    var upto := if a.gap.Some? then c.since else a.floor;
    AnnounceKeepsInv(s, a, [], upto + 1, upto);
  }

  /** Showing a number above the mark keeps what the connection has sent in order. */
  lemma ShowKeepsOut(c: Connection, c': Connection, out: seq<Out>, n: nat, produced: nat)
    requires Rising(out) && OutFits(c, out) && MarkOk(c, out, produced)
    requires c.mark < n <= produced && Fits(c, n)
    requires c'.cursor == c.cursor && c'.since == c.since && c'.from == c.from && c'.upto == c.upto && c'.mark == n
    ensures Rising(out + [Shown(n)]) && OutFits(c', out + [Shown(n)]) && MarkOk(c', out + [Shown(n)], produced)
  {
    Snoc(out, Shown(n));
  }

  lemma ServeKeepsInv(s: State)
    requires Inv(s) && InPhase(s, Serve)
    ensures Inv(DoServe(s))
  {
    var c := s.conn.value;
    Popped(c.phase.todo, c.mark, Min(s.produced, c.upto));
    assert c.phase.todo[0] in c.phase.todo;
    ShowKeepsOut(c, DoServe(s).conn.value, s.out, c.phase.todo[0], s.produced);
    ServedOk(c, s.produced);
  }

  lemma ServedOk(c: Connection, produced: nat)
    requires c.phase.Serving? && c.phase.todo != [] && PhaseOk(c, produced)
    ensures PhaseOk(c.(mark := c.phase.todo[0], phase := Serving(c.phase.todo[1..])), produced)
  {
    var todo := c.phase.todo;
    Popped(todo, c.mark, Min(produced, c.upto));
    assert todo[0] in todo;
    forall n | n in todo[1..] ensures n in todo {
      var i :| 0 <= i < |todo[1..]| && todo[1..][i] == n;
      assert todo[i + 1] == n;
    }
  }

  lemma ResyncKeepsInv(s: State)
    requires Inv(s) && s.conn.Some? && s.conn.value.phase.Live?
    ensures Inv(Resynced(s))
  {
    Snoc(s.out, Lost(s.conn.value.missed));
  }

  lemma TakeKeepsInv(s: State)
    requires Inv(s) && InPhase(s, Take)
    ensures Inv(DoTake(s))
  {
    ResyncKeepsInv(s);
    var s1 := Resynced(s);
    Popped(s.conn.value.queue, s.conn.value.since, s.produced);
    var c := s1.conn.value;
    if c.queue[0] > c.mark {
      ShowKeepsOut(c, DoTake(s).conn.value, s1.out, c.queue[0], s.produced);
    }
  }

  lemma DropKeepsInv(s: State, i: nat)
    requires Inv(s) && InPhase(s, Drop(i))
    ensures Inv(DoDrop(s, i))
  {
    Removed(s.conn.value.queue, i, s.conn.value.since, s.produced);
  }

  lemma RowsLie(cfg: Config, s: State)
    requires Inv(s) && InPhase(s, ReadRows)
    ensures Inv(Viewed(cfg, s, ReadRows))
  {
    var after := s.conn.value.cursor.value.afterSequence;
    var rows := RowsAfter(s.table, after, cfg.window);
    forall n | n in rows ensures after < n <= s.produced {
      assert n in Ascending(Newer(s.table, after));
    }
  }

  lemma ViewKeepsInv(cfg: Config, s: State, a: Action)
    requires Inv(s) && InPhase(s, a)
    ensures Inv(Viewed(cfg, s, a))
  {
    match a
    case ReadRows => RowsLie(cfg, s);
    case ReadFails => AnnounceKeepsInv(s, NOT_SERVED, [], s.conn.value.since + 1, s.conn.value.since);
    case ReadRing => ReadRingKeepsInv(cfg, s);
    case ReadRingAgain => ReadRingAgainKeepsInv(s);
    case Serve => ServeKeepsInv(s);
    case Take => TakeKeepsInv(s);
    case Beat => ResyncKeepsInv(s);
    case Drop(i) => DropKeepsInv(s, i);
    case _ =>
  }

  lemma StepKeepsInv(cfg: Config, s: State, a: Action)
    requires Inv(s) && Enabled(s, a)
    ensures Inv(Apply(cfg, s, a))
  {
    match a
    case Produce => ProduceKeepsInv(cfg, s);
    case BeginFlush =>
    case CommitFlush => CommitKeepsStore(cfg, s);
    case FailFlush =>
    case Sweep(_) =>
    case Evict =>
    case Connect(_) =>
    case _ => ViewKeepsInv(cfg, s, a);
  }

  lemma {:induction false} InvAlways(cfg: Config, s: State, actions: seq<Action>)
    requires Inv(s) && IsRun(cfg, s, actions)
    ensures Inv(After(cfg, s, actions))
    decreases |actions|
  {
    if actions != [] {
      StepKeepsInv(cfg, s, actions[0]);
      InvAlways(cfg, Apply(cfg, s, actions[0]), actions[1..]);
    }
  }
}
