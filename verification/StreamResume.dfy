/** Resuming: contiguous delivery across the handover, and across any number of reconnects. */
module StreamResume {
  import opened Basics
  import opened Replay
  import opened StreamModel
  import opened StreamSafety
  import opened StreamMark

  // ---- Chains ----

  /** The position a numbered cursor claims. */
  function Base(c: Connection): Option<nat> {
    if c.cursor.Some? && !c.cursor.value.fromWindowStart then Some(c.cursor.value.afterSequence) else None
  }

  function Previous(base: Option<nat>, out: seq<Out>): Option<nat> {
    if LastShown(out).Some? then LastShown(out) else base
  }

  predicate Noticed(out: seq<Out>) {
    out != [] && out[|out| - 1] == Gap
  }

  /** `n` continues what went before, or a notice stands right in front of it. */
  predicate Continues(base: Option<nat>, out: seq<Out>, n: nat) {
    Noticed(out) || Previous(base, out).None? || n == Previous(base, out).value + 1
  }

  predicate Chained(base: Option<nat>, out: seq<Out>) {
    out == [] ||
    var last := |out| - 1;
    Chained(base, out[..last]) && (out[last].Shown? ==> Continues(base, out[..last], out[last].n))
  }

  lemma ChainSnoc(base: Option<nat>, out: seq<Out>, o: Out)
    ensures Chained(base, out + [o]) <==> Chained(base, out) && (o.Shown? ==> Continues(base, out, o.n))
    ensures Previous(base, out + [o]) == if o.Shown? then Some(o.n) else Previous(base, out)
    ensures Noticed(out + [o]) <==> o == Gap
  {
    assert (out + [o])[..|out|] == out;
    Snoc(out, o);
  }

  // ---- The invariant of a run without backpressure drops ----

  /** The queue is the last |queue| numbers produced. */
  predicate Tight(queue: seq<nat>, produced: nat) {
    |queue| <= produced && forall i | 0 <= i < |queue| :: queue[i] == produced - |queue| + 1 + i
  }

  predicate Undropped(out: seq<Out>) {
    forall i | 0 <= i < |out| :: !out[i].Lost?
  }

  /** The next live number continues what was shown. */
  predicate Linked(c: Connection, out: seq<Out>, next: nat) {
    var before := Previous(Base(c), out);
    Noticed(out) || before.None? || (before.value == c.mark && next <= c.mark + 1)
  }

  predicate ChainOk(c: Connection, out: seq<Out>, produced: nat)
    requires |c.queue| <= produced
  {
    match c.phase
    case Serving(todo) =>
      Chained(Base(c), out) &&
      if todo == [] then Linked(c, out, c.since + 1) else Continues(Base(c), out, todo[0])
    case Live => Chained(Base(c), out) && Linked(c, out, produced - |c.queue| + 1)
    case _ => true
  }

  predicate QueueOk(c: Connection, out: seq<Out>, produced: nat) {
    && c.missed == 0 && Undropped(out)
    && Tight(c.queue, produced) && |c.queue| <= produced - c.since
    && (!c.phase.Live? ==> |c.queue| == produced - c.since)
  }

  ghost predicate Inv3(s: State) {
    Inv2(s) && (s.conn.Some? ==>
      var c := s.conn.value;
      QueueOk(c, s.out, s.produced) && (c.upto >= c.since ==> ChainOk(c, s.out, s.produced)))
  }

  lemma ProduceKeepsInv3(cfg: Config, s: State)
    requires Inv3(s)
    ensures Inv3(DoProduce(cfg, s))
  {
    StepKeepsInv2(cfg, s, Produce);
  }

  lemma AnnounceChains(s: State, a: Answer, todo: seq<nat>, from: nat, upto: nat)
    requires s.conn.Some? && s.out == [] && QueueOk(s.conn.value, [], s.produced) && !s.conn.value.phase.Live?
    requires s.conn.value.cursor.Some?
    requires var p := s.conn.value.cursor.value;
             a.gap.None? && !p.fromWindowStart ==>
               if todo == [] then a.floor == p.afterSequence == upto else todo[0] == p.afterSequence + 1
    ensures var s' := Announced(s, s.conn.value, a, todo, from, upto);
            var c' := s'.conn.value;
            QueueOk(c', s'.out, s'.produced) && (upto >= c'.since ==> ChainOk(c', s'.out, s'.produced))
  {
    ChainSnoc(Base(s.conn.value), [], Gap);
    assert [] + [Gap] == [Gap];
  }

  lemma ReadRingKeepsInv3(cfg: Config, s: State)
    requires Inv3(s) && InPhase(s, ReadRing)
    ensures Inv3(DoReadRing(cfg, s))
  {
    ReadRingKeepsInv2(cfg, s);
    var ns := Frames(cfg, s);
    if ns != [] {
      var k := TailStart(ns);
      AnnounceChains(s, Classified(ns, s.conn.value.cursor.value), ns[k..], ns[k], ns[|ns| - 1]);
    }
  }

  lemma ReadRingAgainKeepsInv3(s: State)
    requires Inv3(s) && InPhase(s, ReadRingAgain)
    ensures Inv3(DoReadRingAgain(s))
  {
    ReadRingAgainKeepsInv2(s);
    var c := s.conn.value;
    FloorIsClamped(c.phase.high, Ring(s), c.cursor.value);
    var a := ClassifiedEmpty(c.phase.high, Ring(s), c.cursor.value);
    var upto := if a.gap.Some? then c.since else a.floor;
    AnnounceChains(s, a, [], upto + 1, upto);
  }

  lemma ServeKeepsInv3(s: State)
    requires Inv3(s) && InPhase(s, Serve)
    ensures Inv3(DoServe(s))
  {
    ServeKeepsInv2(s);
    var c := s.conn.value;
    ChainSnoc(Base(c), s.out, Shown(c.phase.todo[0]));
  }

  lemma TakeKeepsInv3(s: State)
    requires Inv3(s) && InPhase(s, Take)
    ensures Inv3(DoTake(s))
  {
    TakeKeepsInv2(s);
    var c := s.conn.value;
    ChainSnoc(Base(c), s.out, Shown(c.queue[0]));
  }

  lemma FailKeepsInv3(cfg: Config, s: State)
    requires Inv3(s) && InPhase(s, ReadFails)
    ensures Inv3(Viewed(cfg, s, ReadFails))
  {
    StepKeepsInv2(cfg, s, ReadFails);
    AnnounceChains(s, NOT_SERVED, [], s.conn.value.since + 1, s.conn.value.since);
  }

  lemma GoLiveKeepsInv3(cfg: Config, s: State)
    requires Inv3(s) && InPhase(s, GoLive)
    ensures Inv3(Moved(s, Live))
  {
    StepKeepsInv2(cfg, s, GoLive);
  }

  /** Steps of the viewer that neither show a frame nor open a window. */
  lemma PlainKeepsInv3(cfg: Config, s: State, a: Action)
    requires Inv3(s) && InPhase(s, a)
    requires a.ReadRows? || a.ReadHigh? || a.HighFails? || a.Beat? || a.Disconnect?
    ensures Inv3(Viewed(cfg, s, a))
  {
    StepKeepsInv2(cfg, s, a);
  }

  lemma ViewKeepsInv3(cfg: Config, s: State, a: Action)
    requires Inv3(s) && InPhase(s, a) && !a.Drop?
    ensures Inv3(Viewed(cfg, s, a))
  {
    if a.ReadRing? {
      ReadRingKeepsInv3(cfg, s);
    } else if a.ReadRingAgain? {
      ReadRingAgainKeepsInv3(s);
    } else if a.Serve? {
      ServeKeepsInv3(s);
    } else if a.GoLive? {
      GoLiveKeepsInv3(cfg, s);
    } else if a.Take? {
      TakeKeepsInv3(s);
    } else if a.ReadFails? {
      FailKeepsInv3(cfg, s);
    } else {
      PlainKeepsInv3(cfg, s, a);
    }
  }

  lemma StepKeepsInv3(cfg: Config, s: State, a: Action)
    requires Inv3(s) && Enabled(s, a) && !a.Drop?
    ensures Inv3(Apply(cfg, s, a))
  {
    if a.Produce? {
      ProduceKeepsInv3(cfg, s);
    } else if InPhase(s, a) {
      ViewKeepsInv3(cfg, s, a);
    } else {
      StepKeepsInv2(cfg, s, a);
    }
  }

  predicate NoDrop(actions: seq<Action>) {
    forall i | 0 <= i < |actions| :: !actions[i].Drop?
  }

  lemma {:induction false} InvAlways3(cfg: Config, s: State, actions: seq<Action>)
    requires Inv3(s) && IsRun(cfg, s, actions) && NoDrop(actions)
    ensures Inv3(After(cfg, s, actions))
    decreases |actions|
  {
    if actions != [] {
      StepKeepsInv3(cfg, s, actions[0]);
      assert NoDrop(actions[1..]);
      InvAlways3(cfg, Apply(cfg, s, actions[0]), actions[1..]);
    }
  }

  // ---- One connection ----

  /** After a cursor, and nothing else: cursor + 1, cursor + 2, ... once each and in order. */
  predicate Exactly(after: nat, out: seq<Out>) {
    forall i | 0 <= i < |out| :: out[i] == Shown(after + 1 + i)
  }

  lemma {:induction false} SilentChainIsExact(after: nat, out: seq<Out>)
    requires Chained(Some(after), out) && Undropped(out) && Gap !in out
    ensures Exactly(after, out) && Previous(Some(after), out) == Some(after + |out|)
    decreases |out|
  {
    if out != [] {
      var init := out[..|out| - 1];
      assert out == init + [out[|out| - 1]];
      assert forall o | o in init :: o in out;
      SilentChainIsExact(after, init);
      assert out[|out| - 1] in out;
    }
  }

  predicate Answering(s: State) {
    s.conn.Some? && !Early(s.conn.value.phase)
  }

  /**
   In every run without a backpressure drop, whatever rows were damaged and
   whatever runs the writer evicted: a resumed stream that has shown a frame
   produced since it subscribed and carried no gap notice is exactly
   cursor + 1, cursor + 2, ... if and only if the window it served reached what
   the run had produced when it subscribed.
   */
  lemma HandoverIsWholeExactlyWhen(cfg: Config, actions: seq<Action>)
    requires IsRun(cfg, START, actions) && NoDrop(actions)
    requires var s := After(cfg, START, actions);
             && Answering(s) && Base(s.conn.value).Some? && Gap !in s.out
             && LastShown(s.out).Some? && LastShown(s.out).value > s.conn.value.since
    ensures var s := After(cfg, START, actions);
            var c := s.conn.value;
            Exactly(c.cursor.value.afterSequence, s.out) <==> c.upto >= c.since
  {
    InvAlways3(cfg, START, actions);
    var s := After(cfg, START, actions);
    var c := s.conn.value;
    var after := c.cursor.value.afterSequence;
    if c.upto >= c.since {
      SilentChainIsExact(after, s.out);
    } else {
      HoleIsNotShown(c, s.out, after, s.produced);
    }
  }

  /** A number between the window and the subscription is never shown. */
  lemma HoleIsNotShown(c: Connection, out: seq<Out>, after: nat, produced: nat)
    requires ConnOk(c, out, produced) && WindowOk(c, out) && !Early(c.phase)
    requires Base(c) == Some(after) && Gap !in out && c.upto < c.since
    requires LastShown(out).Some? && LastShown(out).value > c.since
    ensures !Exactly(after, out)
  {
    var hole := c.upto + 1;
    assert Shown(hole) !in out;
    ExactlyShowsAll(after, out, hole);
  }

  lemma ExactlyShowsAll(after: nat, out: seq<Out>, n: nat)
    ensures Exactly(after, out) && LastShown(out).Some? && after < n <= LastShown(out).value ==> Shown(n) in out
  {
    if Exactly(after, out) && LastShown(out).Some? && after < n <= LastShown(out).value {
      assert out[n - after - 1] == Shown(n);
    }
  }
}
