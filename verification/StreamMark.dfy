/** The de-duplication mark: what it may name, that it only rises, and exactly what it drops. */
module StreamMark {
  import opened Replay
  import opened StreamModel
  import opened StreamSafety

  /** Every number from `low` to `high` was shown. */
  predicate Covered(out: seq<Out>, low: nat, high: int) {
    forall k | low <= k <= high :: Shown(k) in out
  }

  predicate Claimed(c: Connection, n: nat) {
    c.cursor.Some? && n <= c.cursor.value.afterSequence
  }

  /** A numbered cursor that is not continued at once has been told so. */
  predicate StartOk(c: Connection, out: seq<Out>) {
    c.cursor.Some? && !c.cursor.value.fromWindowStart ==>
      c.from == c.cursor.value.afterSequence + 1 || Gap in out
  }

  predicate MarkFits(c: Connection) {
    c.mark <= c.upto || Claimed(c, c.mark) || forall n | n in c.queue :: n > c.mark
  }

  function ShownThrough(c: Connection, todo: seq<nat>): int {
    if todo == [] then c.upto else todo[0] as int - 1
  }

  predicate WindowOk(c: Connection, out: seq<Out>) {
    match c.phase
    case Serving(todo) =>
      && ConsecutiveFrom(todo, 0) && (todo != [] ==> todo[|todo| - 1] == c.upto)
      && Covered(out, c.from, ShownThrough(c, todo))
      && StartOk(c, out) && MarkFits(c)
    case Live => Covered(out, c.from, c.upto) && StartOk(c, out) && MarkFits(c)
    case _ => true
  }

  ghost predicate Inv2(s: State) {
    StreamSafety.Inv(s) && (s.conn.Some? ==> WindowOk(s.conn.value, s.out))
  }

  lemma CoveredSnoc(out: seq<Out>, o: Out, low: nat, high: int)
    requires Covered(out, low, high)
    ensures Covered(out + [o], low, high)
    ensures o.Shown? && o.n == high + 1 ==> Covered(out + [o], low, high + 1)
    ensures forall k :: Shown(k) in out ==> Shown(k) in out + [o]
  {
    forall k: nat | low <= k <= high + 1 && (k <= high || o == Shown(k)) ensures Shown(k) in out + [o] {
      if k <= high {
        assert Shown(k) in out;
      } else {
        assert (out + [o])[|out|] == Shown(k);
      }
    }
    forall k | Shown(k) in out ensures Shown(k) in out + [o] {
    }
  }

  lemma TailContinues(ns: seq<nat>, k: nat)
    requires k < |ns| && ConsecutiveFrom(ns, k)
    ensures ConsecutiveFrom(ns[k..], 0) && ns[k..][|ns[k..]| - 1] == ns[|ns| - 1] && ns[k..][0] == ns[k]
  {
    var tail := ns[k..];
    forall i | 0 < i < |tail| ensures tail[i] == tail[i - 1] + 1 {
      assert tail[i] == ns[k + i] && tail[i - 1] == ns[k + i - 1];
    }
  }

  lemma WindowStarts(s: State, a: Answer, todo: seq<nat>)
    requires s.conn.Some? && s.conn.value.cursor.Some? && todo != [] && ConsecutiveFrom(todo, 0)
    requires var p := s.conn.value.cursor.value;
             a.floor <= p.afterSequence && (p.fromWindowStart || a.gap.Some? || todo[0] == p.afterSequence + 1)
    ensures var s' := Announced(s, s.conn.value, a, todo, todo[0], todo[|todo| - 1]);
            WindowOk(s'.conn.value, s'.out)
  {
    var s' := Announced(s, s.conn.value, a, todo, todo[0], todo[|todo| - 1]);
    assert a.gap.Some? ==> s'.out[|s.out|] == Gap;
  }

  lemma ReadRingKeepsInv2(cfg: Config, s: State)
    requires Inv2(s) && InPhase(s, ReadRing)
    ensures Inv2(DoReadRing(cfg, s))
  {
    ReadRingKeepsInv(cfg, s);
    var ns := Frames(cfg, s);
    if ns != [] {
      TailIsTheLongestSuffix(ns, TailStart(ns));
      TailContinues(ns, TailStart(ns));
      WindowStarts(s, Classified(ns, s.conn.value.cursor.value), ns[TailStart(ns)..]);
    }
  }

  lemma ReadRingAgainKeepsInv2(s: State)
    requires Inv2(s) && InPhase(s, ReadRingAgain)
    ensures Inv2(DoReadRingAgain(s))
  {
    ReadRingAgainKeepsInv(s);
    var c := s.conn.value;
    FloorIsClamped(c.phase.high, Ring(s), c.cursor.value);
    var s' := DoReadRingAgain(s);
    if s'.out != s.out {
      assert s'.out[|s.out|] == Gap;
    }
  }

  lemma ServeKeepsInv2(s: State)
    requires Inv2(s) && InPhase(s, Serve)
    ensures Inv2(DoServe(s))
  {
    ServeKeepsInv(s);
    var c := s.conn.value;
    var todo := c.phase.todo;
    CoveredSnoc(s.out, Shown(todo[0]), c.from, todo[0] - 1);
    assert Gap in s.out ==> Gap in s.out + [Shown(todo[0])];
    assert todo[0] in todo;
    if |todo| > 1 {
      assert todo[1] == todo[0] + 1;
    }
  }

  /** A notice that shows nothing changes nothing about the window. */
  lemma NoticeKeepsWindow(c: Connection, c': Connection, out: seq<Out>, o: Out)
    requires c.phase.Live? && WindowOk(c, out) && c' == c.(missed := 0)
    ensures WindowOk(c', out + [o])
  {
    CoveredSnoc(out, o, c.from, c.upto);
    assert Gap in out ==> Gap in out + [o];
  }

  lemma ResyncKeepsInv2(s: State)
    requires Inv2(s) && s.conn.Some? && s.conn.value.phase.Live?
    ensures Inv2(Resynced(s))
  {
    ResyncKeepsInv(s);
    var c := s.conn.value;
    NoticeKeepsWindow(c, c.(missed := 0), s.out, Lost(c.missed));
  }

  lemma TakeKeepsInv2(s: State)
    requires Inv2(s) && InPhase(s, Take)
    ensures Inv2(DoTake(s))
  {
    TakeKeepsInv(s);
    ResyncKeepsInv2(s);
    var s1 := Resynced(s);
    var c := s1.conn.value;
    Popped(c.queue, c.since, s.produced);
    CoveredSnoc(s1.out, Shown(c.queue[0]), c.from, c.upto);
    assert Gap in s1.out ==> Gap in s1.out + [Shown(c.queue[0])];
    assert forall n | n in c.queue[1..] :: n in c.queue;
  }

  lemma DropKeepsInv2(s: State, i: nat)
    requires Inv2(s) && InPhase(s, Drop(i))
    ensures Inv2(DoDrop(s, i))
  {
    DropKeepsInv(s, i);
    var c := s.conn.value;
    var c' := DoDrop(s, i).conn.value;
    forall n | n in c'.queue ensures n in c.queue {
      assert n in c.queue[..i] || n in c.queue[i + 1..];
    }
    if c.phase.Serving? || c.phase.Live? {
      assert MarkFits(c) && MarkFits(c');
    }
  }

  lemma ViewKeepsInv2(cfg: Config, s: State, a: Action)
    requires Inv2(s) && InPhase(s, a)
    ensures Inv2(Viewed(cfg, s, a))
  {
    match a
    case ReadRing => ReadRingKeepsInv2(cfg, s);
    case ReadRingAgain => ReadRingAgainKeepsInv2(s);
    case Serve => ServeKeepsInv2(s);
    case Take => TakeKeepsInv2(s);
    case Beat => ResyncKeepsInv2(s);
    case Drop(i) => DropKeepsInv2(s, i);
    case ReadFails =>
      ViewKeepsInv(cfg, s, a);
      assert Viewed(cfg, s, a).out == s.out + [Gap];
    case _ => ViewKeepsInv(cfg, s, a);
  }

  lemma StepKeepsInv2(cfg: Config, s: State, a: Action)
    requires Inv2(s) && Enabled(s, a)
    ensures Inv2(Apply(cfg, s, a))
  {
    if InPhase(s, a) {
      ViewKeepsInv2(cfg, s, a);
    } else {
      StreamSafety.StepKeepsInv(cfg, s, a);
    }
  }

  lemma {:induction false} InvAlways2(cfg: Config, s: State, actions: seq<Action>)
    requires Inv2(s) && IsRun(cfg, s, actions)
    ensures Inv2(After(cfg, s, actions))
    decreases |actions|
  {
    if actions != [] {
      StepKeepsInv2(cfg, s, actions[0]);
      InvAlways2(cfg, Apply(cfg, s, actions[0]), actions[1..]);
    }
  }

  // ---- What a false claim leaves ----

  /** A number shown although the cursor claimed it was live, and the queue has gone past it. */
  predicate Passed(c: Connection, out: seq<Out>) {
    forall i, q | 0 <= i < |out| && out[i].Shown? && Claimed(c, out[i].n) && q in c.queue :: out[i].n < q
  }

  ghost predicate AllPassed(s: State) {
    s.conn.Some? ==> Passed(s.conn.value, s.out)
  }

  lemma TakePasses(s: State)
    requires StreamSafety.Inv(s) && AllPassed(s) && InPhase(s, Take)
    ensures AllPassed(DoTake(s))
  {
    Popped(s.conn.value.queue, s.conn.value.since, s.produced);
    var queue := s.conn.value.queue;
    forall q | q in queue[1..] ensures q in queue && q > queue[0] {
    }
  }

  lemma ProducePasses(cfg: Config, s: State)
    requires StreamSafety.Inv(s) && AllPassed(s)
    ensures AllPassed(DoProduce(cfg, s))
  {
    if s.conn.Some? {
      forall i | 0 <= i < |s.out| && s.out[i].Shown? ensures s.out[i].n <= s.produced {
        LastShownIsLargest(s.out, i);
      }
    }
  }

  lemma ServePasses(s: State)
    requires StreamSafety.Inv(s) && AllPassed(s) && InPhase(s, Serve)
    ensures AllPassed(DoServe(s))
  {
    assert s.conn.value.phase.todo[0] in s.conn.value.phase.todo;
  }

  /** Nothing new shown, nothing new queued. */
  lemma QuietPasses(s: State, s': State)
    requires AllPassed(s) && s.conn.Some? && s'.conn.Some? && s'.conn.value.cursor == s.conn.value.cursor
    requires forall q | q in s'.conn.value.queue :: q in s.conn.value.queue
    requires s'.out == s.out || exists o: Out :: !o.Shown? && s'.out == s.out + [o]
    ensures AllPassed(s')
  {
    var c := s.conn.value;
    forall i, q | 0 <= i < |s'.out| && s'.out[i].Shown? && Claimed(c, s'.out[i].n) && q in s'.conn.value.queue
      ensures s'.out[i].n < q
    {
      assert s'.out[i] == s.out[i] && q in c.queue;
    }
  }

  lemma DropPasses(s: State, i: nat)
    requires AllPassed(s) && InPhase(s, Drop(i))
    ensures AllPassed(DoDrop(s, i))
  {
    var queue := s.conn.value.queue;
    forall q | q in queue[..i] + queue[i + 1..] ensures q in queue {
      assert q in queue[..i] || q in queue[i + 1..];
    }
    QuietPasses(s, DoDrop(s, i));
  }

  lemma ReadsPass(cfg: Config, s: State, a: Action)
    requires AllPassed(s) && InPhase(s, a) && (a.ReadFails? || a.ReadRing? || a.ReadRingAgain?)
    ensures AllPassed(Viewed(cfg, s, a))
  {
    assert !Gap.Shown?;
    QuietPasses(s, Viewed(cfg, s, a));
  }

  lemma ViewPasses(cfg: Config, s: State, a: Action)
    requires StreamSafety.Inv(s) && AllPassed(s) && InPhase(s, a)
    ensures AllPassed(Viewed(cfg, s, a))
  {
    if a.Take? {
      TakePasses(s);
    } else if a.Serve? {
      ServePasses(s);
    } else if a.Drop? {
      DropPasses(s, a.i);
    } else if a.Beat? {
      assert !Lost(s.conn.value.missed).Shown?;
      QuietPasses(s, Resynced(s));
    } else if a.ReadFails? || a.ReadRing? || a.ReadRingAgain? {
      ReadsPass(cfg, s, a);
    } else if !a.Disconnect? {
      QuietPasses(s, Viewed(cfg, s, a));
    }
  }

  lemma StepPasses(cfg: Config, s: State, a: Action)
    requires StreamSafety.Inv(s) && AllPassed(s) && Enabled(s, a)
    ensures AllPassed(Apply(cfg, s, a))
  {
    if a.Produce? {
      ProducePasses(cfg, s);
    } else if InPhase(s, a) {
      ViewPasses(cfg, s, a);
    }
  }

  lemma {:induction false} PassedAlways(cfg: Config, s: State, actions: seq<Action>)
    requires StreamSafety.Inv(s) && AllPassed(s) && IsRun(cfg, s, actions)
    ensures AllPassed(After(cfg, s, actions))
    decreases |actions|
  {
    if actions != [] {
      StreamSafety.StepKeepsInv(cfg, s, actions[0]);
      StepPasses(cfg, s, actions[0]);
      PassedAlways(cfg, Apply(cfg, s, actions[0]), actions[1..]);
    }
  }

  // ---- Main results, over every run ----

  /** One connection shows strictly increasing numbers, each one the run has produced. */
  lemma ConnectionsNeverRepeat(cfg: Config, actions: seq<Action>, i: nat, j: nat)
    requires IsRun(cfg, START, actions)
    requires var out := After(cfg, START, actions).out; i < j < |out| && out[i].Shown? && out[j].Shown?
    ensures var s := After(cfg, START, actions); s.out[i].n < s.out[j].n <= s.produced
  {
    StreamSafety.InvAlways(cfg, START, actions);
    var s := After(cfg, START, actions);
    RisingIsStrict(s.out, i, j);
    LastShownIsLargest(s.out, j);
  }

  /** No client can push the mark past what the run has produced. */
  lemma MarkIsAPositionOfTheRun(cfg: Config, actions: seq<Action>)
    requires IsRun(cfg, START, actions)
    ensures var s := After(cfg, START, actions); s.conn.Some? ==> s.conn.value.mark <= s.produced
  {
    StreamSafety.InvAlways(cfg, START, actions);
  }

  /** While a connection lasts its mark never goes down. */
  lemma MarkNeverFalls(cfg: Config, actions: seq<Action>, a: Action)
    requires IsRun(cfg, START, actions) && Enabled(After(cfg, START, actions), a)
    ensures var s := After(cfg, START, actions);
            s.conn.Some? && !a.Disconnect? ==>
              Apply(cfg, s, a).conn.Some? && s.conn.value.mark <= Apply(cfg, s, a).conn.value.mark
  {
    StreamSafety.InvAlways(cfg, START, actions);
    var s := After(cfg, START, actions);
    if InPhase(s, a) && a.Serve? {
      assert s.conn.value.phase.todo[0] in s.conn.value.phase.todo;
    }
  }

  /**
   The promise is that the mark drops only repeats.  A queued frame it drops was
   in fact never shown on this connection exactly when it lies before the served
   window or the client's cursor claimed it, although the run had not produced it
   when the client subscribed.
   */
  lemma WhatTheMarkDrops(cfg: Config, actions: seq<Action>)
    requires IsRun(cfg, START, actions) && InPhase(After(cfg, START, actions), Take)
    requires var c := After(cfg, START, actions).conn.value; c.queue[0] <= c.mark
    ensures var s := After(cfg, START, actions);
            var c := s.conn.value;
            var n := c.queue[0];
            && n > c.since
            && (Shown(n) !in s.out <==> Claimed(c, n) || n < c.from)
            && (!Claimed(c, n) && n < c.from && c.cursor.Some? && !c.cursor.value.fromWindowStart ==> Gap in s.out)
  {
    InvAlways2(cfg, START, actions);
    PassedAlways(cfg, START, actions);
    var s := After(cfg, START, actions);
    var c := s.conn.value;
    assert c.queue[0] in c.queue;
  }

  /** The client claimed no more than the run had produced when it subscribed. */
  predicate ClaimsWhatIs(c: Connection) {
    c.cursor.None? || c.cursor.value.afterSequence <= c.since
  }

  /** For such a client the mark drops a frame unshown exactly when the frame lies before the served window. */
  lemma WhatTheMarkDropsOnHonestClients(cfg: Config, actions: seq<Action>)
    requires IsRun(cfg, START, actions) && InPhase(After(cfg, START, actions), Take)
    requires var c := After(cfg, START, actions).conn.value; c.queue[0] <= c.mark && ClaimsWhatIs(c)
    ensures var s := After(cfg, START, actions);
            var c := s.conn.value;
            Shown(c.queue[0]) !in s.out <==> c.queue[0] < c.from
  {
    WhatTheMarkDrops(cfg, actions);
  }

  /**
   The newest frame of a run, its terminal in particular, goes unshown exactly
   when the mark drops it and the client's cursor had claimed it beforehand.
   */
  lemma TheNewestIsSwallowedExactlyWhen(cfg: Config, actions: seq<Action>)
    requires IsRun(cfg, START, actions) && InPhase(After(cfg, START, actions), Take)
    requires After(cfg, START, actions).conn.value.queue[0] == After(cfg, START, actions).produced
    ensures var s := After(cfg, START, actions);
            var c := s.conn.value;
            Shown(s.produced) !in DoTake(s).out <==> s.produced <= c.mark && Claimed(c, s.produced)
  {
    InvAlways2(cfg, START, actions);
    PassedAlways(cfg, START, actions);
    var s := After(cfg, START, actions);
    var c := s.conn.value;
    assert c.queue[0] in c.queue;
    CoveredSnoc(s.out, Lost(c.missed), 1, 0);
    var s1 := Resynced(s);
    assert s1.out == s.out || s1.out == s.out + [Lost(c.missed)];
    if c.queue[0] <= c.mark {
      if !Claimed(c, c.queue[0]) {
        LastShownIsShown(s.out);
      }
    } else {
      assert DoTake(s).out[|s1.out|] == Shown(s.produced);
    }
  }

  /** So a client that claimed no more than there was when it subscribed is always shown the newest frame. */
  lemma TheNewestIsNeverSwallowed(cfg: Config, actions: seq<Action>)
    requires IsRun(cfg, START, actions) && InPhase(After(cfg, START, actions), Take)
    requires After(cfg, START, actions).conn.value.queue[0] == After(cfg, START, actions).produced
    requires ClaimsWhatIs(After(cfg, START, actions).conn.value)
    ensures var s := After(cfg, START, actions); Shown(s.produced) in DoTake(s).out
  {
    StreamSafety.InvAlways(cfg, START, actions);
    TheNewestIsSwallowedExactlyWhen(cfg, actions);
    var c := After(cfg, START, actions).conn.value;
    assert c.queue[0] in c.queue;
  }

  lemma {:induction false} LastShownIsShown(out: seq<Out>)
    requires LastShown(out).Some?
    ensures Shown(LastShown(out).value) in out
  {
    var last := |out| - 1;
    if !out[last].Shown? {
      LastShownIsShown(out[..last]);
    }
  }
}
