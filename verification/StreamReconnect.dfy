/** Runs in which the ring holds the newest frame, rows decode and nothing is dropped. */
module StreamReconnect {
  import opened Basics
  import opened Cursor
  import opened Replay
  import opened StreamModel
  import opened StreamSafety
  import opened StreamMark
  import opened StreamResume

  // ---- The newest frame is always readable ----

  /** A writer that keeps at least one frame, and rows that all decode. */
  predicate Sound(cfg: Config) {
    cfg.capacity >= 1 && cfg.bad == {}
  }

  predicate Undisturbed(actions: seq<Action>) {
    forall i | 0 <= i < |actions| :: !actions[i].Drop? && !actions[i].Evict?
  }

  predicate HoldsNewest(s: State) {
    && (s.produced == 0 || s.below < s.produced)
    && (s.conn.Some? ==>
          var c := s.conn.value;
          && c.upto >= c.since
          && (c.phase.NothingAfter? || c.phase.HighRead? ==>
                c.cursor.Some? && c.since <= c.cursor.value.afterSequence))
  }

  ghost predicate Inv4(s: State) {
    Inv3(s) && HoldsNewest(s)
  }

  lemma ReadRingReachesNewest(cfg: Config, s: State)
    requires Inv4(s) && InPhase(s, ReadRing) && Sound(cfg)
    ensures HoldsNewest(DoReadRing(cfg, s))
  {
    var c := s.conn.value;
    var after := c.cursor.value.afterSequence;
    var ns := Frames(cfg, s);
    FramesLie(cfg, s);
    if s.produced > after {
      assert s.produced in Ring(s);
      assert s.produced in Retained(cfg, c.phase.rows, Ring(s), after);
      assert s.produced in ns;
    }
    assert ns != [] ==> ns[0] in ns;
  }

  lemma StepKeepsNewest(cfg: Config, s: State, a: Action)
    requires Inv4(s) && Enabled(s, a) && Sound(cfg) && !a.Drop? && !a.Evict?
    ensures HoldsNewest(Apply(cfg, s, a))
  {
    match a
    case ReadRing => ReadRingReachesNewest(cfg, s);
    case ReadRingAgain => FloorIsClamped(s.conn.value.phase.high, Ring(s), s.conn.value.cursor.value);
    case _ =>
  }

  lemma {:induction false} InvAlways4(cfg: Config, s: State, actions: seq<Action>)
    requires Inv4(s) && IsRun(cfg, s, actions) && Sound(cfg) && Undisturbed(actions)
    ensures Inv4(After(cfg, s, actions))
    decreases |actions|
  {
    if actions != [] {
      StepKeepsInv3(cfg, s, actions[0]);
      StepKeepsNewest(cfg, s, actions[0]);
      assert Undisturbed(actions[1..]);
      InvAlways4(cfg, Apply(cfg, s, actions[0]), actions[1..]);
    }
  }

  /**
   Whatever the interleaving of production, flushes, sweeps and the viewer's
   reads, a stream resumed from a numbered cursor that carried no gap notice has
   delivered exactly cursor + 1, cursor + 2, ... once each and in order.
   */
  lemma ResumeIsContiguous(cfg: Config, actions: seq<Action>)
    requires IsRun(cfg, START, actions) && Sound(cfg) && Undisturbed(actions)
    requires var s := After(cfg, START, actions);
             s.conn.Some? && Base(s.conn.value).Some? && Gap !in s.out
    ensures var s := After(cfg, START, actions);
            Exactly(s.conn.value.cursor.value.afterSequence, s.out)
  {
    InvAlways4(cfg, START, actions);
    var s := After(cfg, START, actions);
    if Answering(s) {
      SilentChainIsExact(s.conn.value.cursor.value.afterSequence, s.out);
    }
  }

  // ---- Joining what several connections delivered ----

  lemma {:induction false} LastOfJoin(past: seq<Out>, out: seq<Out>)
    ensures LastShown(past + out) == Previous(LastShown(past), out)
    decreases |out|
  {
    if out == [] {
      assert past + out == past;
    } else {
      var init, o := out[..|out| - 1], out[|out| - 1];
      LastOfJoin(past, init);
      assert past + out == (past + init) + [o] && out == init + [o];
      Snoc(past + init, o);
      Snoc(init, o);
    }
  }

  lemma {:induction false} ChainsJoin(past: seq<Out>, out: seq<Out>)
    requires Chained(None, past) && Chained(LastShown(past), out)
    ensures Chained(None, past + out)
    decreases |out|
  {
    if out == [] {
      assert past + out == past;
    } else {
      var init, o := out[..|out| - 1], out[|out| - 1];
      ChainsJoin(past, init);
      LastOfJoin(past, init);
      assert past + out == (past + init) + [o];
      ChainSnoc(None, past + init, o);
    }
  }

  predicate Above(low: Option<nat>, out: seq<Out>) {
    low.Some? ==> forall i | 0 <= i < |out| && out[i].Shown? :: out[i].n > low.value
  }

  lemma {:induction false} RisesJoin(past: seq<Out>, out: seq<Out>)
    requires Rising(past) && Rising(out) && Above(LastShown(past), out)
    ensures Rising(past + out)
    decreases |out|
  {
    if out == [] {
      assert past + out == past;
    } else {
      var init, o := out[..|out| - 1], out[|out| - 1];
      RisesJoin(past, init);
      LastOfJoin(past, init);
      assert past + out == (past + init) + [o];
      Snoc(past + init, o);
    }
  }

  lemma {:induction false} Prefix(base: Option<nat>, out: seq<Out>, keep: nat)
    requires keep <= |out| && Chained(base, out) && Rising(out)
    ensures Chained(base, out[..keep]) && Rising(out[..keep])
    decreases |out|
  {
    if keep == |out| {
      assert out[..keep] == out;
    } else {
      Prefix(base, out[..|out| - 1], keep);
      assert out[..|out| - 1][..keep] == out[..keep];
    }
  }

  // ---- Reconnecting ----

  /** A client offers the last id it received; one that received none asks for no position or the window. */
  predicate Faithful(s: State, a: Action) {
    a.Connect? ==>
      match LastShown(s.past)
      case Some(n) => a.cursor == Some(Position(n, false))
      case None => a.cursor == None || a.cursor == Some(Position(0, true))
  }

  predicate FaithfulRun(cfg: Config, s: State, actions: seq<Action>)
    requires IsRun(cfg, s, actions)
    decreases |actions|
  {
    actions == [] || (Faithful(s, actions[0]) && FaithfulRun(cfg, Apply(cfg, s, actions[0]), actions[1..]))
  }

  predicate PastOk(s: State) {
    && Chained(None, s.past) && Rising(s.past)
    && (LastShown(s.past).Some? ==> LastShown(s.past).value <= s.produced)
    && (s.conn.Some? ==>
          && Base(s.conn.value) == LastShown(s.past)
          && (LastShown(s.past).Some? ==> LastShown(s.past).value <= s.conn.value.since))
  }

  /** A served window reaches what the run had produced at subscription. */
  predicate Reached(s: State) {
    s.conn.Some? ==> s.conn.value.upto >= s.conn.value.since
  }

  /** Everything received so far, the open connection included, is one rising chain. */
  lemma HistoryIsAChain(s: State, keep: nat)
    requires Inv3(s) && Reached(s) && PastOk(s) && keep <= |s.out|
    ensures Chained(None, s.past + s.out[..keep]) && Rising(s.past + s.out[..keep])
    ensures var last := LastShown(s.past + s.out[..keep]); last.Some? ==> last.value <= s.produced
  {
    var out := s.out[..keep];
    if s.conn.None? || Early(s.conn.value.phase) {
      assert out == [] && s.past + out == s.past;
    } else {
      var c := s.conn.value;
      Prefix(Base(c), s.out, keep);
      forall i | 0 <= i < |out| && out[i].Shown?
        ensures out[i].n <= s.produced && (LastShown(s.past).Some? ==> out[i].n > LastShown(s.past).value)
      {
        assert Fits(c, s.out[i].n);
        LastShownIsLargest(s.out, i);
      }
      ChainsJoin(s.past, out);
      RisesJoin(s.past, out);
      LastOfJoin(s.past, out);
      if LastShown(out).Some? {
        LastShownIsShown(out);
      }
    }
  }

  lemma StepKeepsPast(cfg: Config, s: State, a: Action)
    requires Inv3(s) && Reached(s) && PastOk(s) && Enabled(s, a) && Faithful(s, a)
    ensures PastOk(Apply(cfg, s, a))
  {
    if a.Disconnect? {
      HistoryIsAChain(s, a.keep);
    } else {
      OthersKeepPast(cfg, s, a);
    }
  }

  lemma OthersKeepPast(cfg: Config, s: State, a: Action)
    requires PastOk(s) && Enabled(s, a) && Faithful(s, a) && !a.Disconnect?
    ensures PastOk(Apply(cfg, s, a))
  {
  }

  /** A client that reconnects faithfully and is served, each time, a window that reaches its subscription. */
  predicate GoodRun(cfg: Config, s: State, actions: seq<Action>)
    requires IsRun(cfg, s, actions)
    decreases |actions|
  {
    Reached(s) && (actions == [] ||
      (Faithful(s, actions[0]) && !actions[0].Drop? && GoodRun(cfg, Apply(cfg, s, actions[0]), actions[1..])))
  }

  lemma {:induction false} PastAlways(cfg: Config, s: State, actions: seq<Action>)
    requires Inv3(s) && PastOk(s) && IsRun(cfg, s, actions) && GoodRun(cfg, s, actions)
    ensures var s' := After(cfg, s, actions); Inv3(s') && PastOk(s') && Reached(s')
    decreases |actions|
  {
    if actions != [] {
      StepKeepsInv3(cfg, s, actions[0]);
      StepKeepsPast(cfg, s, actions[0]);
      PastAlways(cfg, Apply(cfg, s, actions[0]), actions[1..]);
    }
  }

  /** With decodable rows and a ring that keeps the newest frame, every window reaches its subscription. */
  lemma {:induction false} SoundRunsAreGood(cfg: Config, s: State, actions: seq<Action>)
    requires Inv4(s) && IsRun(cfg, s, actions) && Sound(cfg) && Undisturbed(actions)
    requires FaithfulRun(cfg, s, actions)
    ensures GoodRun(cfg, s, actions)
    decreases |actions|
  {
    if actions != [] {
      StepKeepsInv3(cfg, s, actions[0]);
      StepKeepsNewest(cfg, s, actions[0]);
      assert Undisturbed(actions[1..]);
      SoundRunsAreGood(cfg, Apply(cfg, s, actions[0]), actions[1..]);
    }
  }

  lemma {:induction false} LastShownBefore(out: seq<Out>, i: nat)
    requires i < |out| && out[i].Shown? && forall k | i < k < |out| :: !out[k].Shown?
    ensures LastShown(out) == Some(out[i].n)
    decreases |out|
  {
    var last := |out| - 1;
    if i < last {
      LastShownBefore(out[..last], i);
    }
  }

  lemma {:induction false} ChainAt(base: Option<nat>, out: seq<Out>, j: nat)
    requires Chained(base, out) && j < |out| && out[j].Shown?
    ensures Continues(base, out[..j], out[j].n)
    decreases |out|
  {
    var last := |out| - 1;
    if j < last {
      ChainAt(base, out[..last], j);
      assert out[..last][..j] == out[..j];
    }
  }

  /** Of two numbers received one after the other, the second is the larger, and if any lies between, a gap notice did too. */
  predicate Follows(received: seq<Out>, i: int, j: int)
    requires 0 <= i < j < |received| && received[i].Shown? && received[j].Shown?
  {
    received[i].n < received[j].n && (received[j].n == received[i].n + 1 || received[j - 1] == Gap)
  }

  /**
   Over any number of reconnects that each offer the last id received and are
   served a window that reaches their subscription, whatever was cut off when,
   evicted or damaged, the concatenation of everything received rises strictly
   and every missing position falls right before a gap notice.
   */
  lemma ReconnectsLoseNothingSilently(cfg: Config, actions: seq<Action>, i: nat, j: nat)
    requires IsRun(cfg, START, actions) && GoodRun(cfg, START, actions)
    requires var s := After(cfg, START, actions);
             var received := s.past + s.out;
             && i < j < |received| && received[i].Shown? && received[j].Shown?
             && forall k | i < k < j :: !received[k].Shown?
    ensures var s := After(cfg, START, actions); Follows(s.past + s.out, i, j)
  {
    PastAlways(cfg, START, actions);
    var s := After(cfg, START, actions);
    HistoryIsAChain(s, |s.out|);
    assert s.out[..|s.out|] == s.out;
    var received := s.past + s.out;
    ChainAt(None, received, j);
    LastShownBefore(received[..j], i);
    RisingIsStrict(received, i, j);
  }
}
