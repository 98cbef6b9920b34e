/** The silent handover decided where the ring is read: what the store must hold there for nothing to be missed. */
module StreamHandover {
  import opened Replay
  import opened StreamModel
  import opened StreamSafety
  import opened StreamResume

  /** At the ring read: the cursor is at or past the subscription's position, or a number from there on is retained. */
  ghost predicate Held(cfg: Config, s: State)
    requires InPhase(s, ReadRing)
  {
    var c := s.conn.value;
    var after := c.cursor.value.afterSequence;
    after >= c.since || exists n: nat | n >= c.since :: n in Retained(cfg, c.phase.rows, Ring(s), after)
  }

  // ---- One connection after its ring read ----

  predicate Empty(phase: Phase) {
    phase.NothingAfter? || phase.HighRead?
  }

  /** What the ring read decided stays decided; an empty read leaves it to the cursor. */
  predicate Decided(c0: Connection, held: bool, s: State)
    requires Base(c0).Some?
  {
    && s.conn.Some? && s.conn.value.cursor == c0.cursor && s.conn.value.since == c0.since
    && var c := s.conn.value;
       && !c.phase.Attached? && !c.phase.RowsRead?
       && (Empty(c.phase) ==> (held <==> c0.cursor.value.afterSequence >= c0.since))
       && (!Empty(c.phase) && Gap !in s.out ==> (held <==> c.upto >= c.since))
  }

  /** With nothing retained it is up to the cursor, else to the newest number retained. */
  lemma HeldByTheNewest(cfg: Config, s: State)
    requires Inv(s) && InPhase(s, ReadRing)
    ensures var ns := Frames(cfg, s);
            var c := s.conn.value;
            Held(cfg, s) <==> if ns == [] then c.cursor.value.afterSequence >= c.since else ns[|ns| - 1] >= c.since
  {
    var c, ns := s.conn.value, Frames(cfg, s);
    var retained := Retained(cfg, c.phase.rows, Ring(s), c.cursor.value.afterSequence);
    FramesLie(cfg, s);
    assert forall n: nat :: n in retained <==> n in ns;
    if ns != [] {
      assert ns[|ns| - 1] in ns;
    }
  }

  lemma ReadDecides(cfg: Config, s: State)
    requires Inv(s) && InPhase(s, ReadRing) && Base(s.conn.value).Some?
    ensures Decided(s.conn.value, Held(cfg, s), DoReadRing(cfg, s))
  {
    HeldByTheNewest(cfg, s);
  }

  lemma StepKeepsDecided(cfg: Config, s: State, a: Action, c0: Connection, held: bool)
    requires Base(c0).Some? && Decided(c0, held, s) && Enabled(s, a) && !a.Disconnect?
    ensures Decided(c0, held, Apply(cfg, s, a))
  {
    if a.ReadRingAgain? {
      AgainDecides(s, c0, held);
    } else {
      assert Gap in s.out ==> Gap in Apply(cfg, s, a).out;
    }
  }

  lemma AgainDecides(s: State, c0: Connection, held: bool)
    requires Base(c0).Some? && Decided(c0, held, s) && InPhase(s, ReadRingAgain)
    ensures Decided(c0, held, DoReadRingAgain(s))
  {
    var c := s.conn.value;
    FloorIsClamped(c.phase.high, Ring(s), c.cursor.value);
    assert ClassifiedEmpty(c.phase.high, Ring(s), c.cursor.value).gap.Some? ==>
        (s.out + [Gap])[|s.out|] in DoReadRingAgain(s).out;
  }

  predicate NoDisconnect(actions: seq<Action>) {
    forall i | 0 <= i < |actions| :: !actions[i].Disconnect?
  }

  lemma {:induction false} DecidedAlways(cfg: Config, s: State, actions: seq<Action>, c0: Connection, held: bool)
    requires Base(c0).Some? && Decided(c0, held, s) && IsRun(cfg, s, actions) && NoDisconnect(actions)
    ensures Decided(c0, held, After(cfg, s, actions))
    decreases |actions|
  {
    if actions != [] {
      StepKeepsDecided(cfg, s, actions[0], c0, held);
      assert NoDisconnect(actions[1..]);
      DecidedAlways(cfg, Apply(cfg, s, actions[0]), actions[1..], c0, held);
    }
  }

  // ---- Finding the ring read ----

  /** A run cut at the ring read of its last connection. */
  datatype Cut = Cut(before: seq<Action>, later: seq<Action>)

  function Whole(cut: Cut): seq<Action> {
    cut.before + [ReadRing] + cut.later
  }

  predicate IsRead(cfg: Config, cut: Cut) {
    IsRun(cfg, START, cut.before) && InPhase(After(cfg, START, cut.before), ReadRing) && NoDisconnect(cut.later)
  }

  predicate PastRing(s: State) {
    && s.conn.Some? && s.conn.value.cursor.Some? && Gap !in s.out
    && !s.conn.value.phase.Attached? && !s.conn.value.phase.RowsRead?
  }

  /** Only the ring read leads past the ring read without a notice. */
  lemma OnlyTheReadLeads(cfg: Config, s: State, a: Action)
    requires Enabled(s, a) && PastRing(Apply(cfg, s, a)) && !a.ReadRing?
    ensures PastRing(s) && !a.Disconnect?
  {
  }

  lemma {:induction false} RunSplits(cfg: Config, s: State, before: seq<Action>, rest: seq<Action>)
    requires IsRun(cfg, s, before + rest)
    ensures IsRun(cfg, s, before) && IsRun(cfg, After(cfg, s, before), rest)
    ensures After(cfg, s, before + rest) == After(cfg, After(cfg, s, before), rest)
    decreases |before|
  {
    if before == [] {
      assert before + rest == rest;
    } else {
      assert (before + rest)[1..] == before[1..] + rest;
      RunSplits(cfg, Apply(cfg, s, before[0]), before[1..], rest);
    }
  }

  lemma LastStep(cfg: Config, actions: seq<Action>) returns (init: seq<Action>, a: Action)
    requires IsRun(cfg, START, actions) && actions != []
    ensures actions == init + [a] && IsRun(cfg, START, init) && Enabled(After(cfg, START, init), a)
    ensures After(cfg, START, actions) == Apply(cfg, After(cfg, START, init), a)
  {
    init, a := actions[..|actions| - 1], actions[|actions| - 1];
    assert actions == init + [a];
    RunSplits(cfg, START, init, [a]);
    assert [a][1..] == [];
  }

  lemma {:induction false} FindRead(cfg: Config, actions: seq<Action>) returns (cut: Cut)
    requires IsRun(cfg, START, actions) && PastRing(After(cfg, START, actions))
    ensures Whole(cut) == actions && IsRead(cfg, cut)
    decreases |actions|
  {
    var init, a := LastStep(cfg, actions);
    if a.ReadRing? {
      cut := Cut(init, []);
    } else {
      OnlyTheReadLeads(cfg, After(cfg, START, init), a);
      var shorter := FindRead(cfg, init);
      cut := shorter.(later := shorter.later + [a]);
    }
  }

  lemma CutRuns(cfg: Config, cut: Cut)
    requires IsRun(cfg, START, Whole(cut)) && IsRead(cfg, cut)
    ensures var s := DoReadRing(cfg, After(cfg, START, cut.before));
            IsRun(cfg, s, cut.later) && After(cfg, START, Whole(cut)) == After(cfg, s, cut.later)
  {
    assert Whole(cut) == cut.before + ([ReadRing] + cut.later);
    RunSplits(cfg, START, cut.before, [ReadRing] + cut.later);
    assert ([ReadRing] + cut.later)[1..] == cut.later;
  }

  // ---- Main result ----

  /** The window of a silent answer reached the subscription exactly when the store held enough at the ring read. */
  lemma WindowReachesExactlyWhenHeld(cfg: Config, cut: Cut)
    requires IsRun(cfg, START, Whole(cut)) && IsRead(cfg, cut)
    requires var s := After(cfg, START, Whole(cut)); Answering(s) && Base(s.conn.value).Some? && Gap !in s.out
    ensures var c := After(cfg, START, Whole(cut)).conn.value;
            c.upto >= c.since <==> Held(cfg, After(cfg, START, cut.before))
  {
    var s0 := After(cfg, START, cut.before);
    InvAlways(cfg, START, cut.before);
    CutRuns(cfg, cut);
    SameCursor(cfg, DoReadRing(cfg, s0), cut.later);
    ReadDecides(cfg, s0);
    DecidedAlways(cfg, DoReadRing(cfg, s0), cut.later, s0.conn.value, Held(cfg, s0));
  }

  lemma {:induction false} SameCursor(cfg: Config, s: State, actions: seq<Action>)
    requires s.conn.Some? && IsRun(cfg, s, actions) && NoDisconnect(actions)
    ensures var s' := After(cfg, s, actions); s'.conn.Some? && s'.conn.value.cursor == s.conn.value.cursor
    decreases |actions|
  {
    if actions != [] {
      assert NoDisconnect(actions[1..]);
      SameCursor(cfg, Apply(cfg, s, actions[0]), actions[1..]);
    }
  }

  /**
   In every run without a backpressure drop, a resumed stream that has shown a
   frame produced since it subscribed and carried no gap notice has read the
   ring, and it is exactly cursor + 1, cursor + 2, ... if and only if at that
   read the cursor was at or past the position of the subscription, or the rows
   read and the ring held a number from that position on in a form that decodes.
   */
  lemma HandoverIsWholeExactlyWhenHeld(cfg: Config, actions: seq<Action>)
    requires IsRun(cfg, START, actions) && NoDrop(actions)
    requires var s := After(cfg, START, actions);
             && Answering(s) && Base(s.conn.value).Some? && Gap !in s.out
             && LastShown(s.out).Some? && LastShown(s.out).value > s.conn.value.since
    ensures exists cut :: Whole(cut) == actions && IsRead(cfg, cut)
    ensures forall cut | Whole(cut) == actions && IsRead(cfg, cut) ::
              var s := After(cfg, START, actions);
              Exactly(s.conn.value.cursor.value.afterSequence, s.out) <==> Held(cfg, After(cfg, START, cut.before))
  {
    HandoverIsWholeExactlyWhen(cfg, actions);
    var cut := FindRead(cfg, actions);
    forall cut | Whole(cut) == actions && IsRead(cfg, cut)
      ensures var s := After(cfg, START, actions);
              Exactly(s.conn.value.cursor.value.afterSequence, s.out) <==> Held(cfg, After(cfg, START, cut.before))
    {
      WindowReachesExactlyWhenHeld(cfg, cut);
    }
  }
}
