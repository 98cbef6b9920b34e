/** The state machine and the stream body say the same: what a connection shows is its script, read frame by frame. */
module StreamRefines {
  import opened Basics
  import opened Cursor
  import opened Replay
  import opened StreamModel
  import StreamSafety
  import T = ThreadStream

  // ---- A body as the client's numbered frames and notices ----

  function Told(b: T.Body): seq<Out> {
    match b
    case ReplayGap(_, _) => [Gap]
    case Replayed(frame) => [Shown(frame.sequence)]
    case Backpressure(dropped) => [Lost(dropped)]
    case Relayed(_, sequence) => if sequence.Some? then [Shown(sequence.value)] else []
    case _ => []
  }

  function Outs(bodies: seq<T.Body>): seq<Out> {
    if bodies == [] then [] else Told(bodies[0]) + Outs(bodies[1..])
  }

  lemma {:induction false} OutsJoin(a: seq<T.Body>, b: seq<T.Body>)
    ensures Outs(a + b) == Outs(a) + Outs(b)
    decreases |a|
  {
    if a == [] {
      assert a + b == b;
    } else {
      OutsJoin(a[1..], b);
      assert (a + b)[1..] == a[1..] + b;
    }
  }

  lemma OutsOne(b: T.Body)
    ensures Outs([b]) == Told(b)
  {
    assert Outs([b]) == Told(b) + Outs([]);
  }

  // ---- Live turns ----

  predicate IsTurn(a: Action) {
    a.Take? || a.Beat?
  }

  /** The turn the live loop makes of the step: its drops, and the queued frame or an idle beat with any read. */
  predicate TurnFits(c: Connection, a: Action, turn: T.Turn) {
    && turn.dropped == c.missed
    && if a.Take? then c.queue != [] && turn.Arrival? && turn.item.Payload?
                       && T.RetainedSequence(turn.item) == Some(c.queue[0])
       else turn.Beat?
  }

  lemma NoticeIsLost(dropped: nat)
    ensures Outs(T.Notice(dropped)) == if dropped == 0 then [] else [Lost(dropped)]
  {
    OutsOne(T.Backpressure(dropped));
  }

  /** Idle beats show nothing, terminals read from the durable state included. */
  lemma BeatShowsNothing(turn: T.Turn, mark: nat)
    requires turn.Beat?
    ensures Outs(T.TurnScript(turn, mark)) == []
  {
    var said := T.TurnScript(turn, mark);
    if turn.settled.Found? && T.Ended(turn.settled.state) {
      var terminal := said[|said| - 1];
      OutsJoin(said[..|said| - 1], [terminal]);
      OutsOne(terminal);
      assert said == said[..|said| - 1] + [terminal];
      if |said| == 2 {
        assert said[..1] == [said[0]];
        OutsOne(said[0]);
      }
    } else {
      OutsOne(T.Heartbeat);
    }
  }

  lemma ArrivalShows(turn: T.Turn, mark: nat, n: nat)
    requires turn.Arrival? && turn.item.Payload? && T.RetainedSequence(turn.item) == Some(n)
    ensures Outs(T.TurnScript(turn, mark)) == if n <= mark then [] else [Shown(n)]
    ensures T.NextMark(turn, mark) == if n <= mark then mark else n
  {
    OutsOne(T.Relayed(turn.item.kind, Some(n)));
  }

  /** One turn: the machine's step shows what the turn says and leaves the mark the turn leaves. */
  lemma TurnsAgree(cfg: Config, s: State, a: Action, turn: T.Turn)
    requires InPhase(s, a) && IsTurn(a) && TurnFits(s.conn.value, a, turn)
    ensures var s' := Viewed(cfg, s, a);
            var mark := s.conn.value.mark;
            && s'.conn.Some? && s'.conn.value.phase.Live?
            && s'.conn.value.mark == T.NextMark(turn, mark) && s'.out == s.out + Outs(T.Said(turn, mark))
  {
    var c := s.conn.value;
    OutsJoin(T.Notice(turn.dropped), T.TurnScript(turn, c.mark));
    NoticeIsLost(c.missed);
    if a.Take? {
      ArrivalShows(turn, c.mark, c.queue[0]);
    } else {
      BeatShowsNothing(turn, c.mark);
    }
  }

  lemma OthersSayNothing(cfg: Config, s: State, a: Action)
    requires Enabled(s, a) && !IsTurn(a) && !a.Disconnect? && s.conn.Some? && s.conn.value.phase.Live?
    ensures var s' := Apply(cfg, s, a);
            && s'.conn.Some? && s'.conn.value.phase.Live?
            && s'.conn.value.mark == s.conn.value.mark && s'.out == s.out
  {
  }

  /** The step is the next turn, which ends the stream only if it is the last, or it is none. */
  predicate TakesNext(s: State, a: Action, turns: seq<T.Turn>, i: nat) {
    && Enabled(s, a) && !a.Disconnect?
    && (IsTurn(a) ==>
          && i < |turns| && TurnFits(s.conn.value, a, turns[i])
          && (T.Stops(turns[i], s.conn.value.mark) ==> i + 1 == |turns|))
  }

  function Turned(a: Action, i: nat): nat {
    if IsTurn(a) then i + 1 else i
  }

  /** A live stretch of one connection whose turns are `turns` from index `i` on. */
  predicate Takes(cfg: Config, s: State, actions: seq<Action>, turns: seq<T.Turn>, i: nat)
    decreases |actions|
  {
    if actions == [] then i == |turns|
    else TakesNext(s, actions[0], turns, i)
         && Takes(cfg, Apply(cfg, s, actions[0]), actions[1..], turns, Turned(actions[0], i))
  }

  predicate IsLive(s: State) {
    s.conn.Some? && s.conn.value.phase.Live?
  }

  lemma LiveScriptStep(turns: seq<T.Turn>, i: nat, mark: nat)
    requires i < |turns| && (T.Stops(turns[i], mark) ==> i + 1 == |turns|)
    ensures Outs(T.LiveScript(turns, i, mark))
         == Outs(T.Said(turns[i], mark)) + Outs(T.LiveScript(turns, i + 1, T.NextMark(turns[i], mark)))
  {
    OutsJoin(T.Said(turns[i], mark), T.AfterTurn(turns, i, mark));
  }

  /** What was shown and what is still to be said stays the same together. */
  lemma LiveStep(cfg: Config, s: State, a: Action, turns: seq<T.Turn>, i: nat)
    requires IsLive(s) && i <= |turns| && TakesNext(s, a, turns, i)
    ensures var s' := Apply(cfg, s, a);
            && IsLive(s') && Turned(a, i) <= |turns|
            && s'.out + Outs(T.LiveScript(turns, Turned(a, i), s'.conn.value.mark))
               == s.out + Outs(T.LiveScript(turns, i, s.conn.value.mark))
  {
    if IsTurn(a) {
      TurnStep(cfg, s, a, turns, i);
    } else {
      OthersSayNothing(cfg, s, a);
    }
  }

  lemma TurnStep(cfg: Config, s: State, a: Action, turns: seq<T.Turn>, i: nat)
    requires InPhase(s, a) && IsTurn(a) && i < |turns| && TakesNext(s, a, turns, i)
    ensures var s' := Viewed(cfg, s, a);
            && IsLive(s')
            && s'.out + Outs(T.LiveScript(turns, i + 1, s'.conn.value.mark))
               == s.out + Outs(T.LiveScript(turns, i, s.conn.value.mark))
  {
    var mark := s.conn.value.mark;
    var rest := T.LiveScript(turns, i + 1, T.NextMark(turns[i], mark));
    TurnsAgree(cfg, s, a, turns[i]);
    LiveScriptStep(turns, i, mark);
    Regroup(s.out, Outs(T.Said(turns[i], mark)), Outs(rest));
  }

  lemma Regroup(a: seq<Out>, b: seq<Out>, c: seq<Out>)
    ensures (a + b) + c == a + (b + c)
  {
  }

  lemma {:induction false} LiveStretch(cfg: Config, s: State, actions: seq<Action>, turns: seq<T.Turn>, i: nat)
    requires IsLive(s) && i <= |turns| && Takes(cfg, s, actions, turns, i)
    ensures IsRun(cfg, s, actions)
    ensures After(cfg, s, actions).out == s.out + Outs(T.LiveScript(turns, i, s.conn.value.mark))
    decreases |actions|
  {
    if actions != [] {
      LiveStep(cfg, s, actions[0], turns, i);
      LiveStretch(cfg, Apply(cfg, s, actions[0]), actions[1..], turns, Turned(actions[0], i));
    }
  }

  // ---- From the window to the live loop ----

  /** The step serves the next frame, no terminal, or none. */
  predicate ServesNext(s: State, a: Action, frames: seq<Frame>, i: nat) {
    Enabled(s, a) && !a.Disconnect? && (a.Serve? ==> i < |frames| && !T.EndsAt(frames, i))
  }

  function Served(a: Action, i: nat): nat {
    if a.Serve? then i + 1 else i
  }

  /** A stretch that serves the window from index `i` on, goes live and makes its turns. */
  predicate Follows(cfg: Config, s: State, actions: seq<Action>, frames: seq<Frame>, i: nat, turns: seq<T.Turn>)
    decreases |actions|
  {
    && actions != [] && ServesNext(s, actions[0], frames, i)
    && var s' := Apply(cfg, s, actions[0]);
       if actions[0].GoLive? then Takes(cfg, s', actions[1..], turns, 0)
       else Follows(cfg, s', actions[1..], frames, Served(actions[0], i), turns)
  }

  predicate Serves(s: State, frames: seq<Frame>, i: nat) {
    && i <= |frames| && s.conn.Some? && s.conn.value.phase.Serving?
    && s.conn.value.phase.todo == Numbers(frames)[i..]
  }

  lemma ServingGoesOn(cfg: Config, s: State, a: Action, frames: seq<Frame>, i: nat)
    requires Serves(s, frames, i) && Enabled(s, a) && !a.Disconnect? && !a.Serve? && !a.GoLive?
    ensures var s' := Apply(cfg, s, a);
            Serves(s', frames, i) && s'.out == s.out && s'.conn.value.mark == s.conn.value.mark
  {
  }

  lemma OneIsServed(cfg: Config, s: State, frames: seq<Frame>, i: nat)
    requires Serves(s, frames, i) && InPhase(s, Serve) && !T.EndsAt(frames, i)
    ensures var s' := Viewed(cfg, s, Serve);
            && Serves(s', frames, i + 1) && s'.conn.value.mark == frames[i].sequence
            && s'.out == s.out + Told(T.Replayed(frames[i]))
  {
  }

  /** All that is left to say from index `i` of the window on. */
  function Rest(frames: seq<Frame>, i: nat, turns: seq<T.Turn>, mark: nat): seq<T.Body>
    requires i <= |frames|
  {
    T.FramesFrom(frames, i) + T.LiveScript(turns, 0, T.MarkFrom(frames, i, mark))
  }

  lemma RestStep(frames: seq<Frame>, i: nat, turns: seq<T.Turn>, mark: nat)
    requires i < |frames| && !T.EndsAt(frames, i)
    ensures Outs(Rest(frames, i, turns, mark))
         == Told(T.Replayed(frames[i])) + Outs(Rest(frames, i + 1, turns, frames[i].sequence))
  {
    var rest := Rest(frames, i + 1, turns, frames[i].sequence);
    assert T.FramesFrom(frames, i) == [T.Replayed(frames[i])] + T.FramesFrom(frames, i + 1);
    assert T.MarkFrom(frames, i, mark) == T.MarkFrom(frames, i + 1, frames[i].sequence);
    assert Rest(frames, i, turns, mark) == [T.Replayed(frames[i])] + rest;
    OutsJoin([T.Replayed(frames[i])], rest);
    OutsOne(T.Replayed(frames[i]));
  }

  lemma ServedStep(cfg: Config, s: State, a: Action, frames: seq<Frame>, i: nat, turns: seq<T.Turn>)
    requires Serves(s, frames, i) && ServesNext(s, a, frames, i) && !a.GoLive?
    ensures var s' := Apply(cfg, s, a);
            && Serves(s', frames, Served(a, i))
            && s'.out + Outs(Rest(frames, Served(a, i), turns, s'.conn.value.mark))
               == s.out + Outs(Rest(frames, i, turns, s.conn.value.mark))
  {
    if a.Serve? {
      OneIsServed(cfg, s, frames, i);
      RestStep(frames, i, turns, s.conn.value.mark);
      Regroup(s.out, Told(T.Replayed(frames[i])), Outs(Rest(frames, i + 1, turns, frames[i].sequence)));
    } else {
      ServingGoesOn(cfg, s, a, frames, i);
    }
  }

  lemma {:induction false} ServedStretch(cfg: Config, s: State, actions: seq<Action>, frames: seq<Frame>, i: nat,
                                         turns: seq<T.Turn>)
    requires Serves(s, frames, i) && Follows(cfg, s, actions, frames, i, turns)
    ensures IsRun(cfg, s, actions) && !T.ClosesFrom(frames, i)
    ensures After(cfg, s, actions).out == s.out + Outs(Rest(frames, i, turns, s.conn.value.mark))
    decreases |actions|
  {
    var a := actions[0];
    if a.GoLive? {
      LiveStretch(cfg, Viewed(cfg, s, a), actions[1..], turns, 0);
      assert Rest(frames, i, turns, s.conn.value.mark) == T.LiveScript(turns, 0, s.conn.value.mark);
    } else {
      ServedStep(cfg, s, a, frames, i, turns);
      ServedStretch(cfg, Apply(cfg, s, a), actions[1..], frames, Served(a, i), turns);
    }
  }

  // ---- Main results ----

  predicate IsAnswer(w: Window, a: Answer) {
    Answer(w.gap, w.first, w.floor) == a
  }

  /** The window `Replay.ReplayWindow` gives for the reads the machine makes up to the step. */
  predicate Reads(cfg: Config, s: State, a: Action, w: Window) {
    && InPhase(s, a)
    && var c := s.conn.value;
       if a.ReadFails? then w.frames == [] && IsAnswer(w, NOT_SERVED)
       else if a.ReadRing? then
         var ns := Ascending(Retained(cfg, c.phase.rows, Ring(s), c.cursor.value.afterSequence));
         ns != [] && Numbers(w.frames) == ns[TailStart(ns)..] && IsAnswer(w, Classified(ns, c.cursor.value))
       else a.ReadRingAgain? && w.frames == [] && IsAnswer(w, ClassifiedEmpty(c.phase.high, Ring(s), c.cursor.value))
  }

  lemma WindowIsAnnounced(cfg: Config, s: State, a: Action, w: Window)
    requires StreamSafety.Inv(s) && Reads(cfg, s, a, w)
    ensures var s' := Viewed(cfg, s, a);
            Serves(s', w.frames, 0) && s'.conn.value.mark == w.floor && s'.out == Outs(T.GapScript(w))
  {
    GapIsTold(w);
    if a.ReadRing? {
      assert Viewed(cfg, s, a) == DoReadRing(cfg, s);
    } else if a.ReadRingAgain? {
      assert Viewed(cfg, s, a) == DoReadRingAgain(s);
    }
  }

  lemma GapIsTold(w: Window)
    ensures Outs(T.GapScript(w)) == if w.gap.Some? then [Gap] else []
  {
    if w.gap.Some? {
      OutsOne(T.ReplayGap(w.gap.value, w.first));
    }
  }

  /**
   In every run, a resumed connection that is served the window its reads give
   and then goes live shows exactly the numbered frames and notices of the body
   the stream serves for that window and those turns.
   */
  lemma ConnectionsShowTheirScript(cfg: Config, before: seq<Action>, a: Action, later: seq<Action>,
                                   world: T.World, resume: Position)
    requires IsRun(cfg, START, before) && Reads(cfg, After(cfg, START, before), a, world.window)
    requires Follows(cfg, Viewed(cfg, After(cfg, START, before), a), later, world.window.frames, 0, world.turns)
    requires world.subscribes && world.durable.Found? && !T.Ended(world.durable.state)
    ensures var s := Viewed(cfg, After(cfg, START, before), a);
            && IsRun(cfg, s, later)
            && After(cfg, s, later).out == Outs(T.ServeScript(world, Some(resume)))
  {
    var s := After(cfg, START, before);
    StreamSafety.InvAlways(cfg, START, before);
    WindowIsAnnounced(cfg, s, a, world.window);
    ServedStretch(cfg, Viewed(cfg, s, a), later, world.window.frames, 0, world.turns);
    ScriptShows(world, resume);
  }

  /** A snapshot shows nothing; then come the notice, the window and the turns. */
  lemma ScriptShows(world: T.World, resume: Position)
    requires world.subscribes && world.durable.Found? && !T.Ended(world.durable.state)
    requires !T.ClosesFrom(world.window.frames, 0)
    ensures var w := world.window;
            Outs(T.ServeScript(world, Some(resume)))
            == Outs(T.GapScript(w)) + Outs(Rest(w.frames, 0, world.turns, w.floor))
  {
    var w, d := world.window, world.durable.state;
    var rest := Rest(w.frames, 0, world.turns, w.floor);
    assert T.AfterSnapshot(world, d, Some(resume)) == T.GapScript(w) + rest;
    OutsJoin(T.GapScript(w), rest);
    OutsJoin([T.Snapshot(d.status)], T.AfterSnapshot(world, d, Some(resume)));
    OutsOne(T.Snapshot(d.status));
  }

  /** So does a connection without a cursor. */
  lemma FreshConnectionsShowTheirScript(cfg: Config, s: State, later: seq<Action>, world: T.World)
    requires s.conn == Some(Attach(None, s.produced)) && s.out == [] && Takes(cfg, s, later, world.turns, 0)
    requires world.subscribes && world.durable.Found? && !T.Ended(world.durable.state)
    ensures IsRun(cfg, s, later) && After(cfg, s, later).out == Outs(T.ServeScript(world, None))
  {
    var d := world.durable.state;
    LiveStretch(cfg, s, later, world.turns, 0);
    OutsJoin([T.Snapshot(d.status)], T.AfterSnapshot(world, d, None));
    OutsOne(T.Snapshot(d.status));
  }
}
