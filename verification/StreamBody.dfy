/** The shape of every stream body: what may follow what, and that nothing follows an end. */
module StreamBody {
  import opened Basics
  import opened Cursor
  import Replay
  import opened ThreadStream

  datatype Stage = Begun | Opened | Replaying | Living | Failing | Over

  /** The stage a frame leads to, or None where it may not stand. */
  function Next(stage: Stage, b: Body): Option<Stage> {
    match b
    case Rejected(_) => if stage.Begun? then Some(Over) else None
    case Snapshot(_) => if stage.Begun? then Some(Opened) else None
    case ReplayGap(_, _) => if stage.Opened? then Some(Replaying) else None
    case Replayed(_) =>
      if stage.Opened? || stage.Replaying? then Some(if IsTerminal(b) then Over else Replaying) else None
    case DurableError(_, _) => if Running(stage) then Some(Failing) else None
    case DurableTerminal(_, _) => if Running(stage) || stage.Failing? then Some(Over) else None
    case _ => if Running(stage) then Some(if IsTerminal(b) then Over else Living) else None
  }

  predicate Running(stage: Stage) {
    stage.Opened? || stage.Replaying? || stage.Living?
  }

  function Walk(stage: Stage, bodies: seq<Body>): Option<Stage>
    decreases |bodies|
  {
    if bodies == [] then Some(stage)
    else match Next(stage, bodies[0])
         case None => None
         case Some(next) => Walk(next, bodies[1..])
  }

  predicate WellFormed(body: seq<Body>) {
    Walk(Begun, body).Some?
  }

  lemma {:induction false} WalkJoins(stage: Stage, a: seq<Body>, b: seq<Body>)
    ensures Walk(stage, a + b) == if Walk(stage, a).Some? then Walk(Walk(stage, a).value, b) else None
    decreases |a|
  {
    if a == [] {
      assert a + b == b;
    } else {
      assert (a + b)[1..] == a[1..] + b;
      if Next(stage, a[0]).Some? {
        WalkJoins(Next(stage, a[0]).value, a[1..], b);
      }
    }
  }

  lemma ClippedIsWellFormed(body: seq<Body>, n: nat)
    requires WellFormed(body)
    ensures WellFormed(Clip(body, n))
  {
    if |body| > n {
      WalkJoins(Begun, body[..n], body[n..]);
      assert body[..n] + body[n..] == body;
    }
  }

  // ---- The parts of a script ----

  lemma TerminalWalks(stage: Stage, d: Durable)
    requires Running(stage)
    ensures Walk(stage, TerminalScript(d)) == Some(Over)
  {
    var last := DurableTerminal(d.status, d.failureReason);
    assert Walk(Over, []) == Some(Over);
    assert Walk(Failing, [last]) == Walk(Over, [last][1..]) && Walk(stage, [last]) == Walk(Over, [last][1..]);
    if TerminalScript(d) != [last] {
      assert TerminalScript(d)[1..] == [last];
    }
  }

  lemma {:induction false} FramesWalk(stage: Stage, frames: seq<Replay.Frame>, i: nat)
    requires i <= |frames| && (stage.Opened? || stage.Replaying?)
    ensures Walk(stage, FramesFrom(frames, i)).Some?
    ensures var after := Walk(stage, FramesFrom(frames, i)).value;
            if ClosesFrom(frames, i) then after.Over? else Running(after)
    decreases |frames| - i
  {
    if i < |frames| {
      assert FramesFrom(frames, i)[1..] == FramesAfter(frames, i);
      if !EndsAt(frames, i) {
        FramesWalk(Replaying, frames, i + 1);
      }
    }
  }

  lemma ReplayWalks(w: Replay.Window)
    ensures var after := Walk(Opened, ReplayScript(w));
            after.Some? && if ClosesFrom(w.frames, 0) then after == Some(Over) else Running(after.value)
  {
    WalkJoins(Opened, GapScript(w), FramesFrom(w.frames, 0));
    assert w.gap.Some? ==> GapScript(w)[1..] == [];
    FramesWalk(if w.gap.Some? then Replaying else Opened, w.frames, 0);
  }

  lemma TurnWalks(stage: Stage, turn: Turn, mark: nat)
    requires Running(stage)
    ensures var after := Walk(stage, TurnScript(turn, mark));
            after.Some? && (Stops(turn, mark) || Running(after.value))
  {
    if turn.Beat? && turn.settled.Found? && Ended(turn.settled.state) {
      TerminalWalks(stage, turn.settled.state);
    } else if TurnScript(turn, mark) != [] {
      assert TurnScript(turn, mark)[1..] == [];
    }
  }

  lemma {:induction false} LiveWalks(stage: Stage, turns: seq<Turn>, i: nat, mark: nat)
    requires i <= |turns| && Running(stage)
    ensures Walk(stage, LiveScript(turns, i, mark)).Some?
    decreases |turns| - i
  {
    if i < |turns| {
      var notice, said, rest := Notice(turns[i].dropped), TurnScript(turns[i], mark), AfterTurn(turns, i, mark);
      WalkJoins(stage, Said(turns[i], mark), rest);
      WalkJoins(stage, notice, said);
      assert notice != [] ==> notice[1..] == [];
      var told := if notice == [] then stage else Living;
      TurnWalks(told, turns[i], mark);
      if !Stops(turns[i], mark) {
        LiveWalks(Walk(told, said).value, turns, i + 1, NextMark(turns[i], mark));
      }
    }
  }

  lemma RestWalks(stage: Stage, world: World, d: Durable, mark: nat)
    requires Running(stage)
    ensures Walk(stage, AfterReplay(world, d, false, mark)).Some?
  {
    if Ended(d) {
      TerminalWalks(stage, d);
    } else {
      LiveWalks(stage, world.turns, 0, mark);
    }
  }

  lemma SnapshotWalks(world: World, d: Durable, resume: Option<Position>)
    ensures Walk(Opened, AfterSnapshot(world, d, resume)).Some?
  {
    var w := world.window;
    if resume.None? {
      RestWalks(Opened, world, d, 0);
    } else {
      var mark := MarkFrom(w.frames, 0, w.floor);
      WalkJoins(Opened, ReplayScript(w), AfterReplay(world, d, ClosesFrom(w.frames, 0), mark));
      ReplayWalks(w);
      if !ClosesFrom(w.frames, 0) {
        RestWalks(Walk(Opened, ReplayScript(w)).value, world, d, mark);
      }
    }
  }

  /**
   Whatever the reads return, whatever is queued and whenever the client leaves,
   the body it has been handed is well formed.
   */
  lemma EveryBodyIsWellFormed(world: World, run: string, cursor: Option<string>, attaches: bool, patience: nat)
    ensures WellFormed(Clip(Script(world, run, cursor, attaches), patience))
  {
    var script := Script(world, run, cursor, attaches);
    if |script| == 1 && script[0].Rejected? {
      assert script[1..] == [];
    } else if script != [] {
      var d := world.durable.state;
      var resume := if cursor.None? then None else ResumePosition(cursor.value, run);
      assert script[1..] == AfterSnapshot(world, d, resume);
      SnapshotWalks(world, d, resume);
    }
    ClippedIsWellFormed(script, patience);
  }

  // ---- What well formed means ----

  lemma WalkTo(body: seq<Body>, i: nat)
    requires WellFormed(body) && i < |body|
    ensures Walk(Begun, body[..i]).Some? && Next(Walk(Begun, body[..i]).value, body[i]).Some?
    ensures Walk(Next(Walk(Begun, body[..i]).value, body[i]).value, body[i + 1..]).Some?
  {
    WalkJoins(Begun, body[..i], body[i..]);
    assert body[..i] + body[i..] == body;
    assert body[i..][0] == body[i] && body[i..][1..] == body[i + 1..];
  }

  /** A rejection or a terminal is the last frame, so there is at most one of either and never both. */
  lemma NothingFollowsAnEnd(body: seq<Body>, i: nat)
    requires WellFormed(body) && i < |body| && (body[i].Rejected? || IsTerminal(body[i]))
    ensures i == |body| - 1
  {
    WalkTo(body, i);
    assert body[i + 1..] != [] ==> Next(Over, body[i + 1..][0]).None?;
  }

  lemma {:induction false} StageTells(body: seq<Body>)
    requires WellFormed(body) && body != []
    ensures var stage := Walk(Begun, body).value;
            && !stage.Begun?
            && (stage.Opened? ==> |body| == 1 && body[0].Snapshot?)
            && (stage.Replaying? ==> body[0].Snapshot? && forall k | 1 <= k < |body| :: body[k].ReplayGap? || body[k].Replayed?)
            && (!stage.Over? ==> body[0].Snapshot?)
    decreases |body|
  {
    var last := |body| - 1;
    WalkTo(body, last);
    assert body[last + 1..] == [];
    WalkJoins(Begun, body[..last], [body[last]]);
    assert body == body[..last] + [body[last]] && [body[last]][1..] == [];
    if last > 0 {
      StageTells(body[..last]);
    }
  }

  /** A rejection stands alone; every other body opens with its one snapshot. */
  lemma OpeningFrame(body: seq<Body>, i: nat)
    requires WellFormed(body) && i < |body|
    ensures body[i].Rejected? ==> |body| == 1
    ensures body[i].Snapshot? <==> i == 0 && !body[0].Rejected?
  {
    WalkTo(body, i);
    WalkTo(body, 0);
    if i > 0 {
      StageTells(body[..i]);
    }
    if body[i].Rejected? {
      NothingFollowsAnEnd(body, i);
    }
  }

  /** A replay gap notice, if any, is the second frame, and replayed frames come before everything live. */
  lemma ReplayComesFirst(body: seq<Body>, i: nat)
    requires WellFormed(body) && i < |body|
    ensures body[i].ReplayGap? ==> i == 1
    ensures body[i].Replayed? ==> forall k | 1 <= k < i :: body[k].ReplayGap? || body[k].Replayed?
  {
    WalkTo(body, i);
    if i > 0 {
      StageTells(body[..i]);
    }
  }

  // ---- Numbers ----

  predicate Numbered(b: Body) {
    b.Relayed? && b.sequence.Some?
  }

  /** Live frames that carry a number lie above the mark, whatever is queued. */
  lemma {:induction false} LiveNumbersAreAbove(turns: seq<Turn>, i: nat, mark: nat, k: nat)
    requires i <= |turns| && k < |LiveScript(turns, i, mark)| && Numbered(LiveScript(turns, i, mark)[k])
    ensures LiveScript(turns, i, mark)[k].sequence.value > mark
    decreases |turns| - i
  {
    var before := |Said(turns[i], mark)|;
    if k >= before {
      LiveNumbersAreAbove(turns, i + 1, NextMark(turns[i], mark), k - before);
    }
  }

  /** A turn that relays a number raises the mark to it, and relays nothing else. */
  lemma RelayedIsTheMark(turn: Turn, mark: nat, k: nat)
    requires k < |Said(turn, mark)| && Numbered(Said(turn, mark)[k])
    ensures Said(turn, mark)[k].sequence.value == NextMark(turn, mark) && k == |Said(turn, mark)| - 1
  {
  }

  /** A frame of the script is of its first turn or of the rest. */
  lemma ScriptAt(turns: seq<Turn>, i: nat, mark: nat, k: nat)
    requires i < |turns| && k < |LiveScript(turns, i, mark)|
    ensures var said := Said(turns[i], mark);
            if k < |said| then LiveScript(turns, i, mark)[k] == said[k]
            else
              var rest := LiveScript(turns, i + 1, NextMark(turns[i], mark));
              k - |said| < |rest| && LiveScript(turns, i, mark)[k] == rest[k - |said|]
  {
  }

  /** And they rise one after the other: no number is relayed twice or out of order. */
  lemma {:induction false} LiveNumbersRise(turns: seq<Turn>, i: nat, mark: nat, k: nat, l: nat)
    requires i <= |turns| && k < l < |LiveScript(turns, i, mark)|
    requires Numbered(LiveScript(turns, i, mark)[k]) && Numbered(LiveScript(turns, i, mark)[l])
    ensures LiveScript(turns, i, mark)[k].sequence.value < LiveScript(turns, i, mark)[l].sequence.value
    decreases |turns| - i
  {
    var said := Said(turns[i], mark);
    ScriptAt(turns, i, mark, k);
    ScriptAt(turns, i, mark, l);
    if k >= |said| {
      LiveNumbersRise(turns, i + 1, NextMark(turns[i], mark), k - |said|, l - |said|);
    } else {
      RelayedIsTheMark(turns[i], mark, k);
      LiveNumbersAreAbove(turns, i + 1, NextMark(turns[i], mark), l - |said|);
    }
  }
}
