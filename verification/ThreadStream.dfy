/**
 One viewer's attachment to a run, served as an ordered run of frames.

 Everything outside the stream arrives as a value: what the reads return, what
 each turn of the live loop finds, and how many frames the client stays for.
 */
module ThreadStream {
  import opened Basics
  import opened Cursor
  import Replay

  const TERMINAL_KIND := "thread_terminal"
  const TERMINAL_STATUSES := {"completed", "failed", "cancelled"}

  /** Empty strings stand for fields the row does not have. */
  datatype Durable = Durable(status: string, failureReason: string, condition: string)

  datatype Read = Raised | Missing | Found(state: Durable)

  /** A queued item; `numbered` is whether the run was numbered at that moment. */
  datatype Item = NotAFrame | Payload(kind: string, sequence: Option<int>, numbered: bool)

  /** One turn of the live loop, with the drops its notice covers. */
  datatype Turn = Beat(dropped: nat, settled: Read) | Arrival(dropped: nat, item: Item)

  datatype World = World(subscribes: bool, durable: Read, window: Replay.Window, turns: seq<Turn>)

  datatype Body =
    | Rejected(reason: string)
    | Snapshot(status: string)
    | ReplayGap(why: Replay.Reason, first: Option<nat>)
    | Replayed(frame: Replay.Frame)
    | Backpressure(dropped: nat)
    | Relayed(kind: string, sequence: Option<nat>)
    | Heartbeat
    | DurableError(code: string, message: string)
    | DurableTerminal(status: string, detail: string)

  predicate IsTerminal(b: Body) {
    match b
    case Replayed(frame) => frame.eventType == TERMINAL_KIND
    case Relayed(kind, _) => kind == TERMINAL_KIND
    case DurableTerminal(_, _) => true
    case _ => false
  }

  predicate Ended(d: Durable) {
    d.status in TERMINAL_STATUSES
  }

  // ---- What a stream says, as one value ----

  function TerminalScript(d: Durable): seq<Body> {
    (if d.status == "failed" && (d.failureReason != "" || d.condition != "") then
       [DurableError(if d.condition != "" then d.condition else "unknown",
                     if d.failureReason != "" then d.failureReason else "The run failed; no reason was recorded")]
     else [])
    + [DurableTerminal(d.status, d.failureReason)]
  }

  predicate EndsAt(frames: seq<Replay.Frame>, i: nat)
    requires i < |frames|
  {
    frames[i].eventType == TERMINAL_KIND
  }

  /** The retained frames from index `i` up to and including the first terminal. */
  function FramesFrom(frames: seq<Replay.Frame>, i: nat): seq<Body>
    requires i <= |frames|
    decreases |frames| - i
  {
    if i == |frames| then [] else [Replayed(frames[i])] + FramesAfter(frames, i)
  }

  function FramesAfter(frames: seq<Replay.Frame>, i: nat): seq<Body>
    requires i < |frames|
    decreases |frames| - i, 0
  {
    if EndsAt(frames, i) then [] else FramesFrom(frames, i + 1)
  }

  /** The mark once they have been shown. */
  function MarkFrom(frames: seq<Replay.Frame>, i: nat, mark: nat): nat
    requires i <= |frames|
    decreases |frames| - i
  {
    if i == |frames| then mark
    else if EndsAt(frames, i) then frames[i].sequence
    else MarkFrom(frames, i + 1, frames[i].sequence)
  }

  /** A terminal is among them. */
  predicate ClosesFrom(frames: seq<Replay.Frame>, i: nat)
    requires i <= |frames|
    decreases |frames| - i
  {
    i < |frames| && (EndsAt(frames, i) || ClosesFrom(frames, i + 1))
  }

  function GapScript(w: Replay.Window): seq<Body> {
    if w.gap.Some? then [ReplayGap(w.gap.value, w.first)] else []
  }

  function ReplayScript(w: Replay.Window): seq<Body> {
    GapScript(w) + FramesFrom(w.frames, 0)
  }

  function Notice(dropped: nat): seq<Body> {
    if dropped == 0 then [] else [Backpressure(dropped)]
  }

  /** The number of a queued frame, when the run is numbered and the frame carries one. */
  function RetainedSequence(item: Item): Option<nat>
    requires item.Payload?
  {
    if item.numbered && item.sequence.Some? && item.sequence.value > 0 then Some(item.sequence.value) else None
  }

  predicate Repeats(item: Item, mark: nat) {
    item.NotAFrame? || (RetainedSequence(item).Some? && RetainedSequence(item).value <= mark)
  }

  function MarkAfter(item: Item, mark: nat): nat {
    if item.Payload? && RetainedSequence(item).Some? then Max(mark, RetainedSequence(item).value) else mark
  }

  /** What one turn says after its notice. */
  function TurnScript(turn: Turn, mark: nat): seq<Body> {
    match turn
    case Beat(_, Raised) => []
    case Beat(_, Missing) => [Heartbeat]
    case Beat(_, Found(d)) => if Ended(d) then TerminalScript(d) else [Heartbeat]
    case Arrival(_, item) => if Repeats(item, mark) then [] else [Relayed(item.kind, RetainedSequence(item))]
  }

  predicate Stops(turn: Turn, mark: nat) {
    match turn
    case Beat(_, settled) => settled.Raised? || (settled.Found? && Ended(settled.state))
    case Arrival(_, item) => !Repeats(item, mark) && item.kind == TERMINAL_KIND
  }

  function NextMark(turn: Turn, mark: nat): nat {
    if turn.Arrival? then MarkAfter(turn.item, mark) else mark
  }

  /** All that one turn says. */
  function Said(turn: Turn, mark: nat): seq<Body> {
    Notice(turn.dropped) + TurnScript(turn, mark)
  }

  function LiveScript(turns: seq<Turn>, i: nat, mark: nat): seq<Body>
    requires i <= |turns|
    decreases |turns| - i
  {
    if i == |turns| then [] else Said(turns[i], mark) + AfterTurn(turns, i, mark)
  }

  function AfterTurn(turns: seq<Turn>, i: nat, mark: nat): seq<Body>
    requires i < |turns|
    decreases |turns| - i, 0
  {
    if Stops(turns[i], mark) then [] else LiveScript(turns, i + 1, NextMark(turns[i], mark))
  }

  function AfterReplay(world: World, d: Durable, closed: bool, mark: nat): seq<Body> {
    if closed then [] else if Ended(d) then TerminalScript(d) else LiveScript(world.turns, 0, mark)
  }

  function AfterSnapshot(world: World, d: Durable, resume: Option<Position>): seq<Body> {
    var w := world.window;
    if resume.None? then AfterReplay(world, d, false, 0)
    else ReplayScript(w) + AfterReplay(world, d, ClosesFrom(w.frames, 0), MarkFrom(w.frames, 0, w.floor))
  }

  function ServeScript(world: World, resume: Option<Position>): seq<Body> {
    if !world.subscribes then []
    else match world.durable
         case Raised => []
         case Missing => [Rejected("run_not_found")]
         case Found(d) => [Snapshot(d.status)] + AfterSnapshot(world, d, resume)
  }

  function Script(world: World, run: string, cursor: Option<string>, attaches: bool): seq<Body> {
    if cursor.Some? && ResumePosition(cursor.value, run).None? then [Rejected("resume_cursor_foreign_run")]
    else if !attaches then [Rejected("stream_limit_exceeded")]
    else ServeScript(world, if cursor.None? then None else ResumePosition(cursor.value, run))
  }

  // ---- The stream itself ----

  class RelayHub {
    const limit: nat
    var slots: set<string>

    constructor (limit: nat)
      ensures this.limit == limit && slots == {}
    {
      this.limit := limit;
      slots := {};
    }

    predicate HasRoom(client: string)
      reads this
    {
      limit == 0 || client in slots || |slots| < limit
    }

    method AddSubscriber(client: string) returns (ok: bool)
      modifies this`slots
      ensures ok == old(HasRoom(client))
      ensures slots == if ok then old(slots) + {client} else old(slots)
    {
      if limit > 0 && client !in slots && |slots| >= limit { return false; }
      slots := slots + {client};
      return true;
    }

    method RemoveSubscriber(client: string)
      modifies this`slots
      ensures slots == old(slots) - {client}
    {
      slots := slots - {client};
    }
  }

  /** What a client that stays for `n` frames has been handed. */
  function Clip(bodies: seq<Body>, n: nat): seq<Body> {
    if |bodies| <= n then bodies else bodies[..n]
  }

  lemma ClipAgain(out: seq<Body>, b: seq<Body>, c: seq<Body>, n: nat)
    requires |out| <= n
    ensures Clip(out + (b + c), n) == Clip(Clip(out + b, n) + c, n)
    ensures |out| + |b| > n ==> Clip(out + (b + c), n) == Clip(out + b, n)
  {
    assert out + (b + c) == (out + b) + c;
  }

  /** A turn that ends the stream, or outlasts the client, is the last; else the rest of the script follows it. */
  lemma TurnClips(out: seq<Body>, turns: seq<Turn>, i: nat, mark: nat, n: nat)
    requires i < |turns| && |out| <= n
    ensures var said := Said(turns[i], mark);
            var whole := Clip(out + LiveScript(turns, i, mark), n);
            if Stops(turns[i], mark) || |out| + |said| > n then whole == Clip(out + said, n)
            else whole == Clip(Clip(out + said, n) + LiveScript(turns, i + 1, NextMark(turns[i], mark)), n)
  {
    ClipAgain(out, Said(turns[i], mark), AfterTurn(turns, i, mark), n);
  }

  class Stream {
    const client: string
    const run: string
    const patience: nat
    var mark: nat
    var closed: bool
    var out: seq<Body>

    constructor (client: string, run: string, patience: nat)
      ensures this.client == client && this.run == run && this.patience == patience
      ensures mark == 0 && !closed && out == []
    {
      this.client, this.run, this.patience := client, run, patience;
      mark, closed, out := 0, false, [];
    }

    /** Hands over frames until the client is gone. */
    method Yield(bodies: seq<Body>) returns (stays: bool)
      requires |out| <= patience
      modifies this`out
      ensures out == Clip(old(out) + bodies, patience)
      ensures stays <==> |old(out)| + |bodies| <= patience
    {
      for i := 0 to |bodies|
        invariant |out| <= patience && out == old(out) + bodies[..i]
      {
        if |out| == patience {
          assert out == Clip(old(out) + bodies, patience);
          return false;
        }
        out := out + [bodies[i]];
      }
      return true;
    }

    method Replayed(w: Replay.Window) returns (stays: bool)
      requires |out| <= patience && !closed
      modifies this
      ensures out == Clip(old(out) + ReplayScript(w), patience)
      ensures stays ==> mark == MarkFrom(w.frames, 0, w.floor) && (closed <==> ClosesFrom(w.frames, 0))
      ensures !stays ==> |old(out)| + |ReplayScript(w)| > patience
    {
      mark := w.floor;
      ClipAgain(out, GapScript(w), FramesFrom(w.frames, 0), patience);
      stays := Yield(GapScript(w));
      if stays {
        stays := ReplayFrames(w.frames);
      }
    }

    method ReplayFrames(frames: seq<Replay.Frame>) returns (stays: bool)
      requires |out| <= patience && !closed
      modifies this
      ensures out == Clip(old(out) + FramesFrom(frames, 0), patience)
      ensures stays ==> mark == MarkFrom(frames, 0, old(mark)) && (closed <==> ClosesFrom(frames, 0))
      ensures !stays ==> |old(out)| + |FramesFrom(frames, 0)| > patience
    {
      for i := 0 to |frames|
        invariant !closed && |out| <= patience && ClosesFrom(frames, 0) == ClosesFrom(frames, i)
        invariant Clip(old(out) + FramesFrom(frames, 0), patience) == Clip(out + FramesFrom(frames, i), patience)
        invariant |old(out)| + |FramesFrom(frames, 0)| == |out| + |FramesFrom(frames, i)|
        invariant MarkFrom(frames, 0, old(mark)) == MarkFrom(frames, i, mark)
      {
        ClipAgain(out, [Body.Replayed(frames[i])], FramesAfter(frames, i), patience);
        stays := Yield([Body.Replayed(frames[i])]);
        if !stays { return; }
        mark := frames[i].sequence;
        if EndsAt(frames, i) {
          closed := true;
          return;
        }
      }
      stays := true;
    }

    /** One turn after its notice: an idle beat's read, or a queued item. */
    method TurnFrames(turn: Turn) returns (bodies: seq<Body>, raised: bool)
      requires !closed
      modifies this`mark, this`closed
      ensures bodies == TurnScript(turn, old(mark)) && mark == NextMark(turn, old(mark))
      ensures (closed || raised) <==> Stops(turn, old(mark))
    {
      raised := false;
      match turn
      case Beat(_, settled) =>
        if settled.Raised? { return [], true; }
        if settled.Found? && Ended(settled.state) {
          closed := true;
          return TerminalScript(settled.state), false;
        }
        return [Heartbeat], false;
      case Arrival(_, item) =>
        if item.NotAFrame? { return [], false; }
        var sequence := RetainedSequence(item);
        if sequence.Some? {
          if sequence.value <= mark { return [], false; }
          mark := sequence.value;
        }
        if item.kind == TERMINAL_KIND {
          closed := true;
        }
        return [Relayed(item.kind, sequence)], false;
    }

    /** A turn with its notice in front; it goes on unless the turn ends the stream or the client is gone. */
    method OneTurn(turn: Turn) returns (goesOn: bool)
      requires |out| <= patience && !closed
      modifies this
      ensures out == Clip(old(out) + Said(turn, old(mark)), patience)
      ensures goesOn ==> !closed && !Stops(turn, old(mark)) && mark == NextMark(turn, old(mark))
      ensures goesOn ==> |old(out)| + |Said(turn, old(mark))| <= patience
      ensures !goesOn ==> Stops(turn, old(mark)) || |old(out)| + |Said(turn, old(mark))| > patience
    {
      ClipAgain(out, Notice(turn.dropped), TurnScript(turn, mark), patience);
      var stays := Yield(Notice(turn.dropped));
      if !stays { return false; }
      var bodies, raised := TurnFrames(turn);
      stays := Yield(bodies);
      return stays && !raised && !closed;
    }

    method Live(turns: seq<Turn>)
      requires |out| <= patience && !closed
      modifies this
      ensures out == Clip(old(out) + LiveScript(turns, 0, old(mark)), patience)
    {
      ghost var whole := Clip(out + LiveScript(turns, 0, mark), patience);
      for i := 0 to |turns|
        invariant |out| <= patience && !closed
        invariant whole == Clip(out + LiveScript(turns, i, mark), patience)
      {
        TurnClips(out, turns, i, mark, patience);
        var goesOn := OneTurn(turns[i]);
        if !goesOn { return; }
      }
    }

    method Serve(world: World, resume: Option<Position>)
      requires out == [] && !closed && mark == 0
      modifies this
      ensures out == Clip(ServeScript(world, resume), patience)
    {
      if !world.subscribes || world.durable.Raised? { return; }
      if world.durable.Missing? {
        var _ := Yield([Rejected("run_not_found")]);
        return;
      }
      var d := world.durable.state;
      ClipAgain([], [Snapshot(d.status)], AfterSnapshot(world, d, resume), patience);
      assert [] + ServeScript(world, resume) == ServeScript(world, resume);
      var stays := Yield([Snapshot(d.status)]);
      if stays {
        Attached(world, d, resume);
      }
    }

    /** Everything after the snapshot. */
    method Attached(world: World, d: Durable, resume: Option<Position>)
      requires |out| <= patience && !closed && mark == 0
      modifies this
      ensures out == Clip(old(out) + AfterSnapshot(world, d, resume), patience)
    {
      if resume.Some? {
        var w := world.window;
        ClipAgain(out, ReplayScript(w),
                  AfterReplay(world, d, ClosesFrom(w.frames, 0), MarkFrom(w.frames, 0, w.floor)), patience);
        var stays := Replayed(world.window);
        if !stays { return; }
      }
      if closed { return; }
      if Ended(d) {
        var _ := Yield(TerminalScript(d));
        return;
      }
      Live(world.turns);
    }

    method Frames(hub: RelayHub, world: World, cursor: Option<string>)
      requires out == [] && !closed && mark == 0
      modifies this, hub`slots
      ensures out == Clip(Script(world, run, cursor, old(hub.HasRoom(client))), patience)
      ensures hub.slots == old(hub.slots) || hub.slots == old(hub.slots) + {client}
    {
      var resume := if cursor.None? then None else ResumePosition(cursor.value, run);
      if cursor.Some? && resume.None? {
        var _ := Yield([Rejected("resume_cursor_foreign_run")]);
        return;
      }
      var ok := hub.AddSubscriber(client);
      if !ok {
        var _ := Yield([Rejected("stream_limit_exceeded")]);
        return;
      }
      Serve(world, resume);
    }
  }

  /** Whatever happens in between, the slot is given back on the way out. */
  method StreamThreadEvents(hub: RelayHub, world: World, client: string, run: string, cursor: Option<string>,
                            patience: nat) returns (body: seq<Body>)
    requires client !in hub.slots
    modifies hub`slots
    ensures hub.slots == old(hub.slots)
    ensures body == Clip(Script(world, run, cursor, old(hub.HasRoom(client))), patience)
  {
    var stream := new Stream(client, run, patience);
    stream.Frames(hub, world, cursor);
    hub.RemoveSubscriber(client);
    return stream.out;
  }
}
