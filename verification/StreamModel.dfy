/**
 One run's progress stream: a producer that numbers frames, a bounded ring and a
 table behind it, and a client that connects, is replayed to, goes live, is cut
 off and connects again.  Each step is one stretch without a suspension point,
 so every interleaving of production, flush and the viewer's reads is a run.
 */
module StreamModel {
  import opened Basics
  import opened Cursor
  import opened Replay

  /** `bad` are the numbers whose stored row no longer decodes. */
  datatype Config = Config(capacity: nat, window: nat, bad: set<nat>)

  /** What the client receives; a frame it is served under an id, or a notice. */
  datatype Out = Shown(n: nat) | Gap | Lost(count: nat)

  datatype Phase =
    | Attached
    | RowsRead(rows: set<nat>)
    | NothingAfter
    | HighRead(high: Option<Option<nat>>)
    | Serving(todo: seq<nat>)
    | Live

  /**
   `since` is what the run had produced at subscription; `from` to `upto` is the
   window served before going live, empty when `from` is above `upto`.
   */
  datatype Connection = Connection(
    cursor: Option<Position>, since: nat, queue: seq<nat>, mark: nat, missed: nat,
    from: nat, upto: nat, phase: Phase)

  /**
   The ring holds the numbers above `below`.  `out` is what the open connection
   has sent, `past` what the client received over the connections before it.
   */
  datatype State = State(
    produced: nat, below: nat, flushed: nat, batch: Option<set<nat>>, table: set<nat>,
    conn: Option<Connection>, past: seq<Out>, out: seq<Out>)

  const START := State(0, 0, 0, None, {}, None, [], [])

  datatype Action =
    | Produce
    | BeginFlush | CommitFlush | FailFlush
    | Sweep(rows: set<nat>)
    | Evict
    | Connect(cursor: Option<Position>)
    | ReadRows | ReadFails | ReadRing
    | ReadHigh | HighFails | ReadRingAgain
    | Serve | GoLive
    | Take | Beat
    | Drop(i: nat)
    | Disconnect(keep: nat)

  // ---- Producer, ring and table ----

  /** The numbers above `low` up to `high`. */
  function Interval(low: nat, high: nat): (r: set<nat>)
    ensures forall n :: n in r <==> low < n <= high
  {
    if high <= low then {} else Interval(low, high - 1) + {high}
  }

  function Ring(s: State): set<nat> {
    Interval(s.below, s.produced)
  }

  /** The newest `window` rows; a window of none trims nothing. */
  function Trimmed(table: set<nat>, window: nat): set<nat> {
    var ns := Ascending(table);
    if window == 0 || |ns| <= window then table
    else set n | n in table && n >= ns[|ns| - window]
  }

  function Unflushed(s: State): set<nat> {
    set n | n in Ring(s) && n > s.flushed
  }

  function DoProduce(cfg: Config, s: State): State {
    var n := s.produced + 1;
    var s1 := s.(produced := n, below := if n > cfg.capacity then Max(s.below, n - cfg.capacity) else s.below);
    if s.conn.None? then s1 else s1.(conn := Some(s.conn.value.(queue := s.conn.value.queue + [n])))
  }

  // ---- The viewer ----

  function Attach(cursor: Option<Position>, produced: nat): Connection {
    Connection(cursor, produced, [], 0, 0, produced + 1, produced, if cursor.None? then Live else Attached)
  }

  function Rows(cfg: Config, table: set<nat>, after: nat): set<nat> {
    set n | n in RowsAfter(table, after, cfg.window)
  }

  /** The numbers after the cursor that some read holds in a form that decodes. */
  function Retained(cfg: Config, rows: set<nat>, ring: set<nat>, after: nat): set<nat> {
    (rows - cfg.bad) + (set n | n in ring && n > after && n !in rows)
  }

  function Announced(s: State, c: Connection, a: Answer, todo: seq<nat>, from: nat, upto: nat): State {
    s.(conn := Some(c.(mark := a.floor, from := from, upto := upto, phase := Serving(todo))),
       out := if a.gap.Some? then s.out + [Gap] else s.out)
  }

  function DoReadRing(cfg: Config, s: State): State
    requires s.conn.Some? && s.conn.value.cursor.Some? && s.conn.value.phase.RowsRead?
  {
    var c := s.conn.value;
    var p := c.cursor.value;
    var ns := Ascending(Retained(cfg, c.phase.rows, Ring(s), p.afterSequence));
    if ns == [] then s.(conn := Some(c.(phase := NothingAfter)))
    else Announced(s, c, Classified(ns, p), ns[TailStart(ns)..], ns[TailStart(ns)], ns[|ns| - 1])
  }

  function DoReadRingAgain(s: State): State
    requires s.conn.Some? && s.conn.value.cursor.Some? && s.conn.value.phase.HighRead?
  {
    var c := s.conn.value;
    var a := ClassifiedEmpty(c.phase.high, Ring(s), c.cursor.value);
    var upto := if a.gap.Some? then c.since else a.floor;
    Announced(s, c, a, [], upto + 1, upto)
  }

  function DoServe(s: State): State
    requires s.conn.Some? && s.conn.value.phase.Serving? && s.conn.value.phase.todo != []
  {
    var c := s.conn.value;
    var n := c.phase.todo[0];
    s.(conn := Some(c.(mark := n, phase := Serving(c.phase.todo[1..]))), out := s.out + [Shown(n)])
  }

  /** The backpressure notice that leads every turn. */
  function Resynced(s: State): State
    requires s.conn.Some?
  {
    var c := s.conn.value;
    if c.missed == 0 then s
    else s.(conn := Some(c.(missed := 0)), out := s.out + [Lost(c.missed)])
  }

  function DoTake(s: State): State
    requires s.conn.Some? && s.conn.value.queue != []
  {
    var s1 := Resynced(s);
    var c := s1.conn.value;
    var n := c.queue[0];
    if n <= c.mark then s1.(conn := Some(c.(queue := c.queue[1..])))
    else s1.(conn := Some(c.(queue := c.queue[1..], mark := n)), out := s1.out + [Shown(n)])
  }

  function DoDrop(s: State, i: nat): State
    requires s.conn.Some? && i < |s.conn.value.queue|
  {
    var c := s.conn.value;
    s.(conn := Some(c.(queue := c.queue[..i] + c.queue[i + 1..], missed := c.missed + 1)))
  }

  predicate InPhase(s: State, a: Action) {
    s.conn.Some? &&
    var c := s.conn.value;
    match a
    case ReadRows => c.cursor.Some? && c.phase.Attached?
    case ReadFails => c.cursor.Some? && c.phase.Attached?
    case ReadRing => c.cursor.Some? && c.phase.RowsRead?
    case ReadHigh => c.cursor.Some? && c.phase.NothingAfter?
    case HighFails => c.cursor.Some? && c.phase.NothingAfter?
    case ReadRingAgain => c.cursor.Some? && c.phase.HighRead?
    case Serve => c.phase.Serving? && c.phase.todo != []
    case GoLive => c.phase.Serving? && c.phase.todo == []
    case Take => c.phase.Live? && c.queue != []
    case Beat => c.phase.Live?
    case Drop(i) => i < |c.queue|
    case Disconnect(keep) => keep <= |s.out|
    case _ => false
  }

  predicate Enabled(s: State, a: Action) {
    match a
    case Produce => true
    case BeginFlush => s.batch.None? && Unflushed(s) != {}
    case CommitFlush => s.batch.Some? && s.batch.value != {}
    case FailFlush => s.batch.Some?
    case Sweep(_) => true
    case Evict => true
    case Connect(_) => s.conn.None?
    case _ => InPhase(s, a)
  }

  function Moved(s: State, phase: Phase): State
    requires s.conn.Some?
  {
    s.(conn := Some(s.conn.value.(phase := phase)))
  }

  function Viewed(cfg: Config, s: State, a: Action): State
    requires InPhase(s, a)
  {
    var c := s.conn.value;
    match a
    case ReadRows => Moved(s, RowsRead(Rows(cfg, s.table, c.cursor.value.afterSequence)))
    case ReadFails => Announced(s, c, NOT_SERVED, [], c.since + 1, c.since)
    case ReadRing => DoReadRing(cfg, s)
    case ReadHigh => Moved(s, HighRead(Some(if s.table == {} then None else Some(Largest(s.table)))))
    case HighFails => Moved(s, HighRead(None))
    case ReadRingAgain => DoReadRingAgain(s)
    case Serve => DoServe(s)
    case GoLive => Moved(s, Live)
    case Take => DoTake(s)
    case Beat => Resynced(s)
    case Drop(i) => DoDrop(s, i)
    case Disconnect(keep) => s.(conn := None, past := s.past + s.out[..keep], out := [])
  }

  function Apply(cfg: Config, s: State, a: Action): State
    requires Enabled(s, a)
  {
    match a
    case Produce => DoProduce(cfg, s)
    case BeginFlush => s.(batch := Some(Unflushed(s)))
    case CommitFlush =>
      s.(table := Trimmed(s.table + s.batch.value, cfg.window), flushed := Largest(s.batch.value), batch := None)
    case FailFlush => s.(batch := None)
    case Sweep(rows) => s.(table := s.table - rows)
    case Evict => s.(below := s.produced, flushed := 0)
    case Connect(cursor) => s.(conn := Some(Attach(cursor, s.produced)))
    case _ => Viewed(cfg, s, a)
  }

  predicate IsRun(cfg: Config, s: State, actions: seq<Action>)
    decreases |actions|
  {
    actions == [] || (Enabled(s, actions[0]) && IsRun(cfg, Apply(cfg, s, actions[0]), actions[1..]))
  }

  function After(cfg: Config, s: State, actions: seq<Action>): State
    requires IsRun(cfg, s, actions)
    decreases |actions|
  {
    if actions == [] then s else After(cfg, Apply(cfg, s, actions[0]), actions[1..])
  }
}
