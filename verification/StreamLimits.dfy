/** Runs that show where contiguous, announced delivery stops without the hypotheses. */
module StreamLimits {
  import opened Basics
  import opened Cursor
  import opened Replay
  import opened StreamModel

  ghost predicate Reaches(cfg: Config, s: State) {
    exists actions :: IsRun(cfg, START, actions) && After(cfg, START, actions) == s
  }

  lemma {:induction false} RunExtends(cfg: Config, s: State, actions: seq<Action>, a: Action)
    requires IsRun(cfg, s, actions) && Enabled(After(cfg, s, actions), a)
    ensures IsRun(cfg, s, actions + [a])
    ensures After(cfg, s, actions + [a]) == Apply(cfg, After(cfg, s, actions), a)
    decreases |actions|
  {
    if actions == [] {
      assert actions + [a] == [a] && [a][1..] == [];
    } else {
      RunExtends(cfg, Apply(cfg, s, actions[0]), actions[1..], a);
      assert (actions + [a])[1..] == actions[1..] + [a];
    }
  }

  lemma Starts(cfg: Config) returns (s: State)
    ensures s == START && Reaches(cfg, s)
  {
    s := START;
    assert IsRun(cfg, START, []) && After(cfg, START, []) == START;
  }

  lemma Then(cfg: Config, s: State, a: Action) returns (s': State)
    requires Reaches(cfg, s) && Enabled(s, a)
    ensures s' == Apply(cfg, s, a) && Reaches(cfg, s')
  {
    s' := Apply(cfg, s, a);
    var actions :| IsRun(cfg, START, actions) && After(cfg, START, actions) == s;
    RunExtends(cfg, START, actions, a);
  }

  // ---- Steps whose result takes a lemma to compute ----

  lemma Flushed(cfg: Config, s: State, rows: set<nat>, newest: nat) returns (s': State)
    requires Reaches(cfg, s) && s.batch.None? && s.table == {} && Unflushed(s) == rows && |rows| <= cfg.window
    requires newest in rows && forall n | n in rows :: n <= newest
    ensures Reaches(cfg, s') && s' == s.(table := rows, flushed := newest)
  {
    var s1 := Then(cfg, s, BeginFlush);
    assert {} + rows == rows;
    s' := Then(cfg, s1, CommitFlush);
  }

  lemma RowsReadAs(cfg: Config, s: State, rows: set<nat>) returns (s': State)
    requires Reaches(cfg, s) && InPhase(s, ReadRows) && |rows| <= cfg.window
    requires forall n: nat :: n in rows <==> n in s.table && n > s.conn.value.cursor.value.afterSequence
    ensures Reaches(cfg, s') && s' == Moved(s, RowsRead(rows))
  {
    var after := s.conn.value.cursor.value.afterSequence;
    assert Newer(s.table, after) == rows;
    assert Rows(cfg, s.table, after) == rows;
    s' := Then(cfg, s, ReadRows);
  }

  lemma OneFrame(n: nat)
    ensures Ascending({n}) == [n] && TailStart([n]) == 0 && [n][0..] == [n]
  {
    AscendingIsUnique(Ascending({n}), [n]);
  }

  lemma ReadsOneFrame(cfg: Config, s: State, n: nat)
    requires InPhase(s, ReadRing)
    requires Retained(cfg, s.conn.value.phase.rows, Ring(s), s.conn.value.cursor.value.afterSequence) == {n}
    ensures DoReadRing(cfg, s) == Announced(s, s.conn.value, Classified([n], s.conn.value.cursor.value), [n], n, n)
  {
    OneFrame(n);
  }

  /** The reads leave a single frame. */
  lemma WindowOfOne(cfg: Config, s: State, n: nat) returns (s': State)
    requires Reaches(cfg, s) && InPhase(s, ReadRing)
    requires Retained(cfg, s.conn.value.phase.rows, Ring(s), s.conn.value.cursor.value.afterSequence) == {n}
    ensures Reaches(cfg, s')
    ensures s' == Announced(s, s.conn.value, Classified([n], s.conn.value.cursor.value), [n], n, n)
  {
    s' := Then(cfg, s, ReadRing);
    ReadsOneFrame(cfg, s, n);
  }

  const AFTER_ONE := Position(1, false)

  function Viewing(cursor: Position, since: nat, queue: seq<nat>, phase: Phase): Connection {
    Connection(Some(cursor), since, queue, 0, 0, since + 1, since, phase)
  }

  /** A viewer resumed after frame 1 with frame 3 the newest, about to be served frame 2 alone and no notice. */
  predicate ServingTwoOfThree(s: State) {
    s.produced == 3 && s.conn == Some(Connection(Some(AFTER_ONE), 3, [], 1, 0, 2, 2, Serving([2]))) && s.out == []
  }

  lemma TwoThenFour(cfg: Config, s: State) returns (s': State)
    requires Reaches(cfg, s) && ServingTwoOfThree(s)
    ensures Reaches(cfg, s') && s'.out == [Shown(2), Shown(4)]
  {
    s' := Then(cfg, s, Serve);
    s' := Then(cfg, s', Produce);
    s' := Then(cfg, s', GoLive);
    s' := Then(cfg, s', Take);
  }

  // ---- A run evicted from the writer's cache between the two reads ----

  const ROOMY := Config(8, 8, {})

  lemma TwoFlushed() returns (s: State)
    ensures Reaches(ROOMY, s) && s == State(2, 0, 2, None, {1, 2}, None, [], [])
  {
    s := Starts(ROOMY);
    s := Then(ROOMY, s, Produce);
    s := Then(ROOMY, s, Produce);
    assert Unflushed(s) == {1, 2};
    s := Flushed(ROOMY, s, {1, 2}, 2);
  }

  lemma RowTwoRead() returns (s: State)
    ensures Reaches(ROOMY, s)
    ensures s == State(3, 0, 2, None, {1, 2}, Some(Viewing(AFTER_ONE, 3, [], RowsRead({2}))), [], [])
  {
    s := TwoFlushed();
    s := Then(ROOMY, s, Produce);
    s := Then(ROOMY, s, Connect(Some(AFTER_ONE)));
    s := RowsReadAs(ROOMY, s, {2});
  }

  /** Frame 3 is skipped without a notice: it was in the ring when the viewer subscribed, and gone when it looked. */
  lemma EvictionBetweenTheReadsLosesSilently()
    ensures exists s :: Reaches(ROOMY, s) && s.out == [Shown(2), Shown(4)]
  {
    var s := RowTwoRead();
    s := Then(ROOMY, s, Evict);
    assert Retained(ROOMY, {2}, Ring(s), 1) == {2};
    s := WindowOfOne(ROOMY, s, 2);
    s := TwoThenFour(ROOMY, s);
  }

  // ---- The newest row no longer decodes ----

  const DAMAGED := Config(8, 8, {3})

  lemma ThreeFlushed() returns (s: State)
    ensures Reaches(DAMAGED, s) && s == State(3, 0, 3, None, {1, 2, 3}, None, [], [])
  {
    s := Starts(DAMAGED);
    s := Then(DAMAGED, s, Produce);
    s := Then(DAMAGED, s, Produce);
    s := Then(DAMAGED, s, Produce);
    assert Unflushed(s) == {1, 2, 3};
    s := Flushed(DAMAGED, s, {1, 2, 3}, 3);
  }

  /** The ring still holds frame 3, but its damaged row hides it and no notice says so. */
  lemma DamagedNewestRowLosesSilently()
    ensures exists s :: Reaches(DAMAGED, s) && s.out == [Shown(2), Shown(4)]
  {
    var s := ThreeFlushed();
    s := Then(DAMAGED, s, Connect(Some(AFTER_ONE)));
    s := RowsReadAs(DAMAGED, s, {2, 3});
    assert Retained(DAMAGED, {2, 3}, Ring(s), 1) == {2};
    s := WindowOfOne(DAMAGED, s, 2);
    s := TwoThenFour(DAMAGED, s);
  }

  // ---- A ring that overflows between the two reads ----

  const TINY := Config(1, 8, {})

  lemma Overflowed(cursor: Position) returns (s: State)
    requires cursor.afterSequence == 0
    ensures Reaches(TINY, s)
    ensures s == State(2, 1, 0, None, {}, Some(Viewing(cursor, 0, [1, 2], RowsRead({}))), [], [])
  {
    s := Starts(TINY);
    s := Then(TINY, s, Connect(Some(cursor)));
    s := Then(TINY, s, Produce);
    s := RowsReadAs(TINY, s, {});
    s := Then(TINY, s, Produce);
    assert s.conn.value.queue == [1, 2];
  }

  /**
   Frame 1 waits in the queue, is neither claimed nor shown, and is dropped by
   the mark all the same; a numbered cursor has been told, the window-start
   sentinel has not.
   */
  lemma AFrameBeforeTheWindowIsDropped(cursor: Position)
    requires cursor.afterSequence == 0
    ensures exists s ::
              && Reaches(TINY, s) && InPhase(s, Take) && s.conn.value.queue[0] == 1 && s.conn.value.mark == 2
              && s.out == (if cursor.fromWindowStart then [] else [Gap]) + [Shown(2)]
  {
    var s := OverflowedWindow(cursor);
    s := Then(TINY, s, Serve);
    s := Then(TINY, s, GoLive);
  }

  lemma OverflowedWindow(cursor: Position) returns (s: State)
    requires cursor.afterSequence == 0
    ensures Reaches(TINY, s) && s.out == (if cursor.fromWindowStart then [] else [Gap])
    ensures s.conn == Some(Connection(Some(cursor), 0, [1, 2], 0, 0, 2, 2, Serving([2])))
  {
    s := Overflowed(cursor);
    assert Retained(TINY, {}, Ring(s), 0) == {2};
    s := WindowOfOne(TINY, s, 2);
    OneFrame(2);
  }

  // ---- A client that claims frames the run has yet to produce ----

  lemma NothingAfterYet(cursor: Position) returns (s: State)
    requires cursor.afterSequence > 0
    ensures Reaches(ROOMY, s) && s == State(0, 0, 0, None, {}, Some(Viewing(cursor, 0, [], NothingAfter)), [], [])
  {
    s := Starts(ROOMY);
    s := Then(ROOMY, s, Connect(Some(cursor)));
    s := RowsReadAs(ROOMY, s, {});
    assert Retained(ROOMY, {}, Ring(s), cursor.afterSequence) == {};
    s := Then(ROOMY, s, ReadRing);
  }

  lemma ProducedMeanwhile(cursor: Position) returns (s: State)
    requires cursor.afterSequence > 0
    ensures Reaches(ROOMY, s) && Ring(s) == {1}
    ensures s == State(1, 0, 0, None, {}, Some(Viewing(cursor, 0, [1], HighRead(Some(None)))), [], [])
  {
    s := NothingAfterYet(cursor);
    s := Then(ROOMY, s, ReadHigh);
    s := Then(ROOMY, s, Produce);
    assert s.conn.value.queue == [1];
  }

  lemma ReadAgain(s: State) returns (s': State)
    requires Reaches(ROOMY, s) && InPhase(s, ReadRingAgain) && s.conn.value.phase.high == Some(None)
    requires Ring(s) == {1}
    ensures Reaches(ROOMY, s')
    ensures var p := s.conn.value.cursor.value;
            var upto := if p.afterSequence > 1 then s.conn.value.since else p.afterSequence;
            s' == Announced(s, s.conn.value, Answer(if p.afterSequence > 1 then Some(Unavailable) else None, None,
                                                    Min(p.afterSequence, 1)), [], upto + 1, upto)
  {
    assert Largest({1}) == 1;
    s' := Then(ROOMY, s, ReadRingAgain);
  }

  /**
   A cursor far ahead of the run: the first frame is produced between the two
   further reads, the floor is clamped to it, and the mark drops it unshown after
   a notice.
   */
  lemma ACursorAheadSilencesAFrame(after: nat)
    requires after > 1
    ensures exists s ::
              && Reaches(ROOMY, s) && InPhase(s, Take) && s.conn.value.queue == [1] && s.out == [Gap]
              && s.conn.value.since == 0 && s.produced == 1 && DoTake(s).out == [Gap]
  {
    var s := ProducedMeanwhile(Position(after, false));
    s := ReadAgain(s);
    s := Then(ROOMY, s, GoLive);
  }

  /** A cursor just ahead of the run: the newest frame is dropped with no notice at all. */
  lemma ACursorJustAheadSilencesTheNewestUnannounced()
    ensures exists s ::
              && Reaches(ROOMY, s) && InPhase(s, Take) && s.conn.value.queue == [1] && s.out == []
              && s.conn.value.since == 0 && s.produced == 1 && DoTake(s).out == []
  {
    var s := ProducedMeanwhile(AFTER_ONE);
    s := ReadAgain(s);
    s := Then(ROOMY, s, GoLive);
  }

  // ---- A run evicted before the client even connects ----

  lemma EvictedEarly() returns (s: State)
    ensures Reaches(ROOMY, s)
    ensures s == State(3, 3, 0, None, {1, 2}, Some(Viewing(AFTER_ONE, 3, [], RowsRead({2}))), [], [])
  {
    s := TwoFlushed();
    s := Then(ROOMY, s, Produce);
    s := Then(ROOMY, s, Evict);
    s := Then(ROOMY, s, Connect(Some(AFTER_ONE)));
    s := RowsReadAs(ROOMY, s, {2});
  }

  lemma EvictionBeforeConnectingLosesSilently()
    ensures exists s :: Reaches(ROOMY, s) && s.out == [Shown(2), Shown(4)]
  {
    var s := EvictedEarly();
    assert Retained(ROOMY, {2}, Ring(s), 1) == {2};
    s := WindowOfOne(ROOMY, s, 2);
    s := TwoThenFour(ROOMY, s);
  }
}
