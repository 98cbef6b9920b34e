/**
 Two runs that mark where the retirement guarantee stops: what its exceptions
 allow really happens.
 */
module RetirementLimits {
  import opened Basics
  import opened RetirementModel
  import opened Retirement
  import Journal

  ghost predicate Reaches(s: State, s': State) {
    exists actions :: IsRun(s, actions) && After(s, actions) == s'
  }

  lemma {:induction false} RunExtends(s: State, actions: seq<Action>, a: Action)
    requires IsRun(s, actions) && Enabled(After(s, actions), a)
    ensures IsRun(s, actions + [a]) && After(s, actions + [a]) == Apply(After(s, actions), a)
    decreases |actions|
  {
    if actions == [] {
      assert actions + [a] == [a] && [a][1..] == [];
      assert IsRun(Apply(s, a), [a][1..]);
    } else {
      RunExtends(Apply(s, actions[0]), actions[1..], a);
      assert (actions + [a])[1..] == actions[1..] + [a];
    }
  }

  lemma Then(start: State, s: State, a: Action) returns (s': State)
    requires Reaches(start, s) && Enabled(s, a)
    ensures s' == Apply(s, a) && Reaches(start, s')
  {
    s' := Apply(s, a);
    var actions :| IsRun(start, actions) && After(start, actions) == s;
    RunExtends(start, actions, a);
  }

  const START := State({}, {}, true, None, map[], [], map[], map[], {}, map[])
  const JOURNAL := Canonical("r", "s")

  function Bridge(pc: Pc): Task { Txn(0, JOURNAL, "r", "s", pc) }

  function Service(rpc: RetirePc): Task { Retirer(1, "r", rpc) }

  lemma Started() returns (s: State)
    ensures s == START && Init(s) && Reaches(s, s)
  {
    s := START;
    assert IsRun(s, []) && After(s, []) == s;
  }

  /** Reached, with this marker set and these tasks, in a directory the index has adopted. */
  ghost predicate Stands(s: State, markers: set<string>, tasks: map<nat, Task>) {
    Reaches(START, s) && s.markers == markers && s.tasks == tasks && s.inventoried && s.locks.Keys <= {(0, JOURNAL)}
  }

  ghost predicate Unopened(s: State) {
    s.names == map[] && s.disk == [] && s.writer == map[]
  }

  /** The bridge has its empty file open, and holds its write transaction. */
  ghost predicate OpenedByBridge(s: State) {
    s.names == map[JOURNAL := 0] && s.disk == [File(JOURNAL, Empty)] && s.writer == map[0 := 0]
  }

  lemma BridgeLocks() returns (s: State)
    ensures Stands(s, {}, map[0 := Bridge(WantIndex)]) && Unopened(s) && s.indexLock.None? && s.rows == {}
  {
    s := BridgeEnters();
    s := Then(START, s, TakeLock(0));
    s := Then(START, s, Check(0));
  }

  lemma BridgeEnters() returns (s: State)
    ensures Stands(s, {}, map[0 := Bridge(WantLock)]) && Unopened(s) && s.indexLock.None? && s.rows == {}
    ensures s.locks == map[]
  {
    s := Started();
    s := Then(START, s, Spawn(0, Bridge(Entry)));
    s := Then(START, s, Check(0));
  }

  lemma BridgeRegisters() returns (s: State)
    ensures Stands(s, {}, map[0 := Bridge(Registered)]) && Unopened(s) && s.indexLock.None? && s.rows == {("r", "s")}
  {
    s := BridgeInserts();
    s := Then(START, s, Check(0));
    s := Then(START, s, CommitRow(0));
  }

  lemma BridgeInserts() returns (s: State)
    ensures Stands(s, {}, map[0 := Bridge(IndexInserted({("r", "s")}))]) && Unopened(s)
  {
    s := BridgeLocks();
    s := Then(START, s, BeginIndex(0));
    s := Then(START, s, Check(0));
    assert {} + {("r", "s")} == {("r", "s")};
  }

  lemma BridgeOpens() returns (s: State)
    ensures Stands(s, {}, map[0 := Bridge(Begun(0))]) && OpenedByBridge(s)
    ensures s.indexLock.None? && s.rows == {("r", "s")}
  {
    s := BridgeConnects();
    s := Then(START, s, BeginFile(0));
  }

  lemma BridgeConnects() returns (s: State)
    ensures Stands(s, {}, map[0 := Bridge(Opened(0))]) && s.names == map[JOURNAL := 0]
    ensures s.disk == [File(JOURNAL, Empty)] && s.writer == map[] && s.indexLock.None? && s.rows == {("r", "s")}
  {
    s := BridgeRegisters();
    s := Then(START, s, Check(0));
    s := Then(START, s, Connect(0));
  }

  const LAST := CheckedLast(0, Empty, Journal.EMPTY_DB)

  lemma BridgePassesItsLastCheck() returns (s: State)
    ensures Stands(s, {}, map[0 := Bridge(LAST)]) && OpenedByBridge(s)
    ensures s.indexLock.None? && s.rows == {("r", "s")}
  {
    s := BridgeWrites();
    s := Then(START, s, Check(0));
  }

  lemma BridgeWrites() returns (s: State)
    ensures Stands(s, {}, map[0 := Bridge(BodyDone(0, Empty, Journal.EMPTY_DB))]) && OpenedByBridge(s)
    ensures s.indexLock.None? && s.rows == {("r", "s")}
  {
    s := BridgeReadsOwner();
    s := Then(START, s, Write(0, Journal.EMPTY_DB));
  }

  lemma BridgeReadsOwner() returns (s: State)
    ensures Stands(s, {}, map[0 := Bridge(InBody(0, Empty))]) && OpenedByBridge(s)
    ensures s.indexLock.None? && s.rows == {("r", "s")}
  {
    s := BridgeOpens();
    s := Then(START, s, ReadOwner(0));
  }

  lemma ServiceMarks() returns (s: State)
    ensures Stands(s, {"r"}, map[0 := Bridge(LAST), 1 := Service(Marked)]) && OpenedByBridge(s)
    ensures s.indexLock.None? && s.rows == {("r", "s")}
  {
    s := BridgePassesItsLastCheck();
    s := Then(START, s, Spawn(1, Service(Start)));
    s := Then(START, s, Mark(1));
  }

  lemma ServiceReadsScopes() returns (s: State)
    ensures Stands(s, {"r"}, map[0 := Bridge(LAST), 1 := Service(Retiring({"s"}, false))]) && OpenedByBridge(s)
    ensures s.indexLock.None? && s.rows == {("r", "s")}
  {
    s := ServiceMarks();
    s := Then(START, s, BeginIndex(1));
    s := Then(START, s, ReadScopes(1));
    assert ScopesOf({("r", "s")}, "r") == {"s"} by { assert ("r", "s").0 == "r"; }
  }

  lemma ServiceHolds() returns (s: State)
    ensures Reaches(START, s) && s.markers == {"r"} && s.inventoried && s.indexLock.None? && OpenedByBridge(s)
    ensures s.tasks == map[0 := Bridge(LAST), 1 := Service(Holding({"s"}, false, "s"))]
    ensures s.locks.Keys <= {(0, JOURNAL), (1, JOURNAL)} && (1, JOURNAL) in s.locks && s.locks[(1, JOURNAL)] == 1
  {
    s := ServiceReadsScopes();
    s := Then(START, s, Pick(1, "s"));
  }

  lemma ServiceReplacesOne() returns (s: State)
    ensures Stands(s, {"r"}, map[0 := Bridge(LAST), 1 := Service(Retiring({}, false))])
    ensures s.indexLock.None? && IsClosed(s, JOURNAL) && s.names[JOURNAL] == 1 && |s.disk| == 2
  {
    s := ServiceHolds();
    s := Then(START, s, Replace(1));
    assert {"s"} - {"s"} == {};
  }

  lemma ServiceReplaces() returns (s: State)
    ensures Stands(s, {"r"}, map[0 := Bridge(LAST), 1 := Service(WantForget)])
    ensures s.indexLock.None? && IsClosed(s, JOURNAL) && s.names[JOURNAL] == 1 && |s.disk| == 2
  {
    s := ServiceReplacesOne();
    s := Then(START, s, Finish(1));
  }

  /**
   "No transaction commits after retirement returned" is false across
   processes: the journal lock is one process's own, and nothing stands between
   the last marker check and the commit.  The commit lands on the file that
   lost its name.
   */
  lemma ACommitCanFollowTheReturn() returns (s: State)
    ensures Init(START) && Reaches(START, s)
    ensures IsRetirer(s, 1) && s.tasks[1].rpc.Returned? && Enabled(s, Commit(0))
    ensures s.tasks[0].run == s.tasks[1].run && IsCanonical(s.tasks[0]) && s.tasks[0].proc != s.tasks[1].proc
    ensures IsClosed(Apply(s, Commit(0)), JOURNAL)
  {
    s := ServiceReplaces();
    s := Then(START, s, BeginIndex(1));
    s := Then(START, s, Forget(1));
  }

  /**
   "Every canonical file of a retired run is a closed header" is false for the
   file `tool_call_journal_path` sets aside: its marker check and its create are
   two steps, and a whole retirement fits between them.
   */
  lemma AnEmptyFileCanAppearAfterTheReturn() returns (s: State)
    ensures Init(START) && Reaches(START, s) && HasReturned(s, "r")
    ensures JOURNAL in s.names && !IsClosed(s, JOURNAL)
  {
    s := NothingForgotten();
    s := Then(START, s, Premake(0));
    assert ReturnedAt(s, 1, "r");
  }

  lemma NothingForgotten() returns (s: State)
    ensures Stands(s, {"r"}, map[0 := Maker("r", "s", true), 1 := Service(Returned)]) && s.names == map[]
  {
    s := NothingToForget();
    s := Then(START, s, BeginIndex(1));
    s := Then(START, s, Forget(1));
  }

  lemma NothingToForget() returns (s: State)
    ensures Stands(s, {"r"}, map[0 := Maker("r", "s", true), 1 := Service(WantForget)])
    ensures s.names == map[] && s.indexLock.None?
  {
    s := NothingToRetire();
    s := Then(START, s, Finish(1));
  }

  lemma NothingToRetire() returns (s: State)
    ensures Stands(s, {"r"}, map[0 := Maker("r", "s", true), 1 := Service(Retiring({}, false))])
    ensures s.names == map[] && s.indexLock.None?
  {
    s := NothingToRead();
    s := Then(START, s, BeginIndex(1));
    s := Then(START, s, ReadScopes(1));
    assert ScopesOf({}, "r") == {};
  }

  lemma NothingToRead() returns (s: State)
    ensures Stands(s, {"r"}, map[0 := Maker("r", "s", true), 1 := Service(Marked)])
    ensures s.names == map[] && s.indexLock.None? && s.rows == {}
  {
    s := MakerChecksFirst();
    s := Then(START, s, Mark(1));
  }

  lemma MakerChecksFirst() returns (s: State)
    ensures Stands(s, {}, map[0 := Maker("r", "s", true), 1 := Service(Start)])
    ensures s.names == map[] && s.indexLock.None? && s.rows == {}
  {
    s := Started();
    s := Then(START, s, Spawn(0, Maker("r", "s", false)));
    s := Then(START, s, Check(0));
    s := Then(START, s, Spawn(1, Service(Start)));
  }
}
