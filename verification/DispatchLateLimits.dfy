/** A run in which a request goes out after its run's retirement has returned, with nothing on record of it. */
module DispatchLateLimits {
  import opened Basics
  import Journal
  import opened DispatchStore
  import opened DispatchRecord
  import D = Dispatch
  import Limits = DispatchLimits
  import R = RetirementModel
  import Retirement
  import opened RetirementLimits

  const BEGIN := State(RetirementLimits.START, map[])

  ghost predicate Comes(s: State) {
    exists steps :: IsRun(BEGIN, steps) && After(BEGIN, steps) == s
  }

  lemma {:induction false} RunGoesOn(s: State, steps: seq<Step>, step: Step)
    requires IsRun(s, steps) && Enabled(After(s, steps), step)
    ensures IsRun(s, steps + [step])
    ensures After(s, steps + [step]) == Apply(After(s, steps), step)
    decreases |steps|
  {
    if steps == [] {
      assert steps + [step] == [step] && [step][1..] == [];
      assert IsRun(Apply(s, step), [step][1..]);
    } else {
      RunGoesOn(Apply(s, steps[0]), steps[1..], step);
      assert (steps + [step])[1..] == steps[1..] + [step];
    }
  }

  lemma Next(s: State, step: Step) returns (s': State)
    requires Comes(s) && Enabled(s, step)
    ensures s' == Apply(s, step) && Comes(s')
  {
    s' := Apply(s, step);
    var steps :| IsRun(BEGIN, steps) && After(BEGIN, steps) == s;
    RunGoesOn(BEGIN, steps, step);
  }

  /** A step of the directory that is neither a body nor a dispatcher's commit. */
  lemma Stored(s: State, a: R.Action) returns (s': State)
    requires Comes(s) && R.Enabled(s.store, a) && !a.Write? && !a.Commit?
    ensures Comes(s') && s' == s.(store := R.Apply(s.store, a))
  {
    s' := Next(s, Store(a));
  }

  const ASKING := Preparing("tool", "x", "c", map[])

  /** Reached, with this marker set, these tasks and this dispatcher. */
  ghost predicate Here(s: State, markers: set<string>, tasks: map<nat, R.Task>, sender: Sender) {
    && Comes(s) && s.store.markers == markers && s.store.tasks == tasks && s.senders == map[0 := sender]
    && s.store.inventoried && s.store.locks.Keys <= {(0, JOURNAL)}
  }

  lemma Begins() returns (s: State)
    ensures Here(s, {}, map[0 := Bridge(R.Entry)], ASKING) && Unopened(s.store)
    ensures s.store.indexLock.None? && s.store.rows == {} && s.store.locks == map[]
  {
    assert IsRun(BEGIN, []) && After(BEGIN, []) == BEGIN;
    CanAsk();
    s := Next(BEGIN, Begin(0, Bridge(R.Entry), "tool", "x", "c", map[]));
  }

  lemma Asks() returns (s: State)
    ensures Here(s, {}, map[0 := Bridge(R.WantLock)], ASKING) && Unopened(s.store)
    ensures s.store.indexLock.None? && s.store.rows == {} && s.store.locks == map[]
  {
    s := Begins();
    s := Stored(s, R.Check(0));
  }

  lemma CanAsk()
    ensures D.CanBegin(D.Config("r", "s"), "x", "c")
  {
    var four := ["r", "s", "x", "c"];
    assert four[0] == "r" && four[1] == "s" && four[2] == "x" && four[3] == "c";
  }

  lemma Locks() returns (s: State)
    ensures Here(s, {}, map[0 := Bridge(R.WantIndex)], ASKING) && Unopened(s.store)
    ensures s.store.indexLock.None? && s.store.rows == {}
  {
    s := Asks();
    s := Stored(s, R.TakeLock(0));
    s := Stored(s, R.Check(0));
  }

  lemma Inserts() returns (s: State)
    ensures Here(s, {}, map[0 := Bridge(R.IndexInserted({("r", "s")}))], ASKING) && Unopened(s.store)
  {
    s := Locks();
    s := Stored(s, R.BeginIndex(0));
    s := Stored(s, R.Check(0));
    assert {} + {("r", "s")} == {("r", "s")};
  }

  lemma Registers() returns (s: State)
    ensures Here(s, {}, map[0 := Bridge(R.Registered)], ASKING) && Unopened(s.store)
    ensures s.store.indexLock.None? && s.store.rows == {("r", "s")}
  {
    s := Inserts();
    s := Stored(s, R.Check(0));
    s := Stored(s, R.CommitRow(0));
  }

  lemma Connects() returns (s: State)
    ensures Here(s, {}, map[0 := Bridge(R.Opened(0))], ASKING)
    ensures s.store.names == map[JOURNAL := 0] && s.store.disk == [R.File(JOURNAL, R.Empty)] && s.store.writer == map[]
    ensures s.store.indexLock.None? && s.store.rows == {("r", "s")}
  {
    s := Registers();
    s := Stored(s, R.Check(0));
    s := Stored(s, R.Connect(0));
  }

  lemma Opens() returns (s: State)
    ensures Here(s, {}, map[0 := Bridge(R.InBody(0, R.Empty))], ASKING) && OpenedByBridge(s.store)
    ensures s.store.indexLock.None? && s.store.rows == {("r", "s")}
  {
    s := Connects();
    s := Stored(s, R.BeginFile(0));
    s := Stored(s, R.ReadOwner(0));
  }

  lemma Attempts(s: State)
    requires IsPreparing(s, 0) && s.senders[0] == ASKING && s.store.tasks[0] == Bridge(R.InBody(0, R.Empty))
    ensures Attempt(s, 0, Some(Limits.SESSION)).1.Bound?
  {
    CanAsk();
    Limits.BuildSucceeds(D.Config("r", "s"), "x", "c", Journal.ReadLifecycle(Journal.EMPTY_DB));
  }

  /** Where the dispatcher stands with its last check behind it. */
  function Last(out: Journal.Db): R.Task {
    Bridge(R.CheckedLast(0, R.Empty, out))
  }

  lemma BodyRuns(s: State) returns (s': State, out: Journal.Db, q: D.Request)
    requires Comes(s) && IsPreparing(s, 0) && Attempt(s, 0, Some(Limits.SESSION)).1.Bound?
    ensures Comes(s') && s' == State(R.DoWrite(s.store, 0, out), s.senders[0 := Written(q)])
  {
    out := Attempt(s, 0, Some(Limits.SESSION)).0;
    s' := Next(s, PrepareBody(0, Some(Limits.SESSION)));
    q := s'.senders[0].request;
  }

  lemma AskedBodyRuns(s: State) returns (s': State, out: Journal.Db, q: D.Request)
    requires Comes(s) && IsPreparing(s, 0) && s.senders[0] == ASKING
    requires s.store.tasks[0] == Bridge(R.InBody(0, R.Empty))
    ensures Comes(s') && s' == State(R.DoWrite(s.store, 0, out), s.senders[0 := Written(q)])
  {
    Attempts(s);
    s', out, q := BodyRuns(s);
  }

  lemma Prepares() returns (s: State, out: Journal.Db, q: D.Request)
    ensures Here(s, {}, map[0 := Bridge(R.BodyDone(0, R.Empty, out))], Written(q)) && OpenedByBridge(s.store)
    ensures s.store.indexLock.None? && s.store.rows == {("r", "s")}
  {
    s := Opens();
    s, out, q := AskedBodyRuns(s);
  }

  lemma Writes() returns (s: State, out: Journal.Db, q: D.Request)
    ensures Here(s, {}, map[0 := Last(out)], Written(q)) && OpenedByBridge(s.store)
    ensures s.store.indexLock.None? && s.store.rows == {("r", "s")}
  {
    s, out, q := Prepares();
    s := Stored(s, R.Check(0));
  }

  lemma Marks() returns (s: State, out: Journal.Db, q: D.Request)
    ensures Here(s, {"r"}, map[0 := Last(out), 1 := Service(R.Marked)], Written(q)) && OpenedByBridge(s.store)
    ensures s.store.indexLock.None? && s.store.rows == {("r", "s")}
  {
    s, out, q := Writes();
    s := Stored(s, R.Spawn(1, Service(R.Start)));
    s := Stored(s, R.Mark(1));
  }

  lemma ReadsScopes() returns (s: State, out: Journal.Db, q: D.Request)
    ensures Here(s, {"r"}, map[0 := Last(out), 1 := Service(R.Retiring({"s"}, false))], Written(q))
    ensures OpenedByBridge(s.store) && s.store.indexLock.None?
  {
    s, out, q := Marks();
    s := Stored(s, R.BeginIndex(1));
    s := Stored(s, R.ReadScopes(1));
    assert R.ScopesOf({("r", "s")}, "r") == {"s"} by { assert ("r", "s").0 == "r"; }
  }

  lemma Holds() returns (s: State, out: Journal.Db, q: D.Request)
    ensures Comes(s) && s.store.markers == {"r"} && s.senders == map[0 := Written(q)]
    ensures s.store.inventoried && s.store.indexLock.None? && OpenedByBridge(s.store)
    ensures s.store.tasks == map[0 := Last(out), 1 := Service(R.Holding({"s"}, false, "s"))]
    ensures s.store.locks.Keys <= {(0, JOURNAL), (1, JOURNAL)}
    ensures (1, JOURNAL) in s.store.locks && s.store.locks[(1, JOURNAL)] == 1
  {
    s, out, q := ReadsScopes();
    s := Stored(s, R.Pick(1, "s"));
  }

  lemma Replaces() returns (s: State, out: Journal.Db, q: D.Request)
    ensures Here(s, {"r"}, map[0 := Last(out), 1 := Service(R.Retiring({}, false))], Written(q))
    ensures s.store.indexLock.None? && |s.store.disk| == 2
  {
    s, out, q := Holds();
    s := Stored(s, R.Replace(1));
    assert {"s"} - {"s"} == {};
  }

  lemma Finishes() returns (s: State, out: Journal.Db, q: D.Request)
    ensures Here(s, {"r"}, map[0 := Last(out), 1 := Service(R.WantForget)], Written(q))
    ensures s.store.indexLock.None? && |s.store.disk| == 2
  {
    s, out, q := Replaces();
    s := Stored(s, R.Finish(1));
  }

  lemma Returns() returns (s: State, out: Journal.Db, q: D.Request)
    ensures Here(s, {"r"}, map[0 := Last(out), 1 := Service(R.Returned)], Written(q)) && |s.store.disk| == 2
  {
    s, out, q := Finishes();
    s := Stored(s, R.BeginIndex(1));
    s := Stored(s, R.Forget(1));
  }

  lemma CommitsLate(s: State, out: Journal.Db, q: D.Request) returns (ready: State)
    requires Here(s, {"r"}, map[0 := Last(out), 1 := Service(R.Returned)], Written(q)) && |s.store.disk| == 2
    ensures Enabled(s, CommitPrepared(0)) && ready == Apply(s, CommitPrepared(0)) && Comes(ready)
    ensures ready.store.tasks == map[0 := Bridge(R.Committed), 1 := Service(R.Returned)]
    ensures ready.senders == map[0 := Ready(q)]
  {
    LateCommit(s.store, out);
    ready := Next(s, CommitPrepared(0));
  }

  lemma LateCommit(s: R.State, out: Journal.Db)
    requires s.tasks == map[0 := Last(out), 1 := Service(R.Returned)] && |s.disk| == 2
    ensures R.Enabled(s, R.Commit(0))
    ensures R.DoCommit(s, 0).tasks == map[0 := Bridge(R.Committed), 1 := Service(R.Returned)]
  {
  }

  lemma SendsLate(ready: State, q: D.Request) returns (sent: State)
    requires Comes(ready) && ready.senders == map[0 := Ready(q)]
    requires ready.store.tasks == map[0 := Bridge(R.Committed), 1 := Service(R.Returned)]
    ensures Enabled(ready, Send(0)) && sent == Apply(ready, Send(0)) && Comes(sent)
    ensures sent.senders == map[0 := Sent(q)] && !OnRecord(sent.store, JOURNAL, q)
  {
    sent := Next(ready, Send(0));
    Unrecorded(sent, q);
  }

  /** The retirement has returned, and then the dispatcher commits and sends. */
  lemma ARequestCanGoOutUnrecorded() returns (s: State, q: D.Request)
    ensures Init(BEGIN) && Comes(s)
    ensures Retirement.HasReturned(s.store, "r") && Enabled(s, CommitPrepared(0))
    ensures var ready := Apply(s, CommitPrepared(0));
            && Enabled(ready, Send(0))
            && var sent := Apply(ready, Send(0));
               Comes(sent) && sent.senders == map[0 := Sent(q)] && !OnRecord(sent.store, JOURNAL, q)
  {
    var out;
    s, out, q := Returns();
    assert Retirement.ReturnedAt(s.store, 1, "r");
    var ready := CommitsLate(s, out, q);
    var sent := SendsLate(ready, q);
  }

  lemma Unrecorded(s: State, q: D.Request)
    requires Comes(s) && s.senders == map[0 := Sent(q)] && R.IsTxn(s.store, 0)
    requires s.store.tasks[0] == Bridge(R.Committed) && R.IsRetirer(s.store, 1) && s.store.tasks[1] == Service(R.Returned)
    ensures !OnRecord(s.store, JOURNAL, q)
  {
    var steps :| IsRun(BEGIN, steps) && After(BEGIN, steps) == s;
    assert Retirement.ReturnedAt(s.store, 1, "r");
    NoRecordAfterTheReturn(BEGIN, steps, 0);
  }
}
