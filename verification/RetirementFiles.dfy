/** Exactly which files a retirement leaves closed, from what its one read of the index gave it. */
module RetirementFiles {
  import opened RetirementModel
  import opened Retirement

  // ---- What the index and the retirements know of each other ----

  predicate Recorded(s: State, run: string, scope: string) {
    (run, scope) in s.rows || IsClosed(s, Canonical(run, scope))
  }

  predicate Settled(s: State, rpc: RetirePc, run: string, scope: string) {
    scope in Todo(rpc) || IsClosed(s, Canonical(run, scope))
  }

  /** What is left to retire is on record, and unless one failed, what is on record is left to retire or closed. */
  ghost predicate RetirerSees(s: State, r: Task)
    requires r.Retirer?
  {
    PastScopes(r.rpc) ==>
      && s.inventoried
      && (r.rpc.Holding? ==> r.rpc.scope in r.rpc.todo)
      && (forall scope | scope in Todo(r.rpc) :: Recorded(s, r.run, scope))
      && (!Failed(r.rpc) ==> forall scope | (r.run, scope) in s.rows :: Settled(s, r.rpc, r.run, scope))
  }

  /** An index transaction adds no row but its own, once the directory has been adopted. */
  predicate WorkSees(s: State, task: Task) {
    InIndex(task) && s.inventoried ==>
      forall x | x in WorkOf(task) :: x in s.rows || (Inserting(task) && x == (task.run, task.scope))
  }

  ghost predicate Sees(s: State, task: Task) {
    WorkSees(s, task) && (task.Retirer? ==> RetirerSees(s, task))
  }

  ghost predicate AllSee(s: State) {
    forall t | t in s.tasks :: Sees(s, s.tasks[t])
  }

  ghost predicate ClosedKept(s: State, s': State) {
    forall run, scope | IsClosed(s, Canonical(run, scope)) :: IsClosed(s', Canonical(run, scope))
  }

  lemma StepKeepsClosed(s: State, a: Action)
    requires Serial(s) && Enabled(s, a)
    ensures ClosedKept(s, Apply(s, a))
  {
    forall run, scope | IsClosed(s, Canonical(run, scope)) ensures IsClosed(Apply(s, a), Canonical(run, scope)) {
      ClosedStaysOnce(s, a, run, scope);
    }
  }

  /** Others see what they saw while the index stays as it is. */
  lemma IndexUntouched(s: State, s': State, t: nat)
    requires AllSee(s) && OthersKept(s, s', t) && ClosedKept(s, s')
    requires s'.rows == s.rows && s'.inventoried == s.inventoried && Sees(s', s'.tasks[t])
    ensures AllSee(s')
  {
    forall u | u in s'.tasks ensures Sees(s', s'.tasks[u]) {
      if u != t {
        assert Sees(s, s.tasks[u]);
      }
    }
  }

  lemma TxnOutsideIndex(s: State, a: Action)
    requires AllSee(s) && Serial(s) && Enabled(s, a) && IsTxn(s, a.t)
    requires !a.Spawn? && !a.CommitRow? && !a.BeginIndex? && !a.Check?
    ensures AllSee(Apply(s, a))
  {
    OneTaskMoves(s, a);
    StepKeepsClosed(s, a);
    IndexUntouched(s, Apply(s, a), a.t);
  }

  /** Beginning an index transaction starts from the rows; a check adds its own row. */
  lemma TxnInsideIndex(s: State, a: Action)
    requires AllSee(s) && Serial(s) && Enabled(s, a) && (a.BeginIndex? || a.Check?) && IsTxn(s, a.t)
    ensures AllSee(Apply(s, a))
  {
    OneTaskMoves(s, a);
    StepKeepsClosed(s, a);
    assert Sees(s, s.tasks[a.t]);
    IndexUntouched(s, Apply(s, a), a.t);
  }

  /** The others are outside the index and every row of a run being retired was already there. */
  lemma RowsReplaced(s: State, s': State, t: nat)
    requires AllSee(s) && OthersKept(s, s', t) && ClosedKept(s, s') && s'.inventoried
    requires forall u | u in s.tasks && u != t :: !InIndex(s.tasks[u])
    requires Sees(s', s'.tasks[t])
    requires forall u | u in s.tasks && u != t && s.tasks[u].Retirer? && PastScopes(s.tasks[u].rpc) ::
               RowsKept(s, s', s.tasks[u].run)
    ensures AllSee(s')
  {
    forall u | u in s'.tasks ensures Sees(s', s'.tasks[u]) {
      if u != t {
        assert Sees(s, s.tasks[u]);
      }
    }
  }

  /** Of one run: no row is new, and a row that is gone is that of a closed journal. */
  ghost predicate RowsKept(s: State, s': State, run: string) {
    forall scope :: ((run, scope) in s'.rows ==> (run, scope) in s.rows)
                    && ((run, scope) in s.rows ==> Recorded(s', run, scope))
  }

  lemma CommitRowSees(s: State, t: nat)
    requires Inv(s) && AllSee(s) && Enabled(s, CommitRow(t))
    ensures AllSee(DoCommitRow(s, t))
  {
    var s' := DoCommitRow(s, t);
    OneTaskMoves(s, CommitRow(t));
    StepKeepsClosed(s, CommitRow(t));
    AloneInIndex(s, t);
    assert TaskOk(s, s.tasks[t]) && Sees(s, s.tasks[t]);
    forall u | u in s.tasks && u != t && s.tasks[u].Retirer? && PastScopes(s.tasks[u].rpc)
      ensures RowsKept(s, s', s.tasks[u].run)
    {
      assert TaskOk(s, s.tasks[u]) && Sees(s, s.tasks[u]);
    }
    RowsReplaced(s, s', t);
  }

  lemma ReadScopesSees(s: State, t: nat)
    requires Inv(s) && AllSee(s) && Enabled(s, ReadScopes(t))
    ensures AllSee(DoReadScopes(s, t))
  {
    var s' := DoReadScopes(s, t);
    OneTaskMoves(s, ReadScopes(t));
    StepKeepsClosed(s, ReadScopes(t));
    AloneInIndex(s, t);
    assert TaskOk(s, s.tasks[t]) && Sees(s, s.tasks[t]);
    ReadScopesOwn(s, t);
    forall u | u in s.tasks && u != t && s.tasks[u].Retirer? && PastScopes(s.tasks[u].rpc)
      ensures RowsKept(s, s', s.tasks[u].run)
    {
      assert Sees(s, s.tasks[u]);
    }
    RowsReplaced(s, s', t);
  }

  lemma ReadScopesOwn(s: State, t: nat)
    requires IsRetirer(s, t) && s.tasks[t].rpc.ReadingScopes?
    ensures Sees(DoReadScopes(s, t), DoReadScopes(s, t).tasks[t])
  {
    var run, work := s.tasks[t].run, s.tasks[t].rpc.work;
    forall scope ensures scope in ScopesOf(work, run) <==> (run, scope) in work {
      assert (run, scope).0 == run && (run, scope).1 == scope;
    }
  }

  lemma ForgetSees(s: State, t: nat)
    requires Inv(s) && AllSee(s) && Enabled(s, Forget(t))
    ensures AllSee(DoForget(s, t))
  {
    var s' := DoForget(s, t);
    OneTaskMoves(s, Forget(t));
    StepKeepsClosed(s, Forget(t));
    AloneInIndex(s, t);
    assert TaskOk(s, s.tasks[t]) && Sees(s, s.tasks[t]);
    forall u | u in s.tasks && u != t && s.tasks[u].Retirer? && PastScopes(s.tasks[u].rpc)
      ensures RowsKept(s, s', s.tasks[u].run)
    {
      ForgetKeepsRows(s, t, s.tasks[u].run);
    }
    RowsReplaced(s, s', t);
  }

  lemma ForgetKeepsRows(s: State, t: nat, run: string)
    requires IsRetirer(s, t) && s.tasks[t].rpc.Forgetting? && Sees(s, s.tasks[t]) && TaskOk(s, s.tasks[t])
    ensures RowsKept(s, DoForget(s, t), run)
  {
    var s' := DoForget(s, t);
    forall scope | (run, scope) in s.rows ensures Recorded(s', run, scope) {
      if run == s.tasks[t].run {
        assert Settled(s, s.tasks[t].rpc, run, scope);
      }
    }
  }

  /** A retirement that has no more left to do than before, and has closed or failed what it dropped, still sees. */
  lemma StillSees(s: State, s': State, r: Task, r': Task)
    requires r.Retirer? && RetirerSees(s, r) && r'.Retirer? && r'.run == r.run
    requires ClosedKept(s, s') && s'.rows == s.rows && s'.inventoried == s.inventoried
    requires PastScopes(r'.rpc) ==>
               && PastScopes(r.rpc) && Todo(r'.rpc) <= Todo(r.rpc)
               && (r'.rpc.Holding? ==> r'.rpc.scope in r'.rpc.todo)
               && (Failed(r.rpc) ==> Failed(r'.rpc))
               && forall scope | scope in Todo(r.rpc) - Todo(r'.rpc) ::
                    Failed(r'.rpc) || IsClosed(s', Canonical(r.run, scope))
    ensures RetirerSees(s', r')
  {
    if PastScopes(r'.rpc) {
      forall scope | scope in Todo(r'.rpc) ensures Recorded(s', r.run, scope) {
        assert Recorded(s, r.run, scope);
      }
      if !Failed(r'.rpc) {
        forall scope | (r.run, scope) in s'.rows ensures Settled(s', r'.rpc, r.run, scope) {
          assert Settled(s, r.rpc, r.run, scope);
        }
      }
    }
  }

  lemma RetirerMovesOn(s: State, a: Action)
    requires AllSee(s) && Serial(s) && Enabled(s, a) && IsRetirer(s, a.t)
    requires a.BeginIndex? || a.Abort? || a.Mark? || a.Pick? || a.Finish?
    ensures AllSee(Apply(s, a))
  {
    var s' := Apply(s, a);
    OneTaskMoves(s, a);
    StepKeepsClosed(s, a);
    assert Sees(s, s.tasks[a.t]);
    StillSees(s, s', s.tasks[a.t], s'.tasks[a.t]);
    IndexUntouched(s, s', a.t);
  }

  lemma ReplaceSees(s: State, t: nat)
    requires AllSee(s) && Serial(s) && Enabled(s, Replace(t))
    ensures AllSee(DoReplace(s, t))
  {
    var s' := DoReplace(s, t);
    OneTaskMoves(s, Replace(t));
    StepKeepsClosed(s, Replace(t));
    assert Sees(s, s.tasks[t]);
    assert IsClosed(s', Canonical(s.tasks[t].run, s.tasks[t].rpc.scope));
    StillSees(s, s', s.tasks[t], s'.tasks[t]);
    IndexUntouched(s, s', t);
  }

  lemma FailOneSees(s: State, t: nat)
    requires AllSee(s) && Serial(s) && Enabled(s, FailOne(t))
    ensures AllSee(DoFailOne(s, t))
  {
    var s' := DoFailOne(s, t);
    OneTaskMoves(s, FailOne(t));
    StepKeepsClosed(s, FailOne(t));
    assert Sees(s, s.tasks[t]);
    StillSees(s, s', s.tasks[t], s'.tasks[t]);
    IndexUntouched(s, s', t);
  }

  lemma SpawnSees(s: State, a: Action)
    requires AllSee(s) && Serial(s) && Enabled(s, a) && (a.Spawn? || a.Premake? || (a.Check? && s.tasks[a.t].Maker?))
    ensures AllSee(Apply(s, a))
  {
    OneTaskMoves(s, a);
    StepKeepsClosed(s, a);
    IndexUntouched(s, Apply(s, a), a.t);
  }

  lemma RetirerSeesOn(s: State, a: Action)
    requires Inv(s) && AllSee(s) && Enabled(s, a) && !a.Spawn? && IsRetirer(s, a.t)
    ensures AllSee(Apply(s, a))
  {
    match a
    case ReadScopes(t) => ReadScopesSees(s, t);
    case Replace(t) => ReplaceSees(s, t);
    case FailOne(t) => FailOneSees(s, t);
    case Forget(t) => ForgetSees(s, t);
    case _ => RetirerMovesOn(s, a);
  }

  lemma TxnSeesOn(s: State, a: Action)
    requires Inv(s) && AllSee(s) && Enabled(s, a) && !a.Spawn? && IsTxn(s, a.t)
    ensures AllSee(Apply(s, a))
  {
    match a
    case CommitRow(t) => CommitRowSees(s, t);
    case BeginIndex(_) => TxnInsideIndex(s, a);
    case Check(_) => TxnInsideIndex(s, a);
    case _ => TxnOutsideIndex(s, a);
  }

  lemma StepKeepsSight(s: State, a: Action)
    requires Inv(s) && AllSee(s) && Enabled(s, a)
    ensures AllSee(Apply(s, a))
  {
    if a.Spawn? || s.tasks[a.t].Maker? {
      SpawnSees(s, a);
    } else if s.tasks[a.t].Txn? {
      TxnSeesOn(s, a);
    } else {
      RetirerSeesOn(s, a);
    }
  }

  lemma {:induction false} SightAlways(s: State, actions: seq<Action>)
    requires Inv(s) && AllSee(s) && IsRun(s, actions)
    ensures Inv(After(s, actions)) && AllSee(After(s, actions))
    decreases |actions|
  {
    if actions != [] {
      StepKeepsInv(s, actions[0]);
      StepKeepsSight(s, actions[0]);
      SightAlways(Apply(s, actions[0]), actions[1..]);
    }
  }

  // ---- A scope that was read is closed in the end ----

  predicate Pursues(s: State, t: nat, scope: string) {
    IsRetirer(s, t) &&
    var r := s.tasks[t];
    r.rpc.Raised? || (PastScopes(r.rpc) && (Failed(r.rpc) || Settled(s, r.rpc, r.run, scope)))
  }

  lemma PursuesOnce(s: State, a: Action, t: nat, scope: string)
    requires Serial(s) && Enabled(s, a) && Pursues(s, t, scope)
    ensures Pursues(Apply(s, a), t, scope)
  {
    OneTaskMoves(s, a);
    StepKeepsClosed(s, a);
    if a.Replace? && a.t == t {
      assert IsClosed(DoReplace(s, t), Canonical(s.tasks[t].run, s.tasks[t].rpc.scope));
    }
  }

  lemma {:induction false} PursuesAlways(s: State, actions: seq<Action>, t: nat, scope: string)
    requires Inv(s) && IsRun(s, actions) && Pursues(s, t, scope)
    ensures Pursues(After(s, actions), t, scope)
    decreases |actions|
  {
    if actions != [] {
      StepKeepsInv(s, actions[0]);
      PursuesOnce(s, actions[0], t, scope);
      PursuesAlways(Apply(s, actions[0]), actions[1..], t, scope);
    }
  }

  // ---- A scope nobody has read stays open ----

  predicate NotPursuedBy(task: Task, run: string, scope: string) {
    && (InIndex(task) ==> (run, scope) !in WorkOf(task))
    && (task.Retirer? && task.run == run ==>
          scope !in Todo(task.rpc) && (task.rpc.Holding? ==> task.rpc.scope != scope))
  }

  /** On nobody's list, in a marked run of an adopted directory, and not closed. */
  predicate Overlooked(s: State, run: string, scope: string) {
    && run in s.markers && s.inventoried && (run, scope) !in s.rows
    && !IsClosed(s, Canonical(run, scope))
    && forall t | t in s.tasks :: NotPursuedBy(s.tasks[t], run, scope)
  }

  /** Only a replacement makes a closed header. */
  lemma OpenStaysOpen(s: State, a: Action, run: string, scope: string)
    requires Enabled(s, a) && !IsClosed(s, Canonical(run, scope))
    requires forall p | p in s.names :: s.names[p] < |s.disk|
    requires a.Replace? ==> s.tasks[a.t].run != run || s.tasks[a.t].rpc.scope != scope
    ensures !IsClosed(Apply(s, a), Canonical(run, scope))
  {
  }

  lemma RowStaysOut(s: State, a: Action, run: string, scope: string)
    requires Enabled(s, a) && Overlooked(s, run, scope)
    ensures (run, scope) !in Apply(s, a).rows
  {
    if a.t in s.tasks {
      assert NotPursuedBy(s.tasks[a.t], run, scope);
    }
  }

  lemma TxnListStaysShort(s: State, a: Action, run: string, scope: string)
    requires Enabled(s, a) && Overlooked(s, run, scope) && !a.Spawn? && IsTxn(s, a.t)
    ensures NotPursuedBy(Apply(s, a).tasks[a.t], run, scope)
  {
    OneTaskMoves(s, a);
    assert NotPursuedBy(s.tasks[a.t], run, scope);
  }

  lemma RetirerListStaysShort(s: State, a: Action, run: string, scope: string)
    requires Enabled(s, a) && Overlooked(s, run, scope) && !a.Spawn? && IsRetirer(s, a.t)
    ensures NotPursuedBy(Apply(s, a).tasks[a.t], run, scope)
  {
    OneTaskMoves(s, a);
    assert NotPursuedBy(s.tasks[a.t], run, scope);
  }

  lemma ListStaysShort(s: State, a: Action, run: string, scope: string)
    requires Enabled(s, a) && Overlooked(s, run, scope) && a.t in Apply(s, a).tasks
    ensures NotPursuedBy(Apply(s, a).tasks[a.t], run, scope)
  {
    if !a.Spawn? {
      if s.tasks[a.t].Txn? {
        TxnListStaysShort(s, a, run, scope);
      } else if s.tasks[a.t].Retirer? {
        RetirerListStaysShort(s, a, run, scope);
      }
    }
  }

  lemma OverlookedOnce(s: State, a: Action, run: string, scope: string)
    requires Wf(s) && Enabled(s, a) && Overlooked(s, run, scope)
    ensures Overlooked(Apply(s, a), run, scope)
  {
    var s' := Apply(s, a);
    OneTaskMoves(s, a);
    if a.Replace? {
      assert NotPursuedBy(s.tasks[a.t], run, scope);
    }
    OpenStaysOpen(s, a, run, scope);
    RowStaysOut(s, a, run, scope);
    ListStaysShort(s, a, run, scope);
    assert s'.inventoried;
    forall u | u in s'.tasks ensures NotPursuedBy(s'.tasks[u], run, scope) {
      assert u != a.t ==> NotPursuedBy(s.tasks[u], run, scope);
    }
  }

  lemma {:induction false} OverlookedAlways(s: State, actions: seq<Action>, run: string, scope: string)
    requires Inv(s) && IsRun(s, actions) && Overlooked(s, run, scope)
    ensures Overlooked(After(s, actions), run, scope)
    decreases |actions|
  {
    if actions != [] {
      StepKeepsInv(s, actions[0]);
      OverlookedOnce(s, actions[0], run, scope);
      OverlookedAlways(Apply(s, actions[0]), actions[1..], run, scope);
    }
  }

  /** At the read: a scope that is neither in the rows read nor closed is on nobody's list. */
  lemma UnreadIsOverlooked(s: State, t: nat, scope: string)
    requires Inv(s) && AllSee(s) && IsRetirer(s, t) && s.tasks[t].rpc.ReadingScopes?
    requires (s.tasks[t].run, scope) !in s.tasks[t].rpc.work
    requires !IsClosed(s, Canonical(s.tasks[t].run, scope))
    ensures Overlooked(DoReadScopes(s, t), s.tasks[t].run, scope)
  {
    var s' := DoReadScopes(s, t);
    var run := s.tasks[t].run;
    AloneInIndex(s, t);
    assert TaskOk(s, s.tasks[t]);
    forall u | u in s'.tasks ensures NotPursuedBy(s'.tasks[u], run, scope) {
      if u != t {
        assert Sees(s, s.tasks[u]);
        assert s.tasks[u].Retirer? && s.tasks[u].run == run && scope in Todo(s.tasks[u].rpc) ==> Recorded(s, run, scope);
      }
    }
  }

  // ---- Main result ----

  /**
   A retirement reads the index once.  Over every interleaving, when it has
   returned, a canonical name of its run leads to a closed header if and only if
   it did so at that read or the rows read there held its scope.
   */
  lemma ClosedExactlyWhenRead(s: State, before: seq<Action>, later: seq<Action>, t: nat, scope: string)
    requires Init(s) && IsRun(s, before) && Enabled(After(s, before), ReadScopes(t))
    requires var s1 := After(s, before); IsRun(DoReadScopes(s1, t), later)
    requires var s1 := After(s, before);
             var end := After(DoReadScopes(s1, t), later); ReturnedAt(end, t, s1.tasks[t].run)
    ensures var s1 := After(s, before);
            var end := After(DoReadScopes(s1, t), later);
            var run := s1.tasks[t].run;
            IsClosed(end, Canonical(run, scope))
            <==> IsClosed(s1, Canonical(run, scope)) || (run, scope) in s1.tasks[t].rpc.work
  {
    InitIsInv(s);
    SightAlways(s, before);
    var s1 := After(s, before);
    var s2 := DoReadScopes(s1, t);
    StepKeepsInv(s1, ReadScopes(t));
    var run := s1.tasks[t].run;
    if (run, scope) in s1.tasks[t].rpc.work {
      assert (run, scope).1 == scope && scope in ScopesOf(s1.tasks[t].rpc.work, run);
      PursuesAlways(s2, later, t, scope);
    } else if IsClosed(s1, Canonical(run, scope)) {
      ClosedStaysOnce(s1, ReadScopes(t), run, scope);
      ClosedStays(s2, later, run, scope);
    } else {
      UnreadIsOverlooked(s1, t, scope);
      OverlookedAlways(s2, later, run, scope);
    }
  }
}
