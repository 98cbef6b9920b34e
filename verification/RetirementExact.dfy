/** Exactly when a commit can follow the closing of its run. */
module RetirementExact {
  import opened RetirementModel
  import opened Retirement

  // ---- Late commits ----

  /** Some later run brings the transaction to a commit. */
  ghost predicate CanStillCommit(s: State, u: nat) {
    exists actions :: IsRun(s, actions) && Enabled(After(s, actions), Commit(u))
  }

  /** Once its run is marked closed, a transaction can still commit exactly when it has passed its last check. */
  lemma CanStillCommitExactlyWhen(s: State, u: nat)
    requires Inv(s) && IsTxn(s, u) && s.tasks[u].run in s.markers
    ensures CanStillCommit(s, u) <==> s.tasks[u].pc.CheckedLast?
  {
    if s.tasks[u].pc.CheckedLast? {
      assert TaskFits(s, s.tasks[u]);
      assert IsRun(s, []) && Enabled(After(s, []), Commit(u));
    } else {
      forall actions | IsRun(s, actions) ensures !Enabled(After(s, actions), Commit(u)) {
        NeverReachesTheLastCheck(s, actions, u);
      }
    }
  }

  lemma {:induction false} NeverReachesTheLastCheck(s: State, actions: seq<Action>, u: nat)
    requires IsRun(s, actions) && IsTxn(s, u) && s.tasks[u].run in s.markers && !s.tasks[u].pc.CheckedLast?
    ensures IsTxn(After(s, actions), u) && !After(s, actions).tasks[u].pc.CheckedLast?
    decreases |actions|
  {
    if actions != [] {
      OneTaskMoves(s, actions[0]);
      StaysBeforeTheLastCheck(s, actions[0], u);
      NeverReachesTheLastCheck(Apply(s, actions[0]), actions[1..], u);
    }
  }

  lemma StaysBeforeTheLastCheck(s: State, a: Action, u: nat)
    requires Enabled(s, a) && IsTxn(s, u) && s.tasks[u].run in s.markers && !s.tasks[u].pc.CheckedLast?
    ensures IsTxn(Apply(s, a), u) && !Apply(s, a).tasks[u].pc.CheckedLast?
  {
    OneTaskMoves(s, a);
  }

  /** A commit to a canonical journal of the run that some later run makes. */
  ghost predicate CommitFollows(s: State, run: string) {
    exists actions, u :: CommitsAfter(s, actions, u, run)
  }

  ghost predicate CommitsAfter(s: State, actions: seq<Action>, u: nat, run: string) {
    IsRun(s, actions) && Enabled(After(s, actions), Commit(u))
    && IsCanonical(After(s, actions).tasks[u]) && After(s, actions).tasks[u].run == run
  }

  /** The transaction of a canonical journal of the run stands between its last check and its commit. */
  predicate Straddles(task: Task, run: string) {
    IsCanonical(task) && task.run == run && task.pc.CheckedLast?
  }

  predicate Straddled(s: State, run: string) {
    exists u | u in s.tasks :: Straddles(s.tasks[u], run)
  }

  predicate StraddledElsewhere(s: State, run: string, proc: nat) {
    exists u | u in s.tasks :: Straddles(s.tasks[u], run) && s.tasks[u].proc != proc
  }

  lemma {:induction false} TxnStays(s: State, actions: seq<Action>, u: nat)
    requires IsRun(s, actions) && u in s.tasks
    ensures u in After(s, actions).tasks && SameIdentity(s.tasks[u], After(s, actions).tasks[u])
    decreases |actions|
  {
    if actions != [] {
      OneTaskMoves(s, actions[0]);
      TxnStays(Apply(s, actions[0]), actions[1..], u);
    }
  }

  /** A later committer of a marked run had already passed its last check. */
  lemma CommitterIsPastChecks(s: State, actions: seq<Action>, u: nat, run: string)
    requires run in s.markers && CommitsAfter(s, actions, u, run)
    ensures u in s.tasks && IsCanonical(s.tasks[u]) && s.tasks[u].run == run && s.tasks[u].pc.CheckedLast?
  {
    if u in s.tasks && s.tasks[u].run == run {
      TxnStays(s, actions, u);
      if !s.tasks[u].pc.CheckedLast? {
        NeverReachesTheLastCheck(s, actions, u);
      }
    } else {
      if u in s.tasks {
        TxnStays(s, actions, u);
      }
      MarkerRefusesTransactions(s, actions, u, run);
    }
  }

  lemma StraddledIfCommitFollows(s: State, run: string)
    requires run in s.markers && CommitFollows(s, run)
    ensures Straddled(s, run)
  {
    var later, u :| CommitsAfter(s, later, u, run);
    CommitterIsPastChecks(s, later, u, run);
    assert Straddles(s.tasks[u], run);
  }

  lemma CommitFollowsIfStraddled(s: State, run: string)
    requires Wf(s) && Straddled(s, run)
    ensures CommitFollows(s, run)
  {
    var u :| u in s.tasks && Straddles(s.tasks[u], run);
    assert TaskFits(s, s.tasks[u]);
    assert CommitsAfter(s, [], u, run);
  }

  lemma StraddlersAreElsewhere(s: State, actions: seq<Action>, t: nat, run: string, u: nat)
    requires Init(s) && IsRun(s, actions) && ReturnedAt(After(s, actions), t, run)
    requires Home(After(s, actions), run, After(s, actions).tasks[t].proc)
    requires u in After(s, actions).tasks && Straddles(After(s, actions).tasks[u], run)
    ensures After(s, actions).tasks[u].proc != After(s, actions).tasks[t].proc
  {
    InitIsInv(s);
    InvAlways(s, actions);
    assert TaskFits(After(s, actions), After(s, actions).tasks[u]);
    LateCommitIsInvisible(s, actions, t, u);
  }

  /**
   A commit to a canonical journal can follow the return exactly when, at the
   return, some transaction of the run stands between its last marker check and
   its commit; where one process retires the run, that is a transaction in
   another process.
   */
  lemma CommitFollowsTheReturnExactlyWhen(s: State, actions: seq<Action>, t: nat, run: string)
    requires Init(s) && IsRun(s, actions) && ReturnedAt(After(s, actions), t, run)
    ensures var s' := After(s, actions);
            && (CommitFollows(s', run) <==> Straddled(s', run))
            && (Home(s', run, s'.tasks[t].proc) ==>
                  (CommitFollows(s', run) <==> StraddledElsewhere(s', run, s'.tasks[t].proc)))
  {
    InitIsInv(s);
    InvAlways(s, actions);
    var s' := After(s, actions);
    assert TaskOk(s', s'.tasks[t]);
    if CommitFollows(s', run) {
      StraddledIfCommitFollows(s', run);
    }
    if Straddled(s', run) {
      CommitFollowsIfStraddled(s', run);
    }
    if Home(s', run, s'.tasks[t].proc) && Straddled(s', run) {
      var u :| u in s'.tasks && Straddles(s'.tasks[u], run);
      StraddlersAreElsewhere(s, actions, t, run, u);
    }
  }
}
