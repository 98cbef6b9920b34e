/** Exactly which requests can still go out once their run has been retired. */
module DispatchLate {
  import opened DispatchStore
  import opened DispatchRecord
  import R = RetirementModel
  import Retirement

  /** The dispatcher's transaction has committed, or only its commit is missing, and its request has not gone out. */
  predicate Outstanding(s: State, u: nat, run: string) {
    && u in s.senders && R.IsTxn(s.store, u) && s.store.tasks[u].run == run
    && (s.senders[u].Ready? || (s.senders[u].Written? && s.store.tasks[u].pc.CheckedLast?))
  }

  ghost predicate SendsAfter(s: State, steps: seq<Step>, u: nat, run: string) {
    && IsRun(s, steps) && Enabled(After(s, steps), Send(u))
    && R.IsTxn(After(s, steps).store, u) && After(s, steps).store.tasks[u].run == run
  }

  /** Some later run sends a request of the run. */
  ghost predicate SendFollows(s: State, run: string) {
    exists steps, u :: SendsAfter(s, steps, u, run)
  }

  /** With the marker there no transaction gets past its last check any more. */
  lemma MarkerHolds(s: R.State, a: R.Action, u: nat, run: string)
    requires R.Enabled(s, a) && run in s.markers
    ensures var s' := R.Apply(s, a);
            && run in s'.markers
            && (R.IsTxn(s', u) && s'.tasks[u].run == run && s'.tasks[u].pc.CheckedLast? ==>
                  R.IsTxn(s, u) && s.tasks[u].run == run && s.tasks[u].pc.CheckedLast?)
            && (u in s.tasks ==> u in s'.tasks && Retirement.SameIdentity(s.tasks[u], s'.tasks[u]))
  {
    Retirement.OneTaskMoves(s, a);
  }

  /** A dispatcher becomes ready only by committing, and written only with its last check to come. */
  lemma SenderMoves(s: State, step: Step, u: nat)
    requires Enabled(s, step) && u in Apply(s, step).senders
    ensures var s' := Apply(s, step);
            && (s'.senders[u].Ready? ==>
                  u in s.senders && (s.senders[u].Ready? || (s.senders[u].Written? && R.Enabled(s.store, R.Commit(u)))))
            && (s'.senders[u].Written? && R.IsTxn(s'.store, u) && s'.store.tasks[u].pc.CheckedLast? ==>
                  u in s.senders && s.senders[u].Written?)
  {
  }

  lemma NoneComesLate(s: State, step: Step, u: nat, run: string)
    requires Inv(s) && Enabled(s, step) && run in s.store.markers && !Outstanding(s, u, run)
    ensures run in Apply(s, step).store.markers && !Outstanding(Apply(s, step), u, run)
  {
    MarkerHoldsUnder(s, step, u, run);
    if u in Apply(s, step).senders {
      SenderMoves(s, step, u);
    }
  }

  lemma MarkerHoldsUnder(s: State, step: Step, u: nat, run: string)
    requires Enabled(s, step) && run in s.store.markers
    ensures var store := Apply(s, step).store;
            && run in store.markers
            && (R.IsTxn(store, u) && store.tasks[u].run == run && store.tasks[u].pc.CheckedLast? ==>
                  R.IsTxn(s.store, u) && s.store.tasks[u].run == run && s.store.tasks[u].pc.CheckedLast?)
            && (u in s.store.tasks ==> u in store.tasks && Retirement.SameIdentity(s.store.tasks[u], store.tasks[u]))
  {
    UnderIsIt(s, step);
    if Under(s, step).Some? {
      MarkerHolds(s.store, Under(s, step).value, u, run);
    }
  }

  lemma {:induction false} NoneEverComes(s: State, steps: seq<Step>, u: nat, run: string)
    requires Inv(s) && IsRun(s, steps) && run in s.store.markers && !Outstanding(s, u, run)
    ensures !Outstanding(After(s, steps), u, run)
    decreases |steps|
  {
    if steps != [] {
      NoneComesLate(s, steps[0], u, run);
      StepKeepsInv(s, steps[0]);
      NoneEverComes(Apply(s, steps[0]), steps[1..], u, run);
    }
  }

  lemma OneStepRun(s: State, step: Step)
    requires Enabled(s, step)
    ensures IsRun(s, [step]) && After(s, [step]) == Apply(s, step)
  {
    assert [step][1..] == [];
    assert IsRun(Apply(s, step), []);
  }

  lemma CommitMakesReady(s: State, u: nat)
    requires Enabled(s, CommitPrepared(u))
    ensures var s' := Apply(s, CommitPrepared(u));
            Enabled(s', Send(u)) && R.IsTxn(s'.store, u) && s'.store.tasks[u].run == s.store.tasks[u].run
  {
  }

  lemma ReadyCanSend(s: State, u: nat)
    requires Enabled(s, Send(u)) && R.IsTxn(s.store, u)
    ensures SendFollows(s, s.store.tasks[u].run)
  {
    assert IsRun(s, []) && After(s, []) == s;
    assert SendsAfter(s, [], u, s.store.tasks[u].run);
  }

  lemma WrittenCanSend(s: State, u: nat)
    requires Enabled(s, CommitPrepared(u))
    ensures SendFollows(s, s.store.tasks[u].run)
  {
    CommitMakesReady(s, u);
    OneStepRun(s, CommitPrepared(u));
    assert SendsAfter(s, [CommitPrepared(u)], u, s.store.tasks[u].run);
  }

  lemma OutstandingCanSend(s: State, u: nat, run: string)
    requires Retirement.Wf(s.store) && Outstanding(s, u, run)
    ensures SendFollows(s, run)
  {
    if s.senders[u].Ready? {
      ReadyCanSend(s, u);
    } else {
      assert Retirement.TaskFits(s.store, s.store.tasks[u]);
      WrittenCanSend(s, u);
    }
  }

  /** A preparation that can still commit after the return is another process's than the one that retires the run. */
  lemma LateCommitsAreElsewhere(s: R.State, t: nat, run: string, u: nat)
    requires Retirement.Inv(s) && Retirement.ReturnedAt(s, t, run) && Retirement.Home(s, run, s.tasks[t].proc)
    requires R.IsTxn(s, u) && R.IsCanonical(s.tasks[u]) && s.tasks[u].run == run && s.tasks[u].pc.CheckedLast?
    ensures s.tasks[u].proc != s.tasks[t].proc
  {
    assert Retirement.TaskOk(s, s.tasks[t]);
  }

  // ---- Main results ----

  /**
   Once a run is marked closed, some request of it can still be sent exactly
   when a dispatcher has committed its preparation or stands between the last
   marker check and that commit.
   */
  lemma SendFollowsExactlyWhen(s: State, run: string)
    requires Inv(s) && run in s.store.markers
    ensures SendFollows(s, run) <==> exists u :: Outstanding(s, u, run)
  {
    if SendFollows(s, run) {
      var steps, u :| SendsAfter(s, steps, u, run);
      if !Outstanding(s, u, run) {
        NoneEverComes(s, steps, u, run);
      }
    }
    if u :| Outstanding(s, u, run) {
      OutstandingCanSend(s, u, run);
    }
  }

  /**
   After the return, some request of the run can still be sent exactly under
   that condition; where one process retires the run, a preparation still to
   commit is another process's.
   */
  lemma SendFollowsTheReturnExactlyWhen(s: State, steps: seq<Step>, t: nat, run: string)
    requires Init(s) && IsRun(s, steps) && Retirement.ReturnedAt(After(s, steps).store, t, run)
    ensures var s' := After(s, steps);
            && (SendFollows(s', run) <==> exists u :: Outstanding(s', u, run))
            && forall u | Outstanding(s', u, run) && s'.senders[u].Written? && R.IsCanonical(s'.store.tasks[u]) ::
                 Retirement.Home(s'.store, run, s'.store.tasks[t].proc) ==>
                   s'.store.tasks[u].proc != s'.store.tasks[t].proc
  {
    InitHolds(s);
    InvAlways(s, steps);
    var s' := After(s, steps);
    MarkedAtTheReturn(s'.store, t, run);
    SendFollowsExactlyWhen(s', run);
    forall u | Outstanding(s', u, run) && s'.senders[u].Written? && R.IsCanonical(s'.store.tasks[u])
               && Retirement.Home(s'.store, run, s'.store.tasks[t].proc)
      ensures s'.store.tasks[u].proc != s'.store.tasks[t].proc
    {
      LateCommitsAreElsewhere(s'.store, t, run, u);
    }
  }

  lemma MarkedAtTheReturn(s: R.State, t: nat, run: string)
    requires Retirement.Inv(s) && Retirement.ReturnedAt(s, t, run)
    ensures run in s.markers
  {
    assert Retirement.TaskOk(s, s.tasks[t]);
  }
}
