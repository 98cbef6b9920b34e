/**
 What is on record of a request that has been sent: its row as long as the run
 is open, nothing once its journal has been retired; and exactly which requests
 can still go out then.
 */
module DispatchRecord {
  import opened Basics
  import Journal
  import opened DispatchSafety
  import opened DispatchStore
  import D = Dispatch
  import R = RetirementModel
  import opened Retirement
  import opened RetirementNames

  // ---- Bodies only add and settle rows ----

  predicate IsWritten(pc: R.Pc) {
    pc.BodyDone? || pc.CheckedLast?
  }

  predicate BodyOk(task: R.Task) {
    task.Txn? && IsWritten(task.pc) ==> Extends(DbOf(task.pc.base), task.pc.out)
  }

  predicate BodiesOk(store: R.State) {
    forall t | t in store.tasks :: BodyOk(store.tasks[t])
  }

  lemma StepKeepsBodies(s: R.State, a: R.Action)
    requires BodiesOk(s) && R.Enabled(s, a)
    requires a.Write? ==> Extends(DbOf(s.tasks[a.t].pc.base), a.out)
    ensures BodiesOk(R.Apply(s, a))
  {
    var s' := R.Apply(s, a);
    OneTaskMoves(s, a);
    MovedBodyIsOk(s, a);
    forall t | t in s'.tasks ensures BodyOk(s'.tasks[t]) {
      if t != a.t {
        assert BodyOk(s.tasks[t]);
      }
    }
  }

  lemma MovedBodyIsOk(s: R.State, a: R.Action)
    requires R.Enabled(s, a) && (a.t in s.tasks ==> BodyOk(s.tasks[a.t]))
    requires a.Write? ==> Extends(DbOf(s.tasks[a.t].pc.base), a.out)
    ensures a.t in R.Apply(s, a).tasks && BodyOk(R.Apply(s, a).tasks[a.t])
  {
    if !a.Spawn? && !a.Write? {
      OneTaskMoves(s, a);
      if R.IsTxn(s, a.t) {
        WrittenOnce(s, a);
      }
    }
  }

  /** What a body has written stays what it wrote, over what it read. */
  lemma WrittenOnce(s: R.State, a: R.Action)
    requires R.Enabled(s, a) && !a.Spawn? && !a.Write? && R.IsTxn(s, a.t)
    ensures var s' := R.Apply(s, a);
            && R.IsTxn(s', a.t)
            && (IsWritten(s'.tasks[a.t].pc) ==>
                  && IsWritten(s.tasks[a.t].pc) && s'.tasks[a.t].pc.out == s.tasks[a.t].pc.out
                  && s'.tasks[a.t].pc.base == s.tasks[a.t].pc.base)
  {
    OneTaskMoves(s, a);
  }

  // ---- The record of a request ----

  /** The journal the name leads to holds the row the request stands for. */
  ghost predicate OnRecord(store: R.State, path: R.Path, request: D.Request) {
    && path in store.names && store.names[path] < |store.disk|
    && var content := store.disk[store.names[path]].content;
       content.Live? && Known(content.db, request)
  }

  ghost predicate RecordOk(store: R.State, path: R.Path, run: string, request: D.Request) {
    OnRecord(store, path, request) || Replaced(store, path, run)
  }

  /** A file's rows outlive every commit to it. */
  lemma CommitKeepsRecord(s: R.State, t: nat, path: R.Path, request: D.Request)
    requires Wf(s) && Serial(s) && BodiesOk(s) && R.Enabled(s, R.Commit(t)) && OnRecord(s, path, request)
    ensures OnRecord(R.DoCommit(s, t), path, request)
  {
    var task := s.tasks[t];
    assert BaseIsCurrent(s, task) && BodyOk(task);
    if s.names[path] == task.pc.inode {
      KnownStays(DbOf(task.pc.base), task.pc.out, request);
    }
  }

  lemma RecordStays(s: R.State, a: R.Action, run: string, scope: string, request: D.Request)
    requires Retirement.Inv(s) && BodiesOk(s) && R.Enabled(s, a)
    requires RecordOk(s, R.Canonical(run, scope), run, request)
    ensures RecordOk(R.Apply(s, a), R.Canonical(run, scope), run, request)
  {
    var path := R.Canonical(run, scope);
    if Replaced(s, path, run) {
      ReplacedStays(s, a, run, scope);
    } else if a.Commit? {
      CommitKeepsRecord(s, a.t, path, request);
    } else {
      NamesMove(s, a, run, scope);
      OthersKeepFiles(s, a, s.names[path]);
    }
  }

  /** A commit puts what it wrote on record, unless its journal has been replaced. */
  lemma CommitRecords(s: R.State, t: nat, request: D.Request)
    requires Retirement.Inv(s) && AllAttached(s) && R.Enabled(s, R.Commit(t)) && R.IsCanonical(s.tasks[t])
    requires Known(s.tasks[t].pc.out, request)
    ensures RecordOk(R.DoCommit(s, t), s.tasks[t].path, s.tasks[t].run, request)
  {
    var task := s.tasks[t];
    assert Attached(s, task);
    if Replaced(s, task.path, task.run) {
      ReplacedStays(s, R.Commit(t), task.run, task.scope);
    }
  }

  // ---- The whole system ----

  ghost predicate SenderOk(store: R.State, task: R.Task, sender: Sender) {
    task.Txn? &&
    match sender
    case Preparing(_, _, _, _) => !IsWritten(task.pc)
    case Written(request) => IsWritten(task.pc) ==> Known(task.pc.out, request)
    case Ready(request) => R.IsCanonical(task) ==> RecordOk(store, task.path, task.run, request)
    case Sent(request) => R.IsCanonical(task) ==> RecordOk(store, task.path, task.run, request)
    case Gone => true
  }

  ghost predicate SendersOk(s: State) {
    forall u | u in s.senders :: u in s.store.tasks && SenderOk(s.store, s.store.tasks[u], s.senders[u])
  }

  ghost predicate Inv(s: State) {
    Retirement.Inv(s.store) && AllAttached(s.store) && BodiesOk(s.store) && SendersOk(s)
  }

  /** The one step of the directory a step of the system takes. */
  ghost function Under(s: State, step: Step): Option<R.Action>
    requires Enabled(s, step)
  {
    match step
    case Store(a) => Some(a)
    case Begin(u, task, _, _, _, _) => Some(R.Spawn(u, task))
    case PrepareBody(u, session) =>
      Some(if Attempt(s, u, session).1.Bound? then R.Write(u, Attempt(s, u, session).0) else R.Abort(u))
    case CompleteBody(u, call, updates, rejected) =>
      Some(R.Write(u, Journal.CompleteOn(DbOf(s.store.tasks[u].pc.base), call, updates, rejected)))
    case CommitPrepared(u) => Some(R.Commit(u))
    case Send(_) => None
    case Lose(_) => None
  }

  lemma UnderIsIt(s: State, step: Step)
    requires Enabled(s, step)
    ensures var a := Under(s, step);
            if a.Some? then R.Enabled(s.store, a.value) && Apply(s, step).store == R.Apply(s.store, a.value)
            else Apply(s, step).store == s.store
  {
  }

  lemma AttemptExtends(s: State, u: nat, session: Option<string>)
    requires IsPreparing(s, u)
    ensures var (db, prepared) := Attempt(s, u, session);
            && Extends(DbOf(s.store.tasks[u].pc.base), db)
            && (prepared.Bound? ==> var call := s.senders[u].call;
                                    call in db.calls && Known(db, RequestFor(call, db.calls[call])))
  {
  }

  lemma BodyExtends(s: State, step: Step)
    requires Enabled(s, step) && Under(s, step).Some? && Under(s, step).value.Write?
    ensures var a := Under(s, step).value; Extends(DbOf(s.store.tasks[a.t].pc.base), a.out)
  {
    if step.PrepareBody? {
      AttemptExtends(s, step.u, step.session);
    }
  }

  /** A dispatcher that does not move stays right. */
  lemma SenderStays(s: R.State, a: R.Action, u: nat, sender: Sender)
    requires Retirement.Inv(s) && BodiesOk(s) && R.Enabled(s, a) && u in s.tasks && SenderOk(s, s.tasks[u], sender)
    requires !a.Write? || a.t != u
    ensures var s' := R.Apply(s, a); u in s'.tasks && SenderOk(s', s'.tasks[u], sender)
  {
    OneTaskMoves(s, a);
    var task := s.tasks[u];
    if (sender.Ready? || sender.Sent?) && R.IsCanonical(task) {
      RecordStays(s, a, task.run, task.scope, sender.request);
    }
    WrittenStays(s, a, u);
  }

  /** Only a body writes, and what it wrote stays what will be committed. */
  lemma WrittenStays(s: R.State, a: R.Action, u: nat)
    requires R.Enabled(s, a) && u in s.tasks && s.tasks[u].Txn? && (!a.Write? || a.t != u)
    ensures var s' := R.Apply(s, a);
            && u in s'.tasks && s'.tasks[u].Txn? && SameIdentity(s.tasks[u], s'.tasks[u])
            && (IsWritten(s'.tasks[u].pc) ==> IsWritten(s.tasks[u].pc) && s'.tasks[u].pc.out == s.tasks[u].pc.out)
  {
    OneTaskMoves(s, a);
  }

  predicate MovesSender(step: Step, u: nat) {
    !step.Store? && !step.CompleteBody? && step.u == u
  }

  lemma OtherSendersKept(s: State, step: Step, u: nat)
    requires Enabled(s, step) && !MovesSender(step, u) && u in Apply(s, step).senders
    ensures u in s.senders && Apply(s, step).senders[u] == s.senders[u]
  {
  }

  lemma MovedSenderIsOk(s: State, step: Step, u: nat)
    requires Inv(s) && Enabled(s, step) && MovesSender(step, u)
    ensures var s' := Apply(s, step);
            u in s'.senders && u in s'.store.tasks && SenderOk(s'.store, s'.store.tasks[u], s'.senders[u])
  {
    if u in s.senders {
      assert SenderOk(s.store, s.store.tasks[u], s.senders[u]);
    }
    if step.PrepareBody? {
      AttemptExtends(s, u, step.session);
    } else if step.CommitPrepared? && R.IsCanonical(s.store.tasks[u]) {
      CommitRecords(s.store, u, s.senders[u].request);
    }
  }

  lemma OtherSenderIsOk(s: State, step: Step, u: nat)
    requires Inv(s) && Enabled(s, step) && u in s.senders && !MovesSender(step, u)
    ensures var s' := Apply(s, step);
            u in s'.store.tasks && SenderOk(s'.store, s'.store.tasks[u], s.senders[u])
  {
    UnderIsIt(s, step);
    if Under(s, step).Some? {
      SenderStays(s.store, Under(s, step).value, u, s.senders[u]);
    }
  }

  lemma StepKeepsSenders(s: State, step: Step)
    requires Inv(s) && Enabled(s, step)
    ensures SendersOk(Apply(s, step))
  {
    var s' := Apply(s, step);
    forall u | u in s'.senders ensures u in s'.store.tasks && SenderOk(s'.store, s'.store.tasks[u], s'.senders[u]) {
      if MovesSender(step, u) {
        MovedSenderIsOk(s, step, u);
      } else {
        OtherSendersKept(s, step, u);
        OtherSenderIsOk(s, step, u);
      }
    }
  }

  lemma StepKeepsInv(s: State, step: Step)
    requires Inv(s) && Enabled(s, step)
    ensures Inv(Apply(s, step))
  {
    StepKeepsSenders(s, step);
    UnderIsIt(s, step);
    if Under(s, step).Some? {
      var a := Under(s, step).value;
      Retirement.StepKeepsInv(s.store, a);
      StepKeepsAttached(s.store, a);
      if a.Write? {
        BodyExtends(s, step);
      }
      StepKeepsBodies(s.store, a);
    }
  }

  lemma {:induction false} InvAlways(s: State, steps: seq<Step>)
    requires Inv(s) && IsRun(s, steps)
    ensures Inv(After(s, steps))
    decreases |steps|
  {
    if steps != [] {
      StepKeepsInv(s, steps[0]);
      InvAlways(Apply(s, steps[0]), steps[1..]);
    }
  }

  lemma InitHolds(s: State)
    requires Init(s)
    ensures Inv(s)
  {
    InitIsInv(s.store);
  }

  // ---- Main results ----

  /** The request of a dispatcher whose transaction has committed, sent or about to be. */
  function RequestOf(s: State, u: nat): Option<D.Request> {
    if u in s.senders && (s.senders[u].Ready? || s.senders[u].Sent?) then Some(s.senders[u].request) else None
  }

  /**
   In every interleaving of dispatchers, completions and retirements, a request
   whose preparation has committed has its row on record exactly as long as its
   journal has not been replaced, and that happens only to a run marked closed.
   */
  lemma OnRecordExactlyUntilReplaced(s: State, steps: seq<Step>, u: nat)
    requires Init(s) && IsRun(s, steps)
    requires var s' := After(s, steps); RequestOf(s', u).Some? && u in s'.store.tasks && R.IsCanonical(s'.store.tasks[u])
    ensures var s' := After(s, steps);
            var task := s'.store.tasks[u];
            && (OnRecord(s'.store, task.path, RequestOf(s', u).value) <==> !R.IsClosed(s'.store, task.path))
            && (task.run !in s'.store.markers ==> OnRecord(s'.store, task.path, RequestOf(s', u).value))
  {
    InitHolds(s);
    InvAlways(s, steps);
    var s' := After(s, steps);
    assert SenderOk(s'.store, s'.store.tasks[u], s'.senders[u]);
  }

  /** Once a retirement has returned, no request of its run has a row on record, sent or still to be sent. */
  lemma NoRecordAfterTheReturn(s: State, steps: seq<Step>, u: nat)
    requires Init(s) && IsRun(s, steps)
    requires var s' := After(s, steps); RequestOf(s', u).Some? && u in s'.store.tasks && R.IsCanonical(s'.store.tasks[u])
    requires var s' := After(s, steps); HasReturned(s'.store, s'.store.tasks[u].run)
    ensures var s' := After(s, steps);
            !OnRecord(s'.store, s'.store.tasks[u].path, RequestOf(s', u).value)
  {
    InitHolds(s);
    InvAlways(s, steps);
    var s' := After(s, steps);
    var task := s'.store.tasks[u];
    if task.path in s'.store.names {
      NothingOpenAfterTheReturn(s'.store, task.run, task.scope);
    }
  }
}
