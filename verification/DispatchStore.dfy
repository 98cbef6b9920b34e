/**
 Dispatchers over the storage directory: each prepares its call in a journal
 transaction that takes the directory's own atomic steps, and sends its request
 once that transaction has committed.  Completions run as further transactions,
 and retirements run beside them all.
 */
module DispatchStore {
  import opened Basics
  import opened Journal
  import opened DispatchSafety
  import Catalog
  import D = Dispatch
  import R = RetirementModel

  /** Where a dispatcher stands; its transaction is the task of the same number. */
  datatype Sender =
    | Preparing(name: string, command: string, call: string, arguments: Catalog.Payload)
    | Written(request: D.Request)    // the transaction's body is done
    | Ready(request: D.Request)      // the transaction has committed
    | Sent(request: D.Request)
    | Gone

  datatype State = State(store: R.State, senders: map<nat, Sender>)

  datatype Step =
    | Store(a: R.Action)             // any step of the directory but a transaction's body and a dispatcher's commit
    | Begin(u: nat, task: R.Task, name: string, command: string, call: string, arguments: Catalog.Payload)
    | PrepareBody(u: nat, session: Option<string>)
    | CompleteBody(u: nat, call: string, updates: map<string, string>, rejected: bool)
    | CommitPrepared(u: nat)
    | Send(u: nat)
    | Lose(u: nat)                   // a crash or a cancellation before the request goes out

  /** The tables a transaction finds. */
  function DbOf(content: R.Content): Db {
    if content.Live? then content.db else EMPTY_DB
  }

  predicate InBody(s: State, u: nat) {
    R.IsTxn(s.store, u) && s.store.tasks[u].pc.InBody?
  }

  predicate IsPreparing(s: State, u: nat) {
    u in s.senders && s.senders[u].Preparing? && InBody(s, u)
  }

  /** What `prepare` does to the tables its transaction found. */
  ghost function Attempt(s: State, u: nat, session: Option<string>): (Db, Prepared)
    requires IsPreparing(s, u)
  {
    var Preparing(name, command, call, arguments) := s.senders[u];
    var task := s.store.tasks[u];
    PrepareOn(DbOf(task.pc.base), call, Fingerprint(name, command, arguments),
              refs => D.Build(D.Config(task.run, task.scope), command, call, arguments, session, refs))
  }

  ghost predicate Enabled(s: State, step: Step) {
    match step
    case Store(a) => R.Enabled(s.store, a) && !a.Write? && !(a.Commit? && a.t in s.senders)
    case Begin(u, task, _, command, call, _) =>
      task.Txn? && u !in s.senders && R.Enabled(s.store, R.Spawn(u, task))
      && D.CanBegin(D.Config(task.run, task.scope), command, call)
    case PrepareBody(u, _) => IsPreparing(s, u)
    case CompleteBody(u, _, _, _) => u !in s.senders && InBody(s, u)
    case CommitPrepared(u) => u in s.senders && s.senders[u].Written? && R.Enabled(s.store, R.Commit(u))
    case Send(u) => u in s.senders && s.senders[u].Ready?
    case Lose(u) => u in s.senders && s.senders[u].Ready?
  }

  /** A refusal raises inside the transaction, which leaves nothing behind. */
  ghost function DoPrepareBody(s: State, u: nat, session: Option<string>): State
    requires IsPreparing(s, u)
  {
    var (db, prepared) := Attempt(s, u, session);
    var call := s.senders[u].call;
    if prepared.Bound? then
      State(R.DoWrite(s.store, u, db), s.senders[u := Written(RequestFor(call, db.calls[call]))])
    else State(R.DoAbort(s.store, u), s.senders[u := Gone])
  }

  ghost function Apply(s: State, step: Step): State
    requires Enabled(s, step)
  {
    match step
    case Store(a) => s.(store := R.Apply(s.store, a))
    case Begin(u, task, name, command, call, arguments) =>
      State(R.Apply(s.store, R.Spawn(u, task)), s.senders[u := Preparing(name, command, call, arguments)])
    case PrepareBody(u, session) => DoPrepareBody(s, u, session)
    case CompleteBody(u, call, updates, rejected) =>
      s.(store := R.DoWrite(s.store, u, CompleteOn(DbOf(s.store.tasks[u].pc.base), call, updates, rejected)))
    case CommitPrepared(u) =>
      State(R.Apply(s.store, R.Commit(u)), s.senders[u := Ready(s.senders[u].request)])
    case Send(u) => s.(senders := s.senders[u := Sent(s.senders[u].request)])
    case Lose(u) => s.(senders := s.senders[u := Gone])
  }

  ghost predicate Init(s: State) {
    R.Init(s.store) && s.senders == map[]
  }

  ghost predicate IsRun(s: State, steps: seq<Step>)
    decreases |steps|
  {
    steps == [] || (Enabled(s, steps[0]) && IsRun(Apply(s, steps[0]), steps[1..]))
  }

  ghost function After(s: State, steps: seq<Step>): State
    requires IsRun(s, steps)
    decreases |steps|
  {
    if steps == [] then s else After(Apply(s, steps[0]), steps[1..])
  }

  /** The body binds and sends exactly as the dispatcher's one-step preparation over the same tables does. */
  lemma PreparesLikeTheDispatcher(s: State, u: nat, session: Option<string>, d: D.State, t: nat)
    requires IsPreparing(s, u) && d.db == DbOf(s.store.tasks[u].pc.base) && t in d.tasks
    requires var Preparing(name, command, call, arguments) := s.senders[u];
             d.tasks[t] == D.Starting(name, command, call, arguments)
    ensures var s' := DoPrepareBody(s, u, session);
            var task := s.store.tasks[u];
            var d' := D.DoPrepare(D.Config(task.run, task.scope), d, t, session);
            if s'.senders[u].Written? then
              d'.tasks[t] == D.Ready(s'.senders[u].request) && d'.db == s'.store.tasks[u].pc.out
            else s'.senders[u].Gone? && d'.tasks[t].Finished? && d'.db == d.db
  {
    var task := s.store.tasks[u];
    PrepareOutcome(D.Config(task.run, task.scope), d, t, session);
  }
}
