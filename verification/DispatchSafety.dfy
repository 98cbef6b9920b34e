/**
 What holds in every run of the dispatch protocol: a call is delivered with one
 input and one key, the engine applies it at most once, and the lifecycle
 references are the fold of the first completions.
 */
module DispatchSafety {
  import opened Basics
  import opened Ids
  import opened Journal
  import opened Dispatch
  import Catalog

  // ---- Deliveries ----

  /** The one request a journalled call may ever be delivered with. */
  ghost function RequestFor(call: string, row: Row): Request {
    Request(row.fingerprint.command, row.fingerprint.name, call,
            Catalog.Inject(row.fingerprint.arguments, row.owned), row.key)
  }

  ghost predicate Known(db: Db, request: Request) {
    request.call in db.calls && request == RequestFor(request.call, db.calls[request.call])
  }

  /** Every journalled call has a valid identity and the key its binding derives. */
  predicate Keyed(cfg: Config, db: Db) {
    forall c | c in db.calls :: IsValidId(c) && KeyFits(cfg, c, db.calls[c])
  }

  predicate KeyFits(cfg: Config, call: string, row: Row) {
    KeyOf(cfg, row.fingerprint.command, call, row.owned) == Some(row.key)
  }

  predicate Admitted(tasks: map<nat, Task>) {
    forall t | t in tasks && tasks[t].Starting? :: IsValidId(tasks[t].call)
  }

  ghost predicate TaskOk(s: State, task: Task) {
    match task
    case Starting(_, _, _, _) => true
    case Ready(request) => Known(s.db, request)
    case Waiting(request) => Known(s.db, request) && request in s.net
    case Settling(request, updates, rejected) =>
      Known(s.db, request) && request in s.net
      && (if rejected then updates == map[]
          else request.key in s.engine && updates == Track(s.engine[request.key]))
    case Finished => true
  }

  ghost predicate TasksOk(s: State) {
    forall t | t in s.tasks :: TaskOk(s, s.tasks[t])
  }

  predicate CompletedAreApplied(s: State) {
    forall c | c in s.db.calls && s.db.calls[c].status.Completed? :: s.db.calls[c].key in s.engine
  }

  ghost predicate NetOk(s: State) {
    forall q | q in s.net :: Known(s.db, q)
  }

  ghost predicate EngineOk(s: State) {
    && (forall i | 0 <= i < |s.applied| :: s.applied[i] in s.net && s.applied[i].key in s.engine)
    && (forall i, j | 0 <= i < j < |s.applied| :: s.applied[i].key != s.applied[j].key)
    && (forall k | k in s.engine :: IsApplied(s.applied, k))
  }

  ghost predicate Deliveries(s: State) {
    OnePending(s.db) && CompletedAreApplied(s) && NetOk(s) && TasksOk(s) && EngineOk(s)
  }

  predicate Keys(cfg: Config, s: State) {
    Keyed(cfg, s.db) && Admitted(s.tasks)
  }

  /** Rows are added and settled, never rebound. */
  predicate Extends(db: Db, db': Db) {
    forall c | c in db.calls :: c in db'.calls && SameBinding(db.calls[c], db'.calls[c])
  }

  lemma KnownStays(db: Db, db': Db, request: Request)
    requires Extends(db, db') && Known(db, request)
    ensures Known(db', request)
  {
  }

  lemma TaskMoves(s: State, t: nat, task: Task)
    requires Deliveries(s) && TaskOk(s, task)
    ensures Deliveries(Put(s, t, task))
  {
    var s' := Put(s, t, task);
    forall u | u in s'.tasks ensures TaskOk(s', s'.tasks[u]) {
      assert u != t ==> TaskOk(s, s.tasks[u]);
    }
  }

  /** Growing the journal leaves every request what it was. */
  lemma JournalGrows(s: State, db: Db, history: seq<Event>)
    requires Deliveries(s) && Extends(s.db, db) && OnePending(db)
    requires CompletedAreApplied(s.(db := db))
    ensures Deliveries(s.(db := db, history := history))
  {
    var s' := s.(db := db, history := history);
    forall q | q in s'.net ensures Known(s'.db, q) {
      KnownStays(s.db, db, q);
    }
    forall u | u in s'.tasks ensures TaskOk(s', s'.tasks[u]) {
      assert TaskOk(s, s.tasks[u]);
    }
  }

  // ---- Preparing ----

  /** A retry leaves the journal alone and sends what the row stands for. */
  ghost predicate Resends(s: State, s': State, t: nat, call: string) {
    call in s.db.calls && s' == Put(s, t, Ready(RequestFor(call, s.db.calls[call])))
  }

  /** A first attempt adds one pending row and sends what that row stands for. */
  ghost predicate Binds(cfg: Config, s: State, s': State, t: nat, call: string, refs: Refs, row: Row) {
    && call !in s.db.calls && !HasPending(s.db)
    && row.status.Pending? && KeyFits(cfg, call, row)
    && Mints(cfg, ReadLifecycle(s.db), s.history, refs, s'.history)
    && s' == Put(s.(db := Db(s.db.calls[call := row], Some(refs)), history := s'.history),
                 t, Ready(RequestFor(call, row)))
  }

  /** The references are left alone, or gain the one minted changeset id where there was none. */
  predicate Mints(cfg: Config, refs: Refs, history: seq<Event>, refs': Refs, history': seq<Event>) {
    || (refs' == refs && history' == history)
    || (&& Catalog.Ref(refs, "changeset_id").None?
        && refs' == refs["changeset_id" := Some(MintedChangeset(cfg))]
        && history' == history + [Minted(MintedChangeset(cfg))])
  }

  /** With nothing pending, a new call whose binding can be built is bound. */
  lemma FirstAttemptBinds(cfg: Config, s: State, t: nat, session: Option<string>) returns (refs: Refs, row: Row)
    requires t in s.tasks && s.tasks[t].Starting? && s.tasks[t].call !in s.db.calls && !HasPending(s.db)
    requires var task := s.tasks[t];
             Build(cfg, task.command, task.call, task.arguments, session, ReadLifecycle(s.db)).Some?
    ensures Binds(cfg, s, DoPrepare(cfg, s, t, session), t, s.tasks[t].call, refs, row)
  {
    var Starting(name, command, call, arguments) := s.tasks[t];
    var built := Build(cfg, command, call, arguments, session, ReadLifecycle(s.db)).value;
    BuiltIsWhatIsSent(cfg, command, call, arguments, session, ReadLifecycle(s.db));
    refs := built.refs;
    row := Row(Fingerprint(name, command, arguments), built.owned, built.key, Pending);
  }

  lemma PrepareOutcome(cfg: Config, s: State, t: nat, session: Option<string>)
    requires t in s.tasks && s.tasks[t].Starting?
    ensures var s' := DoPrepare(cfg, s, t, session); var call := s.tasks[t].call;
            || s' == Put(s, t, Finished)
            || Resends(s, s', t, call)
            || exists refs, row :: Binds(cfg, s, s', t, call, refs, row)
  {
    if s.tasks[t].call !in s.db.calls && DoPrepare(cfg, s, t, session) != Put(s, t, Finished) {
      var refs, row := FirstAttemptBinds(cfg, s, t, session);
    }
  }

  /** Injecting again what was injected in place changes nothing, so the first delivery equals a retry. */
  lemma BuiltIsWhatIsSent(cfg: Config, command: string, call: string, arguments: Catalog.Payload,
                          session: Option<string>, refs: Refs)
    requires Build(cfg, command, call, arguments, session, refs).Some?
    ensures var built := Build(cfg, command, call, arguments, session, refs).value;
            var s := if session.Some? then session.value else "";
            && built.refs == Catalog.WithChangeset(command, refs, MintedChangeset(cfg))
            && Catalog.Inject(InjectedArguments(command, arguments, s, built.refs), built.owned)
               == Catalog.Inject(arguments, built.owned)
            && KeyOf(cfg, command, call, built.owned) == Some(built.key)
  {
    var s := if session.Some? then session.value else "";
    Catalog.RetryInputEqualsFirstInput(command, arguments, s,
                                       Catalog.WithChangeset(command, refs, MintedChangeset(cfg)));
  }

  lemma BindKeepsDeliveries(cfg: Config, s: State, s': State, t: nat, call: string, refs: Refs, row: Row)
    requires Deliveries(s) && Binds(cfg, s, s', t, call, refs, row)
    ensures Deliveries(s')
  {
    var db := Db(s.db.calls[call := row], Some(refs));
    JournalGrows(s, db, s'.history);
    TaskMoves(s.(db := db, history := s'.history), t, Ready(RequestFor(call, row)));
  }

  lemma PrepareKeepsDeliveries(cfg: Config, s: State, t: nat, session: Option<string>)
    requires Deliveries(s) && t in s.tasks && s.tasks[t].Starting?
    ensures Deliveries(DoPrepare(cfg, s, t, session))
  {
    var s' := DoPrepare(cfg, s, t, session);
    var call := s.tasks[t].call;
    PrepareOutcome(cfg, s, t, session);
    if s' == Put(s, t, Finished) {
      TaskMoves(s, t, Finished);
    } else if Resends(s, s', t, call) {
      TaskMoves(s, t, Ready(RequestFor(call, s.db.calls[call])));
    } else {
      var refs, row :| Binds(cfg, s, s', t, call, refs, row);
      BindKeepsDeliveries(cfg, s, s', t, call, refs, row);
    }
  }

  lemma PrepareKeepsKeys(cfg: Config, s: State, t: nat, session: Option<string>)
    requires Keys(cfg, s) && t in s.tasks && s.tasks[t].Starting?
    ensures Keys(cfg, DoPrepare(cfg, s, t, session))
  {
    var s' := DoPrepare(cfg, s, t, session);
    var call := s.tasks[t].call;
    PrepareOutcome(cfg, s, t, session);
    if s' != Put(s, t, Finished) && !Resends(s, s', t, call) {
      var refs, row :| Binds(cfg, s, s', t, call, refs, row);
      BindKeepsKeys(cfg, s, s', t, call, refs, row);
    }
  }

  lemma BindKeepsKeys(cfg: Config, s: State, s': State, t: nat, call: string, refs: Refs, row: Row)
    requires Keys(cfg, s) && IsValidId(call) && Binds(cfg, s, s', t, call, refs, row)
    ensures Keys(cfg, s')
  {
  }

  // ---- The other steps ----

  lemma CompletionExtends(db: Db, call: string, updates: map<string, string>, rejected: bool)
    requires OnePending(db)
    ensures var db' := CompleteOn(db, call, updates, rejected); OnePending(db') && Extends(db, db')
  {
  }

  lemma SettleKeepsDeliveries(s: State, t: nat)
    requires Deliveries(s) && t in s.tasks && s.tasks[t].Settling?
    ensures Deliveries(DoSettle(s, t))
  {
    var s' := DoSettle(s, t);
    var task := s.tasks[t];
    assert TaskOk(s, task);
    CompletionExtends(s.db, task.request.call, task.updates, task.rejected);
    CompletionIsApplied(s, task.request, task.updates, task.rejected);
    JournalGrows(s, s'.db, s'.history);
    TaskMoves(s.(db := s'.db, history := s'.history), t, Finished);
  }

  /** A call completes only once the engine has seen its key. */
  lemma CompletionIsApplied(s: State, request: Request, updates: map<string, string>, rejected: bool)
    requires CompletedAreApplied(s) && Known(s.db, request) && (rejected || request.key in s.engine)
    ensures CompletedAreApplied(s.(db := CompleteOn(s.db, request.call, updates, rejected)))
  {
  }

  lemma CompletionKeepsKeyed(cfg: Config, db: Db, call: string, updates: map<string, string>, rejected: bool)
    requires Keyed(cfg, db)
    ensures Keyed(cfg, CompleteOn(db, call, updates, rejected))
  {
    var db' := CompleteOn(db, call, updates, rejected);
    forall c | c in db'.calls ensures IsValidId(c) && KeyFits(cfg, c, db'.calls[c]) {
      assert KeyFits(cfg, c, db.calls[c]);
    }
  }

  lemma SendKeepsDeliveries(s: State, t: nat)
    requires Deliveries(s) && t in s.tasks && s.tasks[t].Ready?
    ensures Deliveries(Put(s.(net := s.net + {s.tasks[t].request}), t, Waiting(s.tasks[t].request)))
  {
    assert TaskOk(s, s.tasks[t]);
    var s1 := s.(net := s.net + {s.tasks[t].request});
    forall u | u in s1.tasks ensures TaskOk(s1, s1.tasks[u]) {
      assert TaskOk(s, s.tasks[u]);
    }
    TaskMoves(s1, t, Waiting(s.tasks[t].request));
  }

  lemma DeliverKeepsDeliveries(s: State, request: Request, reply: Reply)
    requires Deliveries(s) && request in s.net
    ensures Deliveries(DoDeliver(s, request, reply))
  {
    var s' := DoDeliver(s, request, reply);
    if request.key !in s.engine {
      forall u | u in s'.tasks ensures TaskOk(s', s'.tasks[u]) {
        assert TaskOk(s, s.tasks[u]);
      }
      EngineAfterDelivery(s, request, reply);
    }
  }

  /** Every key the engine has seen is that of an applied request. */
  ghost predicate IsApplied(applied: seq<Request>, key: Digest) {
    exists i | 0 <= i < |applied| :: applied[i].key == key
  }

  lemma AppliedStays(applied: seq<Request>, request: Request, key: Digest)
    ensures IsApplied(applied + [request], key) <==> IsApplied(applied, key) || key == request.key
  {
    var more := applied + [request];
    if IsApplied(applied, key) {
      var i :| 0 <= i < |applied| && applied[i].key == key;
      assert more[i].key == key;
    }
    assert more[|applied|] == request;
  }

  lemma EngineAfterDelivery(s: State, request: Request, reply: Reply)
    requires EngineOk(s) && request in s.net && request.key !in s.engine
    ensures EngineOk(DoDeliver(s, request, reply))
  {
    var s' := DoDeliver(s, request, reply);
    forall k | k in s'.engine ensures IsApplied(s'.applied, k) {
      AppliedStays(s.applied, request, k);
    }
  }

  lemma StepKeepsDeliveries(cfg: Config, s: State, a: Action)
    requires Deliveries(s) && Enabled(cfg, s, a)
    ensures Deliveries(Apply(cfg, s, a))
  {
    match a
    case Begin(t, name, command, call, arguments) => TaskMoves(s, t, Starting(name, command, call, arguments));
    case Prepare(t, session) => PrepareKeepsDeliveries(cfg, s, t, session);
    case Send(t) => SendKeepsDeliveries(s, t);
    case Deliver(request, reply) => DeliverKeepsDeliveries(s, request, reply);
    case Receive(t) => TaskMoves(s, t, Apply(cfg, s, a).tasks[t]) by { assert TaskOk(s, s.tasks[t]); }
    case RefuseDefinitely(t) => TaskMoves(s, t, Apply(cfg, s, a).tasks[t]) by { assert TaskOk(s, s.tasks[t]); }
    case LoseOutcome(t) => TaskMoves(s, t, Finished);
    case Settle(t) => SettleKeepsDeliveries(s, t);
    case Crash(t) => TaskMoves(s, t, Finished);
  }

  lemma StepKeepsKeys(cfg: Config, s: State, a: Action)
    requires Keys(cfg, s) && Enabled(cfg, s, a)
    ensures Keys(cfg, Apply(cfg, s, a))
  {
    match a
    case Prepare(t, session) => PrepareKeepsKeys(cfg, s, t, session);
    case Settle(t) =>
      CompletionKeepsKeyed(cfg, s.db, s.tasks[t].request.call, s.tasks[t].updates, s.tasks[t].rejected);
    case _ =>
  }

  lemma {:induction false} InvAlways(cfg: Config, s: State, actions: seq<Action>)
    requires Keys(cfg, s) && Deliveries(s) && IsRun(cfg, s, actions)
    ensures var s' := Dispatch.After(cfg, s, actions); Keys(cfg, s') && Deliveries(s')
    decreases |actions|
  {
    if actions != [] {
      StepKeepsKeys(cfg, s, actions[0]);
      StepKeepsDeliveries(cfg, s, actions[0]);
      InvAlways(cfg, Apply(cfg, s, actions[0]), actions[1..]);
    }
  }

  // ---- Main results on delivery ----

  /** Every delivery of a logical call, first or retried, carries the same command, name, input and key. */
  lemma RetriesSendTheSameRequest(cfg: Config, actions: seq<Action>, q: Request, r: Request)
    requires IsRun(cfg, START, actions)
    requires q in Dispatch.After(cfg, START, actions).net && r in Dispatch.After(cfg, START, actions).net
    ensures q.call == r.call ==> q == r
    ensures q.key == r.key ==> q == r
  {
    InvAlways(cfg, START, actions);
    var s := Dispatch.After(cfg, START, actions);
    assert Known(s.db, q) && Known(s.db, r);
    if q.key == r.key {
      var a, b := s.db.calls[q.call], s.db.calls[r.call];
      assert KeyFits(cfg, q.call, a) && KeyFits(cfg, r.call, b);
      CallsHaveTheirOwnKeys(cfg, a.fingerprint.command, q.call, a.owned, b.fingerprint.command, r.call, b.owned);
    }
  }

  /** Over every run with crashes, lost responses and retries the engine applies each call at most once. */
  lemma EachCallIsAppliedAtMostOnce(cfg: Config, actions: seq<Action>, i: nat, j: nat)
    requires IsRun(cfg, START, actions)
    requires i < j < |Dispatch.After(cfg, START, actions).applied|
    ensures var applied := Dispatch.After(cfg, START, actions).applied; applied[i].call != applied[j].call
  {
    InvAlways(cfg, START, actions);
    var s := Dispatch.After(cfg, START, actions);
    assert Known(s.db, s.applied[i]) && Known(s.db, s.applied[j]);
  }

  /** A call that settles as completed settles with what the engine answered to that very request. */
  lemma AnswersBelongToTheirCall(cfg: Config, actions: seq<Action>, t: nat)
    requires IsRun(cfg, START, actions)
    requires var s := Dispatch.After(cfg, START, actions);
             t in s.tasks && s.tasks[t].Settling? && !s.tasks[t].rejected
    ensures var s := Dispatch.After(cfg, START, actions);
            var request := s.tasks[t].request;
            && request.key in s.engine && s.tasks[t].updates == Track(s.engine[request.key])
            && exists i | 0 <= i < |s.applied| :: s.applied[i] == request
  {
    InvAlways(cfg, START, actions);
    var s := Dispatch.After(cfg, START, actions);
    assert TaskOk(s, s.tasks[t]);
    assert IsApplied(s.applied, s.tasks[t].request.key);
    var i :| 0 <= i < |s.applied| && s.applied[i].key == s.tasks[t].request.key;
    RetriesSendTheSameRequest(cfg, actions, s.applied[i], s.tasks[t].request);
  }

  /** What was sent stays in flight and what was answered stays answered. */
  lemma {:induction false} NothingIsTakenBack(cfg: Config, s: State, actions: seq<Action>, request: Request)
    requires IsRun(cfg, s, actions) && request in s.net && request.key in s.engine
    ensures var s' := Dispatch.After(cfg, s, actions);
            request in s'.net && request.key in s'.engine && s'.engine[request.key] == s.engine[request.key]
    decreases |actions|
  {
    if actions != [] {
      SentStays(cfg, s, actions[0], request);
      NothingIsTakenBack(cfg, Apply(cfg, s, actions[0]), actions[1..], request);
    }
  }

  lemma SentStays(cfg: Config, s: State, a: Action, request: Request)
    requires Enabled(cfg, s, a) && request in s.net && request.key in s.engine
    ensures var s' := Apply(cfg, s, a);
            request in s'.net && request.key in s'.engine && s'.engine[request.key] == s.engine[request.key]
  {
  }

  predicate SettlesAnswered(s: State, t: nat, call: string) {
    t in s.tasks && s.tasks[t].Settling? && !s.tasks[t].rejected && s.tasks[t].request.call == call
  }

  /** Every attempt at a call that gets an answer, however much later, has the same request and tracks the same updates. */
  lemma EveryAttemptTracksTheSame(cfg: Config, actions: seq<Action>, later: seq<Action>, call: string, t: nat, u: nat)
    requires IsRun(cfg, START, actions) && IsRun(cfg, Dispatch.After(cfg, START, actions), later)
    requires var s := Dispatch.After(cfg, START, actions);
             SettlesAnswered(s, t, call) && SettlesAnswered(Dispatch.After(cfg, s, later), u, call)
    ensures var s := Dispatch.After(cfg, START, actions);
            var s' := Dispatch.After(cfg, s, later);
            s.tasks[t].request == s'.tasks[u].request && s.tasks[t].updates == s'.tasks[u].updates
  {
    InvAlways(cfg, START, actions);
    var s := Dispatch.After(cfg, START, actions);
    InvAlways(cfg, s, later);
    var s' := Dispatch.After(cfg, s, later);
    assert TaskOk(s, s.tasks[t]) && TaskOk(s', s'.tasks[u]);
    NothingIsTakenBack(cfg, s, later, s.tasks[t].request);
    assert Known(s'.db, s.tasks[t].request);
  }

  lemma AtMostOneCallIsPending(cfg: Config, actions: seq<Action>)
    requires IsRun(cfg, START, actions)
    ensures OnePending(Dispatch.After(cfg, START, actions).db)
  {
    InvAlways(cfg, START, actions);
  }

  /** Another call is pending in the journal. */
  ghost predicate Overlaps(s: State, request: Request) {
    exists c | c in s.db.calls && c != request.call :: s.db.calls[c].status.Pending?
  }

  /**
   Mutations are meant never to overlap.  A request whose key the engine has not
   seen belongs to a call not yet completed, and delivering it overlaps another
   pending call exactly when its own call was recorded as rejected while the
   request was still in flight.
   */
  lemma OverlapExactlyAfterRejection(cfg: Config, actions: seq<Action>, request: Request)
    requires IsRun(cfg, START, actions)
    requires var s := Dispatch.After(cfg, START, actions); request in s.net && request.key !in s.engine
    ensures var s := Dispatch.After(cfg, START, actions);
            && request.call in s.db.calls && !s.db.calls[request.call].status.Completed?
            && (Overlaps(s, request) <==> s.db.calls[request.call].status.Rejected? && HasPending(s.db))
  {
    InvAlways(cfg, START, actions);
    var s := Dispatch.After(cfg, START, actions);
    assert Known(s.db, request);
  }
}
