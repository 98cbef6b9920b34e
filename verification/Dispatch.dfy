/**
 Bridged tool calls over a journal and a key-deduplicating engine.

 Any number of dispatch tasks run against one (run, scope) journal; each may be
 a first attempt or a retry, and each may crash, lose its response or be refused
 at any point.  The network keeps every request ever sent and may hand it to the
 engine at any later time, any number of times.
 */
module Dispatch {
  import opened Basics
  import opened Ids
  import opened Journal
  import Catalog
  import Json

  datatype Config = Config(run: string, scope: string)

  /** `AgentToolCall` in its command envelope. */
  datatype Request = Request(command: string, name: string, call: string, input: Catalog.Payload, key: Digest)

  /** What the engine answers, and keeps answering, for one key. */
  datatype Reply = Answered(data: Json.Value) | Denied

  datatype Task =
    | Starting(name: string, command: string, call: string, arguments: Catalog.Payload)
    | Ready(request: Request)
    | Waiting(request: Request)
    | Settling(request: Request, updates: map<string, string>, rejected: bool)
    | Finished

  /** What the journal's lifecycle references were ever changed by. */
  datatype Event = Minted(changeset: string) | Settled(call: string, updates: map<string, string>)

  datatype State = State(
    db: Db,
    engine: map<Digest, Reply>,
    net: set<Request>,
    applied: seq<Request>,        // requests whose key the engine had not seen
    tasks: map<nat, Task>,
    history: seq<Event>)

  datatype Action =
    | Begin(t: nat, name: string, command: string, call: string, arguments: Catalog.Payload)
    | Prepare(t: nat, session: Option<string>)
    | Send(t: nat)
    | Deliver(request: Request, reply: Reply)
    | Receive(t: nat)
    | RefuseDefinitely(t: nat)     // 400, 401, 403, 404 or 422
    | LoseOutcome(t: nat)          // any other failure: delivery stays ambiguous
    | Settle(t: nat)
    | Crash(t: nat)

  // ---- The dispatcher's own computations ----

  /** `json.dumps(owned, sort_keys=True)` */
  function OwnedText(command: string, owned: Refs): string {
    Json.DumpFields(Pairs(SortedFields(command), owned))
  }

  function Pairs(names: seq<string>, owned: Refs): seq<(string, Option<string>)> {
    seq(|names|, i requires 0 <= i < |names| => (names[i], Catalog.Ref(owned, names[i])))
  }

  function SortedFields(command: string): seq<string> {
    if command == "create_proposal" then ["changeset_id", "session_id"]
    else if command == "request_apply" then ["approval_id", "changeset_id"]
    else Catalog.OwnedFields(command)
  }

  function KeyOf(cfg: Config, command: string, call: string, owned: Refs): Option<Digest> {
    DeriveKey([cfg.run, cfg.scope, command, call, OwnedText(command, owned)])
  }

  /** `new_changeset_id("bridge")` */
  function MintedChangeset(cfg: Config): string {
    "cs:" + cfg.run + ":bridge"
  }

  /** The arguments after `_apply_injection`, from the references it leaves. */
  ghost function InjectedArguments(command: string, arguments: Catalog.Payload, session: string, refs: Refs): Catalog.Payload {
    Catalog.Inject(arguments, Catalog.InjectedFields(command, session, refs))
  }

  /** The `build` of one attempt; a session it needs and cannot have raises. */
  ghost function Build(cfg: Config, command: string, call: string, arguments: Catalog.Payload,
                 session: Option<string>, refs: Refs): Option<Built>
  {
    if command == "create_proposal" && session.None? then None
    else
      var refs' := Catalog.WithChangeset(command, refs, MintedChangeset(cfg));
      var s := if session.Some? then session.value else "";
      var owned := Catalog.OwnedOf(command, InjectedArguments(command, arguments, s, refs'));
      match KeyOf(cfg, command, call, owned)
      case None => None
      case Some(key) => Some(Built(refs', owned, key))
  }

  /** `_track`: only a revision and an approval are ever taken from a response. */
  function Track(reply: Reply): (updates: map<string, string>)
    ensures "changeset_id" !in updates
  {
    if reply.Answered? && reply.data.Obj? then
      TrackField(reply.data.fields, "changeset_revision", "revision")
      + TrackField(reply.data.fields, "approval_id", "approval_id")
    else map[]
  }

  function TrackField(data: Catalog.Payload, field: string, ref: string): map<string, string> {
    if field in data && data[field].Str? && data[field].s != "" then map[ref := data[field].s] else map[]
  }

  // ---- Steps ----

  /** Identity and key material are checked before anything is journalled. */
  predicate CanBegin(cfg: Config, command: string, call: string) {
    IsValidId(call) && DeriveKey([cfg.run, cfg.scope, command, call]).Some?
  }

  predicate Enabled(cfg: Config, s: State, a: Action) {
    match a
    case Begin(t, _, command, call, _) => t !in s.tasks && CanBegin(cfg, command, call)
    case Prepare(t, _) => t in s.tasks && s.tasks[t].Starting?
    case Send(t) => t in s.tasks && s.tasks[t].Ready?
    case Deliver(request, _) => request in s.net
    case Receive(t) => t in s.tasks && s.tasks[t].Waiting? && s.tasks[t].request.key in s.engine
    case RefuseDefinitely(t) => t in s.tasks && s.tasks[t].Waiting?
    case LoseOutcome(t) => t in s.tasks && s.tasks[t].Waiting?
    case Settle(t) => t in s.tasks && s.tasks[t].Settling?
    case Crash(t) => t in s.tasks
  }

  function Put(s: State, t: nat, task: Task): State {
    s.(tasks := s.tasks[t := task])
  }

  ghost function DoPrepare(cfg: Config, s: State, t: nat, session: Option<string>): State
    requires t in s.tasks && s.tasks[t].Starting?
  {
    var Starting(name, command, call, arguments) := s.tasks[t];
    var build := (refs: Refs) => Build(cfg, command, call, arguments, session, refs);
    var (db', prepared) := PrepareOn(s.db, call, Fingerprint(name, command, arguments), build);
    if !prepared.Bound? then Put(s, t, Finished)
    else
      var before := ReadLifecycle(s.db);
      var isNew := call !in s.db.calls;
      // A first attempt built its binding in place, in the arguments it goes on to send.
      var sending := if isNew then InjectedArguments(command, arguments, if session.Some? then session.value else "",
                                                     Catalog.WithChangeset(command, before, MintedChangeset(cfg)))
                     else arguments;
      var request := Request(command, name, call, Catalog.Inject(sending, prepared.owned), prepared.key);
      var mints := isNew && Catalog.WithChangeset(command, before, MintedChangeset(cfg)) != before;
      Put(s.(db := db', history := if mints then s.history + [Minted(MintedChangeset(cfg))] else s.history),
          t, Ready(request))
  }

  ghost function DoSettle(s: State, t: nat): State
    requires t in s.tasks && s.tasks[t].Settling?
  {
    var Settling(request, updates, rejected) := s.tasks[t];
    var counts := request.call in s.db.calls && s.db.calls[request.call].status.Pending?;
    Put(s.(db := CompleteOn(s.db, request.call, updates, rejected),
           history := if counts then s.history + [Settled(request.call, updates)] else s.history),
        t, Finished)
  }

  function DoDeliver(s: State, request: Request, reply: Reply): State {
    if request.key in s.engine then s
    else s.(engine := s.engine[request.key := reply], applied := s.applied + [request])
  }

  ghost function Apply(cfg: Config, s: State, a: Action): State
    requires Enabled(cfg, s, a)
  {
    match a
    case Begin(t, name, command, call, arguments) => Put(s, t, Starting(name, command, call, arguments))
    case Prepare(t, session) => DoPrepare(cfg, s, t, session)
    case Send(t) => Put(s.(net := s.net + {s.tasks[t].request}), t, Waiting(s.tasks[t].request))
    case Deliver(request, reply) => DoDeliver(s, request, reply)
    case Receive(t) =>
      var request := s.tasks[t].request;
      Put(s, t, Settling(request, Track(s.engine[request.key]), false))
    case RefuseDefinitely(t) => Put(s, t, Settling(s.tasks[t].request, map[], true))
    case LoseOutcome(t) => Put(s, t, Finished)
    case Settle(t) => DoSettle(s, t)
    case Crash(t) => Put(s, t, Finished)
  }

  const START := State(EMPTY_DB, map[], {}, [], map[], [])

  ghost predicate IsRun(cfg: Config, s: State, actions: seq<Action>)
    decreases |actions|
  {
    actions == [] || (Enabled(cfg, s, actions[0]) && IsRun(cfg, Apply(cfg, s, actions[0]), actions[1..]))
  }

  ghost function After(cfg: Config, s: State, actions: seq<Action>): State
    requires IsRun(cfg, s, actions)
    decreases |actions|
  {
    if actions == [] then s else After(cfg, Apply(cfg, s, actions[0]), actions[1..])
  }

  // ---- Keys ----

  lemma OwnedTextIsSeparatorFree(command: string, owned: Refs)
    ensures SeparatorFree(OwnedText(command, owned)) && OwnedText(command, owned) != ""
  {
    Json.DumpFieldsIsPrintable(Pairs(SortedFields(command), owned));
  }

  /** Two calls of one journal never share a key, whatever the run, scope and commands are called. */
  lemma CallsHaveTheirOwnKeys(cfg: Config, command: string, call: string, owned: Refs,
                              command': string, call': string, owned': Refs)
    requires IsValidId(call) && IsValidId(call')
    requires KeyOf(cfg, command, call, owned).Some?
    requires KeyOf(cfg, command, call, owned) == KeyOf(cfg, command', call', owned')
    ensures call == call' && OwnedText(command, owned) == OwnedText(command', owned')
  {
    var o, o' := OwnedText(command, owned), OwnedText(command', owned');
    OwnedTextIsSeparatorFree(command, owned);
    OwnedTextIsSeparatorFree(command', owned');
    ValidIdIsTheEngineGrammar(call);
    ValidIdIsTheEngineGrammar(call');
    LastTwoParts(cfg.run, cfg.scope, command, call, o);
    LastTwoParts(cfg.run, cfg.scope, command', call', o');
    var x := cfg.run + [SEPARATOR] + cfg.scope + [SEPARATOR] + command;
    var x' := cfg.run + [SEPARATOR] + cfg.scope + [SEPARATOR] + command';
    LastPartIsDetermined(x + [SEPARATOR] + call, o, x' + [SEPARATOR] + call', o');
    LastPartIsDetermined(x, call, x', call');
  }

  lemma LastTwoParts(a: string, b: string, c: string, d: string, e: string)
    ensures Join([a, b, c, d, e])
         == ((a + [SEPARATOR] + b + [SEPARATOR] + c) + [SEPARATOR] + d) + [SEPARATOR] + e
  {
    FivePartJoin(a, b, c, d, e);
    assert a + [SEPARATOR] + (b + [SEPARATOR] + (c + [SEPARATOR] + d + [SEPARATOR] + e))
        == ((a + [SEPARATOR] + b + [SEPARATOR] + c) + [SEPARATOR] + d) + [SEPARATOR] + e;
  }

  /** Nor do calls of two journals, for runs and scopes without the separator. */
  lemma JournalsHaveTheirOwnKeys(cfg: Config, command: string, call: string, owned: Refs,
                                 cfg': Config, command': string, call': string, owned': Refs)
    requires SeparatorFree(cfg.run) && SeparatorFree(cfg.scope)
    requires SeparatorFree(cfg'.run) && SeparatorFree(cfg'.scope)
    requires IsValidId(call) && IsValidId(call')
    requires KeyOf(cfg, command, call, owned).Some?
    requires KeyOf(cfg, command, call, owned) == KeyOf(cfg', command', call', owned')
    ensures cfg == cfg' && command == command' && call == call'
  {
    OwnedTextIsSeparatorFree(command, owned);
    OwnedTextIsSeparatorFree(command', owned');
    ValidIdIsTheEngineGrammar(call);
    ValidIdIsTheEngineGrammar(call');
    CallKeyIsInjective(cfg.run, cfg.scope, command, call, OwnedText(command, owned),
                       cfg'.run, cfg'.scope, command', call', OwnedText(command', owned'));
  }
}
