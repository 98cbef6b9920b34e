/** A run in which a rejected call is applied while another call is pending. */
module DispatchLimits {
  import opened Basics
  import opened Ids
  import opened Journal
  import opened Dispatch
  import opened DispatchSafety
  import Catalog

  ghost predicate Reaches(cfg: Config, s: State) {
    exists actions :: IsRun(cfg, START, actions) && Dispatch.After(cfg, START, actions) == s
  }

  lemma {:induction false} RunExtends(cfg: Config, s: State, actions: seq<Action>, a: Action)
    requires IsRun(cfg, s, actions) && Enabled(cfg, Dispatch.After(cfg, s, actions), a)
    ensures IsRun(cfg, s, actions + [a])
    ensures Dispatch.After(cfg, s, actions + [a]) == Apply(cfg, Dispatch.After(cfg, s, actions), a)
    decreases |actions|
  {
    if actions == [] {
      assert actions + [a] == [a] && [a][1..] == [];
    } else {
      RunExtends(cfg, Apply(cfg, s, actions[0]), actions[1..], a);
      assert (actions + [a])[1..] == actions[1..] + [a];
    }
  }

  lemma Then(cfg: Config, s: State, a: Action) returns (s': State)
    requires Reaches(cfg, s) && Enabled(cfg, s, a)
    ensures s' == Apply(cfg, s, a) && Reaches(cfg, s')
  {
    s' := Apply(cfg, s, a);
    var actions :| IsRun(cfg, START, actions) && Dispatch.After(cfg, START, actions) == s;
    RunExtends(cfg, START, actions, a);
  }

  const SESSION := "session"

  lemma OneMorePart(material: seq<string>, part: string)
    requires DeriveKey(material).Some? && part != ""
    ensures DeriveKey(material + [part]).Some?
  {
  }

  lemma KeyIsDerived(cfg: Config, command: string, call: string, owned: Refs)
    requires CanBegin(cfg, command, call)
    ensures KeyOf(cfg, command, call, owned).Some?
  {
    OwnedTextIsSeparatorFree(command, owned);
    var four, text := [cfg.run, cfg.scope, command, call], OwnedText(command, owned);
    OneMorePart(four, text);
    assert four + [text] == [cfg.run, cfg.scope, command, call, text];
  }

  lemma BuildSucceeds(cfg: Config, command: string, call: string, refs: Refs)
    requires CanBegin(cfg, command, call)
    ensures Build(cfg, command, call, map[], Some(SESSION), refs).Some?
  {
    var refs' := Catalog.WithChangeset(command, refs, MintedChangeset(cfg));
    KeyIsDerived(cfg, command, call, Catalog.OwnedOf(command, InjectedArguments(command, map[], SESSION, refs')));
  }

  lemma Preparing(cfg: Config, s: State, t: nat) returns (s': State, row: Row)
    requires Reaches(cfg, s) && t in s.tasks && s.tasks[t].Starting? && s.tasks[t].arguments == map[]
    requires s.tasks[t].call !in s.db.calls && !HasPending(s.db)
    requires CanBegin(cfg, s.tasks[t].command, s.tasks[t].call)
    ensures Reaches(cfg, s') && s'.db.calls == s.db.calls[s.tasks[t].call := row] && row.status.Pending?
    ensures s'.tasks == s.tasks[t := Ready(RequestFor(s.tasks[t].call, row))]
    ensures s'.net == s.net && s'.engine == s.engine
  {
    BuildSucceeds(cfg, s.tasks[t].command, s.tasks[t].call, ReadLifecycle(s.db));
    var refs;
    refs, row := FirstAttemptBinds(cfg, s, t, Some(SESSION));
    s' := Then(cfg, s, Prepare(t, Some(SESSION)));
  }

  lemma Beginning(cfg: Config, s: State, t: nat, command: string, call: string) returns (s': State)
    requires Reaches(cfg, s) && t !in s.tasks && CanBegin(cfg, command, call)
    ensures Reaches(cfg, s') && s' == Put(s, t, Starting("tool", command, call, map[]))
  {
    s' := Then(cfg, s, Begin(t, "tool", command, call, map[]));
  }

  /** With nothing pending a new call is bound and ready to send. */
  lemma Binding(cfg: Config, s: State, t: nat, command: string, call: string) returns (s': State, row: Row)
    requires Reaches(cfg, s) && t !in s.tasks && CanBegin(cfg, command, call)
    requires call !in s.db.calls && !HasPending(s.db)
    ensures Reaches(cfg, s') && s'.db.calls == s.db.calls[call := row] && row.status.Pending?
    ensures s'.tasks == s.tasks[t := Ready(RequestFor(call, row))] && s'.net == s.net && s'.engine == s.engine
  {
    var s1 := Beginning(cfg, s, t, command, call);
    s', row := Preparing(cfg, s1, t);
  }

  lemma Rejecting(cfg: Config, s: State, t: nat) returns (s': State)
    requires Reaches(cfg, s) && t in s.tasks && s.tasks[t].Ready?
    requires var call := s.tasks[t].request.call; call in s.db.calls && s.db.calls[call].status.Pending?
    ensures var request := s.tasks[t].request;
            && Reaches(cfg, s') && s'.net == s.net + {request} && s'.engine == s.engine && s'.tasks.Keys == s.tasks.Keys
            && s'.db.calls == s.db.calls[request.call := s.db.calls[request.call].(status := Rejected)]
  {
    s' := Then(cfg, s, Send(t));
    s' := Then(cfg, s', RefuseDefinitely(t));
    s' := Then(cfg, s', Settle(t));
  }

  /** Whatever the journal, the command and the two calls are called, the overlap can happen. */
  lemma ARejectedCallCanOverlap(cfg: Config, command: string, first: string, second: string)
    requires CanBegin(cfg, command, first) && CanBegin(cfg, command, second) && first != second
    ensures exists s, request ::
              Reaches(cfg, s) && request in s.net && request.key !in s.engine && Overlaps(s, request)
  {
    assert IsRun(cfg, START, []) && Dispatch.After(cfg, START, []) == START;
    var s0, row := Binding(cfg, START, 0, command, first);
    var s1 := Rejecting(cfg, s0, 0);
    assert s1.db.calls == map[first := row.(status := Rejected)];
    var s2, row' := Binding(cfg, s1, 1, command, second);
    assert s2.db.calls[second].status.Pending?;
    assert Overlaps(s2, RequestFor(first, row));
  }
}
