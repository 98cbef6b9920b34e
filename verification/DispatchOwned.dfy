/** Where the owned fields of a delivered request come from: the run's session and references, never the caller. */
module DispatchOwned {
  import opened Basics
  import opened Journal
  import opened Dispatch
  import opened DispatchSafety
  import Catalog
  import Json

  function SessionText(session: Option<string>): string {
    if session.Some? then session.value else ""
  }

  /** What is built for a call does not depend on its arguments at all. */
  lemma BuildIgnoresArguments(cfg: Config, command: string, call: string, arguments: Catalog.Payload,
                              forged: Catalog.Payload, session: Option<string>, refs: Refs)
    ensures Build(cfg, command, call, arguments, session, refs) == Build(cfg, command, call, forged, session, refs)
  {
    var refs' := Catalog.WithChangeset(command, refs, MintedChangeset(cfg));
    Catalog.OwnedFieldsAreWhatWasInjected(command, arguments, SessionText(session), refs');
    Catalog.OwnedFieldsAreWhatWasInjected(command, forged, SessionText(session), refs');
  }

  /** The owned fields built are those injected from the session and the references. */
  lemma BuiltOwnedFields(cfg: Config, command: string, call: string, arguments: Catalog.Payload,
                         session: Option<string>, refs: Refs)
    requires Build(cfg, command, call, arguments, session, refs).Some?
    ensures var built := Build(cfg, command, call, arguments, session, refs).value;
            OwnedAt(command, built.owned, SessionText(session), built.refs)
    ensures command == "create_proposal" ==> session.Some?
  {
    Catalog.OwnedFieldsAreWhatWasInjected(command, arguments, SessionText(session),
                                          Catalog.WithChangeset(command, refs, MintedChangeset(cfg)));
  }

  predicate OwnedAt(command: string, owned: Refs, session: string, refs: Refs) {
    owned == Catalog.InjectedFields(command, session, refs)
  }

  predicate NeedsSession(command: string) {
    command == "create_proposal"
  }

  // ---- The moment a call is bound ----

  /** A run cut at one preparation: what ran before it, the task and its session, and what ran later. */
  datatype Cut = Cut(before: seq<Action>, t: nat, session: Option<string>, later: seq<Action>)

  function Whole(cut: Cut): seq<Action> {
    cut.before + [Prepare(cut.t, cut.session)] + cut.later
  }

  /** The preparation of the cut puts the call's row into the journal. */
  ghost predicate AddsRow(cfg: Config, s: State, t: nat, session: Option<string>, call: string) {
    Enabled(cfg, s, Prepare(t, session)) && call !in s.db.calls && call in DoPrepare(cfg, s, t, session).db.calls
  }

  ghost predicate IsBinding(cfg: Config, s: State, cut: Cut, call: string) {
    && IsRun(cfg, s, cut.before)
    && AddsRow(cfg, Dispatch.After(cfg, s, cut.before), cut.t, cut.session, call)
  }

  /** The journal right after the call was bound. */
  ghost function BoundState(cfg: Config, s: State, cut: Cut, call: string): State
    requires IsBinding(cfg, s, cut, call)
  {
    DoPrepare(cfg, Dispatch.After(cfg, s, cut.before), cut.t, cut.session)
  }

  /** The row of a first attempt holds what is injected from its session and the references it leaves. */
  lemma FirstRowIsInjected(cfg: Config, s: State, t: nat, session: Option<string>, call: string)
    requires AddsRow(cfg, s, t, session, call)
    ensures var s' := DoPrepare(cfg, s, t, session);
            var row := s'.db.calls[call];
            && OwnedAt(row.fingerprint.command, row.owned, SessionText(session), ReadLifecycle(s'.db))
            && (NeedsSession(row.fingerprint.command) ==> session.Some?)
  {
    var Starting(name, command, call', arguments) := s.tasks[t];
    BuiltOwnedFields(cfg, command, call', arguments, session, ReadLifecycle(s.db));
  }

  lemma StepExtends(cfg: Config, s: State, a: Action)
    requires Enabled(cfg, s, a)
    ensures Extends(s.db, Apply(cfg, s, a).db)
  {
    if a.Prepare? {
      PrepareExtends(cfg, s, a.t, a.session);
    }
  }

  lemma PrepareExtends(cfg: Config, s: State, t: nat, session: Option<string>)
    requires t in s.tasks && s.tasks[t].Starting?
    ensures Extends(s.db, DoPrepare(cfg, s, t, session).db)
  {
    PrepareOutcome(cfg, s, t, session);
  }

  lemma {:induction false} RunKeepsRow(cfg: Config, s: State, actions: seq<Action>, call: string)
    requires IsRun(cfg, s, actions) && call in s.db.calls
    ensures var db := Dispatch.After(cfg, s, actions).db;
            call in db.calls && SameBinding(s.db.calls[call], db.calls[call])
    decreases |actions|
  {
    if actions != [] {
      StepExtends(cfg, s, actions[0]);
      RunKeepsRow(cfg, Apply(cfg, s, actions[0]), actions[1..], call);
    }
  }

  /** A run goes on from any point of it. */
  lemma {:induction false} RunSplits(cfg: Config, s: State, before: seq<Action>, rest: seq<Action>)
    requires IsRun(cfg, s, before + rest)
    ensures IsRun(cfg, s, before) && IsRun(cfg, Dispatch.After(cfg, s, before), rest)
    ensures Dispatch.After(cfg, s, before + rest) == Dispatch.After(cfg, Dispatch.After(cfg, s, before), rest)
    decreases |before|
  {
    if before == [] {
      assert before + rest == rest;
    } else {
      assert (before + rest)[1..] == before[1..] + rest;
      RunSplits(cfg, Apply(cfg, s, before[0]), before[1..], rest);
    }
  }

  lemma CutRuns(cfg: Config, cut: Cut, call: string)
    requires IsRun(cfg, START, Whole(cut)) && IsBinding(cfg, START, cut, call)
    ensures var s' := BoundState(cfg, START, cut, call);
            IsRun(cfg, s', cut.later) && Dispatch.After(cfg, START, Whole(cut)) == Dispatch.After(cfg, s', cut.later)
  {
    var step := [Prepare(cut.t, cut.session)];
    assert Whole(cut) == cut.before + (step + cut.later);
    RunSplits(cfg, START, cut.before, step + cut.later);
    assert (step + cut.later)[1..] == cut.later;
  }

  /** Only a preparation adds a row. */
  lemma OnlyPreparationsAddRows(cfg: Config, s: State, a: Action, call: string)
    requires Enabled(cfg, s, a) && call !in s.db.calls && call in Apply(cfg, s, a).db.calls
    ensures a.Prepare? && AddsRow(cfg, s, a.t, a.session, call)
  {
  }

  /** Every journalled call was bound at some moment of the run. */
  lemma {:induction false} FindBinding(cfg: Config, s: State, actions: seq<Action>, call: string) returns (cut: Cut)
    requires IsRun(cfg, s, actions) && call !in s.db.calls && call in Dispatch.After(cfg, s, actions).db.calls
    ensures Whole(cut) == actions && IsBinding(cfg, s, cut, call)
    decreases |actions|
  {
    var a, rest := actions[0], actions[1..];
    assert actions == [a] + rest;
    if call in Apply(cfg, s, a).db.calls {
      cut := BoundAtOnce(cfg, s, a, rest, call);
    } else {
      cut := FindBinding(cfg, Apply(cfg, s, a), rest, call);
      cut := OneStepEarlier(cfg, s, a, cut, call);
    }
  }

  lemma BoundAtOnce(cfg: Config, s: State, a: Action, rest: seq<Action>, call: string) returns (cut: Cut)
    requires Enabled(cfg, s, a) && call !in s.db.calls && call in Apply(cfg, s, a).db.calls
    ensures Whole(cut) == [a] + rest && IsBinding(cfg, s, cut, call)
  {
    OnlyPreparationsAddRows(cfg, s, a, call);
    cut := Cut([], a.t, a.session, rest);
    assert IsRun(cfg, s, []) && Dispatch.After(cfg, s, []) == s;
  }

  lemma OneStepEarlier(cfg: Config, s: State, a: Action, cut: Cut, call: string) returns (longer: Cut)
    requires Enabled(cfg, s, a) && IsBinding(cfg, Apply(cfg, s, a), cut, call)
    ensures Whole(longer) == [a] + Whole(cut) && IsBinding(cfg, s, longer, call)
  {
    longer := cut.(before := [a] + cut.before);
    WholeGrows(a, cut);
    StillBinding(cfg, s, a, cut, call);
  }

  lemma WholeGrows(a: Action, cut: Cut)
    ensures Whole(cut.(before := [a] + cut.before)) == [a] + Whole(cut)
  {
  }

  lemma StillBinding(cfg: Config, s: State, a: Action, cut: Cut, call: string)
    requires Enabled(cfg, s, a) && IsBinding(cfg, Apply(cfg, s, a), cut, call)
    ensures IsBinding(cfg, s, cut.(before := [a] + cut.before), call)
  {
    assert ([a] + cut.before)[1..] == cut.before;
  }

  // ---- Main result ----

  /** Field by field the input holds what is injected, and lacks what is not known. */
  ghost predicate Carries(input: Catalog.Payload, fields: Refs) {
    forall f | f in fields ::
      if fields[f].Some? then f in input && input[f] == Json.Str(fields[f].value) else f !in input
  }

  /**
   In every request ever sent, whatever the caller supplied, all owned fields of
   its command are those of one moment, the moment its call was bound: the
   session that attempt was given and the references the journal had then.  A
   field with no value at that moment is absent.
   */
  lemma OwnedFieldsAreNeverTheCallers(cfg: Config, actions: seq<Action>, q: Request)
    requires IsRun(cfg, START, actions) && q in Dispatch.After(cfg, START, actions).net
    ensures exists cut :: Whole(cut) == actions && IsBinding(cfg, START, cut, q.call)
    ensures forall cut | Whole(cut) == actions && IsBinding(cfg, START, cut, q.call) ::
              BoundWith(q, cut.session, ReadLifecycle(BoundState(cfg, START, cut, q.call).db))
  {
    SentIsKnown(cfg, actions, q);
    var cut := FindBinding(cfg, START, actions, q.call);
    forall cut | Whole(cut) == actions && IsBinding(cfg, START, cut, q.call)
      ensures BoundWith(q, cut.session, ReadLifecycle(BoundState(cfg, START, cut, q.call).db))
    {
      SentAsBound(cfg, cut, q);
    }
  }

  /** The request's owned fields are exactly those injected from the session and the references. */
  ghost predicate BoundWith(q: Request, session: Option<string>, refs: Refs) {
    var fields := Catalog.InjectedFields(q.command, SessionText(session), refs);
    && (NeedsSession(q.command) ==> session.Some?)
    && (forall f :: f in fields <==> f in Catalog.OwnedFields(q.command))
    && Carries(q.input, fields)
  }

  lemma SentAsBound(cfg: Config, cut: Cut, q: Request)
    requires IsRun(cfg, START, Whole(cut)) && q in Dispatch.After(cfg, START, Whole(cut)).net
    requires IsBinding(cfg, START, cut, q.call)
    ensures BoundWith(q, cut.session, ReadLifecycle(BoundState(cfg, START, cut, q.call).db))
  {
    var s' := BoundState(cfg, START, cut, q.call);
    FirstRowIsInjected(cfg, Dispatch.After(cfg, START, cut.before), cut.t, cut.session, q.call);
    CutRuns(cfg, cut, q.call);
    RunKeepsRow(cfg, s', cut.later, q.call);
    SentIsKnown(cfg, Whole(cut), q);
    Catalog.TablesAgree(q.command, SessionText(cut.session), ReadLifecycle(s'.db));
  }

  lemma SentIsKnown(cfg: Config, actions: seq<Action>, q: Request)
    requires IsRun(cfg, START, actions) && q in Dispatch.After(cfg, START, actions).net
    ensures Known(Dispatch.After(cfg, START, actions).db, q)
  {
    DispatchSafety.InvAlways(cfg, START, actions);
  }

  /** Arguments that differ only in owned fields are bound alike and sent alike. */
  lemma OwnedArgumentsMakeNoDifference(cfg: Config, command: string, call: string, arguments: Catalog.Payload,
                                       forged: Catalog.Payload, session: Option<string>, refs: Refs)
    requires forall f | f !in Catalog.OwnedFields(command) ::
               (f in arguments <==> f in forged) && (f in arguments ==> arguments[f] == forged[f])
    ensures var built := Build(cfg, command, call, arguments, session, refs);
            && built == Build(cfg, command, call, forged, session, refs)
            && (built.Some? ==> Catalog.Inject(arguments, built.value.owned) == Catalog.Inject(forged, built.value.owned))
  {
    BuildIgnoresArguments(cfg, command, call, arguments, forged, session, refs);
    var built := Build(cfg, command, call, arguments, session, refs);
    if built.Some? {
      BuiltOwnedFields(cfg, command, call, arguments, session, refs);
      Catalog.TablesAgree(command, SessionText(session), built.value.refs);
      Catalog.CallerCannotSupplyOwnedFields(command, built.value.owned, arguments, forged);
    }
  }
}
