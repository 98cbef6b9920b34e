/**
 The lifecycle references of a journal are, in every run, the fold of its
 history: the one changeset id it minted and the first completion of each call.
 */
module DispatchLifecycle {
  import opened Basics
  import opened Journal
  import opened Dispatch
  import opened DispatchSafety
  import Catalog

  ghost function Changed(refs: Refs, e: Event): Refs {
    if e.Minted? then refs["changeset_id" := Some(e.changeset)] else Updated(refs, e.updates)
  }

  ghost function Fold(history: seq<Event>): Refs {
    if history == [] then NO_REFS
    else Changed(Fold(history[..|history| - 1]), history[|history| - 1])
  }

  lemma FoldSnoc(history: seq<Event>, e: Event)
    ensures Fold(history + [e]) == Changed(Fold(history), e)
  {
    assert (history + [e])[..|history|] == history;
  }

  predicate Settles(e: Event, call: string) {
    e.Settled? && e.call == call
  }

  predicate EventOk(cfg: Config, db: Db, e: Event) {
    match e
    case Minted(changeset) => changeset == MintedChangeset(cfg)
    case Settled(call, updates) =>
      call in db.calls && !db.calls[call].status.Pending? && "changeset_id" !in updates
  }

  /** No call settles twice and no changeset is minted twice. */
  predicate Once(history: seq<Event>) {
    forall i, j | 0 <= i < j < |history| :: Apart(history[i], history[j])
  }

  predicate Apart(e: Event, e': Event) {
    match e
    case Minted(_) => !e'.Minted?
    case Settled(call, _) => !Settles(e', call)
  }

  ghost predicate HasSettled(history: seq<Event>, call: string) {
    exists i | 0 <= i < |history| :: Settles(history[i], call)
  }

  ghost predicate HasMinted(history: seq<Event>) {
    exists i | 0 <= i < |history| :: history[i].Minted?
  }

  predicate EventsOk(cfg: Config, db: Db, history: seq<Event>) {
    forall i | 0 <= i < |history| :: EventOk(cfg, db, history[i])
  }

  ghost predicate Recorded(db: Db, history: seq<Event>) {
    forall c | c in db.calls && !db.calls[c].status.Pending? :: HasSettled(history, c)
  }

  ghost predicate Log(cfg: Config, db: Db, history: seq<Event>) {
    && ReadLifecycle(db) == Fold(history)
    && EventsOk(cfg, db, history) && Once(history) && Recorded(db, history)
    && Catalog.Ref(Fold(history), "changeset_id")
       == if HasMinted(history) then Some(MintedChangeset(cfg)) else None
  }

  predicate UpdatesOk(tasks: map<nat, Task>) {
    forall t | t in tasks && tasks[t].Settling? :: "changeset_id" !in tasks[t].updates
  }

  ghost predicate Inv(cfg: Config, s: State) {
    Log(cfg, s.db, s.history) && UpdatesOk(s.tasks)
  }

  lemma MintKeepsLog(cfg: Config, db: Db, history: seq<Event>, call: string, row: Row, refs: Refs, history': seq<Event>)
    requires Log(cfg, db, history) && call !in db.calls && row.status.Pending?
    requires Mints(cfg, ReadLifecycle(db), history, refs, history')
    ensures Log(cfg, Db(db.calls[call := row], Some(refs)), history')
  {
    if history' != history {
      FoldSnoc(history, Minted(MintedChangeset(cfg)));
      assert history'[|history|].Minted?;
    }
    forall c | c in db.calls && !db.calls[c].status.Pending? ensures HasSettled(history', c) {
      var i :| 0 <= i < |history| && Settles(history[i], c);
      assert Settles(history'[i], c);
    }
  }

  lemma SettledStays(history: seq<Event>, e: Event, call: string)
    ensures HasSettled(history + [e], call) <==> HasSettled(history, call) || Settles(e, call)
    ensures HasMinted(history + [e]) <==> HasMinted(history) || e.Minted?
  {
    var history' := history + [e];
    if HasSettled(history, call) {
      var i :| 0 <= i < |history| && Settles(history[i], call);
      assert Settles(history'[i], call);
    }
    if HasMinted(history) {
      var i :| 0 <= i < |history| && history[i].Minted?;
      assert history'[i].Minted?;
    }
    assert history'[|history|] == e;
  }

  lemma CompletionKeepsLog(cfg: Config, db: Db, history: seq<Event>, call: string, updates: map<string, string>, rejected: bool)
    requires Log(cfg, db, history) && "changeset_id" !in updates
    requires call in db.calls && db.calls[call].status.Pending?
    ensures Log(cfg, CompleteOn(db, call, updates, rejected), history + [Settled(call, updates)])
  {
    var e := Settled(call, updates);
    var db' := CompleteOn(db, call, updates, rejected);
    FoldSnoc(history, e);
    SettledStays(history, e, call);
    forall i | 0 <= i < |history| ensures EventOk(cfg, db', history[i]) && Apart(history[i], e) {
      assert EventOk(cfg, db, history[i]);
    }
    forall c | c in db'.calls && !db'.calls[c].status.Pending? ensures HasSettled(history + [e], c) {
      SettledStays(history, e, c);
    }
  }

  lemma PrepareKeepsInv(cfg: Config, s: State, t: nat, session: Option<string>)
    requires Inv(cfg, s) && t in s.tasks && s.tasks[t].Starting?
    ensures Inv(cfg, DoPrepare(cfg, s, t, session)) && s.history <= DoPrepare(cfg, s, t, session).history
  {
    var s' := DoPrepare(cfg, s, t, session);
    var call := s.tasks[t].call;
    PrepareOutcome(cfg, s, t, session);
    if s' != Put(s, t, Finished) && !Resends(s, s', t, call) {
      var refs, row :| Binds(cfg, s, s', t, call, refs, row);
      BindKeepsInv(cfg, s, s', t, call, refs, row);
    }
  }

  lemma BindKeepsInv(cfg: Config, s: State, s': State, t: nat, call: string, refs: Refs, row: Row)
    requires Inv(cfg, s) && Binds(cfg, s, s', t, call, refs, row)
    ensures Inv(cfg, s') && s.history <= s'.history
  {
    MintKeepsLog(cfg, s.db, s.history, call, row, refs, s'.history);
  }

  lemma SettleKeepsInv(cfg: Config, s: State, t: nat)
    requires Inv(cfg, s) && t in s.tasks && s.tasks[t].Settling?
    ensures Inv(cfg, DoSettle(s, t)) && s.history <= DoSettle(s, t).history
  {
    var task := s.tasks[t];
    var call := task.request.call;
    if call in s.db.calls && s.db.calls[call].status.Pending? {
      CompletionKeepsLog(cfg, s.db, s.history, call, task.updates, task.rejected);
    }
  }

  /** The journal and its history stay, and the moved task settles, if at all, with a tracked answer. */
  lemma OtherStepsKeepInv(cfg: Config, s: State, a: Action)
    requires Inv(cfg, s) && Enabled(cfg, s, a) && !a.Prepare? && !a.Settle?
    ensures Inv(cfg, Apply(cfg, s, a)) && s.history == Apply(cfg, s, a).history
  {
    var s' := Apply(cfg, s, a);
    assert s'.db == s.db && s'.history == s.history;
    forall t | t in s'.tasks && s'.tasks[t].Settling? ensures "changeset_id" !in s'.tasks[t].updates {
    }
  }

  lemma StepKeepsInv(cfg: Config, s: State, a: Action)
    requires Inv(cfg, s) && Enabled(cfg, s, a)
    ensures Inv(cfg, Apply(cfg, s, a))
    ensures s.history <= Apply(cfg, s, a).history
  {
    if a.Prepare? {
      PrepareKeepsInv(cfg, s, a.t, a.session);
    } else if a.Settle? {
      SettleKeepsInv(cfg, s, a.t);
    } else {
      OtherStepsKeepInv(cfg, s, a);
    }
  }

  lemma {:induction false} InvAlways(cfg: Config, s: State, actions: seq<Action>)
    requires Inv(cfg, s) && IsRun(cfg, s, actions)
    ensures var s' := Dispatch.After(cfg, s, actions); Inv(cfg, s') && s.history <= s'.history
    decreases |actions|
  {
    if actions != [] {
      StepKeepsInv(cfg, s, actions[0]);
      InvAlways(cfg, Apply(cfg, s, actions[0]), actions[1..]);
    }
  }

  // ---- Main results ----

  /**
   In every run the references equal the fold of the first completions in
   order: exactly the settled calls appear in it, each once.
   */
  lemma LifecycleIsTheFold(cfg: Config, actions: seq<Action>)
    requires IsRun(cfg, START, actions)
    ensures var s := Dispatch.After(cfg, START, actions);
            && ReadLifecycle(s.db) == Fold(s.history)
            && Once(s.history)
            && forall c :: HasSettled(s.history, c) <==> c in s.db.calls && !s.db.calls[c].status.Pending?
  {
    InvAlways(cfg, START, actions);
    var s := Dispatch.After(cfg, START, actions);
    forall c | HasSettled(s.history, c) ensures c in s.db.calls && !s.db.calls[c].status.Pending? {
      var i :| 0 <= i < |s.history| && Settles(s.history[i], c);
      assert EventOk(cfg, s.db, s.history[i]);
    }
  }

  /** The changeset id of a journal is null or the one minted for its run, and once set it never changes. */
  lemma ChangesetNeverChanges(cfg: Config, actions: seq<Action>, later: seq<Action>)
    requires IsRun(cfg, START, actions) && IsRun(cfg, Dispatch.After(cfg, START, actions), later)
    ensures var now := Dispatch.After(cfg, START, actions);
            var then' := Dispatch.After(cfg, now, later);
            var changeset := Catalog.Ref(ReadLifecycle(now.db), "changeset_id");
            && changeset in {None, Some(MintedChangeset(cfg))}
            && (changeset.Some? ==> Catalog.Ref(ReadLifecycle(then'.db), "changeset_id") == changeset)
  {
    InvAlways(cfg, START, actions);
    var now := Dispatch.After(cfg, START, actions);
    InvAlways(cfg, now, later);
    var then' := Dispatch.After(cfg, now, later);
    if HasMinted(now.history) {
      var i :| 0 <= i < |now.history| && now.history[i].Minted?;
      assert then'.history[i].Minted?;
    }
  }
}
