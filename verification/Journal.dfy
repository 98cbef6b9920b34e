/**
 The durable tool-call journal of one (run, scope): what a prepared call is bound
 to, and the lifecycle references every later call is built from.
 */
module Journal {
  import opened Basics
  import opened Ids
  import Json

  // ---- File names ----

  datatype FileName = FileName(stem: Digest, suffix: string)

  /** `journal_name`: the digest of the JSON list of the two owners. */
  function JournalFile(run: Json.Text, scope: Json.Text): FileName {
    FileName(Sha256(Json.DumpList([run, scope])), ".db")
  }

  /** `closed_marker_name`. */
  function MarkerFile(run: Json.Text): FileName {
    FileName(Sha256(Json.DumpList([run])), ".closed")
  }

  /**
   For every run and scope a Python string can hold: two journals share a file,
   and two runs a marker, exactly when their owners are the same once adjacent
   surrogates are joined; no marker is a journal.
   */
  lemma NamesAreSharedExactlyWhen(run: Json.Text, scope: Json.Text, run': Json.Text, scope': Json.Text)
    ensures JournalFile(run, scope) == JournalFile(run', scope')
            <==> Json.Joined(run) == Json.Joined(run') && Json.Joined(scope) == Json.Joined(scope')
    ensures MarkerFile(run) == MarkerFile(run') <==> Json.Joined(run) == Json.Joined(run')
    ensures JournalFile(run, scope) != MarkerFile(run')
  {
    var p, q := [run, scope], [run', scope'];
    Json.DumpListsAgreeExactlyWhen(p, q);
    assert Json.SameJoined(p, q) <==> Json.Joined(p[0]) == Json.Joined(q[0]) && Json.Joined(p[1]) == Json.Joined(q[1]);
    Json.DumpListsAgreeExactlyWhen([run], [run']);
    assert Json.SameJoined([run], [run']) <==> Json.Joined([run][0]) == Json.Joined([run'][0]);
    assert ".db"[1] != ".closed"[1];
  }

  /** A character and the two surrogates that stand for it name one journal. */
  lemma APairSharesItsCharactersName(scope: Json.Text)
    ensures JournalFile([0xd800, 0xdc00], scope) == JournalFile([0x10000], scope)
  {
    NamesAreSharedExactlyWhen([0xd800, 0xdc00], scope, [0x10000], scope);
    assert Json.Joined([0xd800, 0xdc00]) == [0x10000] + Json.Joined([]);
  }

  function JournalName(run: string, scope: string): FileName {
    JournalFile(Json.Points(run), Json.Points(scope))
  }

  function ClosedMarkerName(run: string): FileName {
    MarkerFile(Json.Points(run))
  }

  /**
   Among strings without surrogates a file name in the store has one owner: two
   journals never share a file, two runs never share a marker, and no marker is
   a journal.
   */
  lemma NamesHaveOneOwner(run: string, scope: string, run': string, scope': string)
    ensures JournalName(run, scope) == JournalName(run', scope') <==> run == run' && scope == scope'
    ensures ClosedMarkerName(run) == ClosedMarkerName(run') <==> run == run'
    ensures JournalName(run, scope) != ClosedMarkerName(run')
  {
    NamesAreSharedExactlyWhen(Json.Points(run), Json.Points(scope), Json.Points(run'), Json.Points(scope'));
    SameOwner(run, run');
    SameOwner(scope, scope');
  }

  lemma SameOwner(s: string, t: string)
    ensures Json.Joined(Json.Points(s)) == Json.Joined(Json.Points(t)) <==> s == t
  {
    Json.PointsAreScalars(s);
    Json.PointsAreScalars(t);
    if Json.Points(s) == Json.Points(t) {
      Json.PointsAreInjective(s, t);
    }
  }

  // ---- Tables ----

  /** The lifecycle dictionary, and the owned fields bound to a call. */
  type Refs = map<string, Option<string>>

  const NO_REFS: Refs := map["changeset_id" := None, "revision" := None, "approval_id" := None]

  /** The digest of `[name, command, serialized arguments]`, taken as injective. */
  datatype Fingerprint = Fingerprint(name: string, command: string, arguments: map<string, Json.Value>)

  datatype Status = Pending | Completed | Rejected

  datatype Row = Row(fingerprint: Fingerprint, owned: Refs, key: Digest, status: Status)

  /** The `calls` table by call id, and the single `lifecycle` row. */
  datatype Db = Db(calls: map<string, Row>, lifecycle: Option<Refs>)

  const EMPTY_DB := Db(map[], None)

  function ReadLifecycle(db: Db): Refs {
    if db.lifecycle.None? then NO_REFS else db.lifecycle.value
  }

  /** What `build` hands back: the references it may have extended, and the binding. */
  datatype Built = Built(refs: Refs, owned: Refs, key: Digest)

  datatype Prepared =
    | Bound(owned: Refs, key: Digest)
    | IdentityReused
    | WasRejected
    | RetryPendingFirst
    | BuildFailed

  ghost predicate HasPending(db: Db) {
    exists c | c in db.calls :: db.calls[c].status.Pending?
  }

  /** A call already journalled answers from its row; a new one is built only when nothing is pending. */
  ghost function PrepareOn(db: Db, call: string, fingerprint: Fingerprint,
                           build: Refs -> Option<Built>): (Db, Prepared)
  {
    if call in db.calls then
      var row := db.calls[call];
      if row.fingerprint != fingerprint then (db, IdentityReused)
      else if row.status.Rejected? then (db, WasRejected)
      else (db, Bound(row.owned, row.key))
    else if HasPending(db) then (db, RetryPendingFirst)
    else
      match build(ReadLifecycle(db))
      case None => (db, BuildFailed)
      case Some(built) =>
        (Db(db.calls[call := Row(fingerprint, built.owned, built.key, Pending)], Some(built.refs)),
         Bound(built.owned, built.key))
  }

  function Present(text: string): Option<string> {
    Some(text)
  }

  ghost function Updated(refs: Refs, updates: map<string, string>): Refs {
    refs + Mapped(updates, Present)
  }

  /** What an update does, field by field, once all but `rest` has been written. */
  ghost predicate UpdatedBut(refs: Refs, updates: map<string, string>, rest: set<string>, updated: Refs) {
    forall f :: (f in updated <==> f in refs || (f in updates && f !in rest))
                && (f in updated ==> updated[f] == if f in updates && f !in rest then Some(updates[f]) else refs[f])
  }

  lemma AllUpdated(refs: Refs, updates: map<string, string>, updated: Refs)
    requires UpdatedBut(refs, updates, {}, updated)
    ensures updated == Updated(refs, updates)
  {
    var whole := Updated(refs, updates);
    forall f ensures (f in updated <==> f in whole) && (f in updated ==> updated[f] == whole[f]) {
    }
  }

  lemma OneMoreUpdated(refs: Refs, updates: map<string, string>, rest: set<string>, updated: Refs, f: string)
    requires UpdatedBut(refs, updates, rest, updated) && f in rest && f in updates
    ensures UpdatedBut(refs, updates, rest - {f}, updated[f := Some(updates[f])])
  {
  }

  /** `refs.update(updates)` */
  method Update(refs: Refs, updates: map<string, string>) returns (updated: Refs)
    ensures updated == Updated(refs, updates)
  {
    updated := refs;
    var rest := updates.Keys;
    while rest != {}
      invariant rest <= updates.Keys && UpdatedBut(refs, updates, rest, updated)
      decreases |rest|
    {
      var f :| f in rest;
      OneMoreUpdated(refs, updates, rest, updated, f);
      updated := updated[f := Some(updates[f])];
      rest := rest - {f};
    }
    AllUpdated(refs, updates, updated);
  }

  /** Only the first completion of a known call changes anything. */
  ghost function CompleteOn(db: Db, call: string, updates: map<string, string>, rejected: bool): Db {
    if call !in db.calls || !db.calls[call].status.Pending? then db
    else Db(db.calls[call := db.calls[call].(status := if rejected then Rejected else Completed)],
            Some(Updated(ReadLifecycle(db), updates)))
  }

  /** At most one call of a journal is pending. */
  ghost predicate OnePending(db: Db) {
    forall c, d | c in db.calls && d in db.calls
                  && db.calls[c].status.Pending? && db.calls[d].status.Pending? :: c == d
  }

  // ---- The journal ----

  /** One journal file as its transactions see it; `closed` is whether they find the run's closed marker. */
  class ToolCallJournal {
    var db: Db

    ghost predicate Valid()
      reads this
    {
      OnePending(db)
    }

    constructor ()
      ensures Valid() && db == EMPTY_DB
    {
      db := EMPTY_DB;
    }

    /** Answers None, and writes nothing, once the run is closed. */
    method Prepare(call: string, fingerprint: Fingerprint, build: Refs -> Option<Built>, closed: bool)
        returns (prepared: Option<Prepared>)
      requires Valid()
      modifies this`db
      ensures Valid()
      ensures closed ==> db == old(db) && prepared == None
      ensures !closed ==> (db, prepared) == (PrepareOn(old(db), call, fingerprint, build).0,
                                             Some(PrepareOn(old(db), call, fingerprint, build).1))
    {
      if closed { return None; }
      if call in db.calls {
        var row := db.calls[call];
        if row.fingerprint != fingerprint { return Some(IdentityReused); }
        if row.status == Rejected { return Some(WasRejected); }
        return Some(Bound(row.owned, row.key));
      }
      if exists c | c in db.calls :: db.calls[c].status == Pending { return Some(RetryPendingFirst); }
      var built := build(ReadLifecycle(db));
      if built == None { return Some(BuildFailed); }
      db := Db(db.calls[call := Row(fingerprint, built.value.owned, built.value.key, Pending)],
               Some(built.value.refs));
      prepared := Some(Bound(built.value.owned, built.value.key));
    }

    method Complete(call: string, updates: map<string, string>, rejected: bool, closed: bool)
      requires Valid()
      modifies this`db
      ensures Valid()
      ensures db == if closed then old(db) else CompleteOn(old(db), call, updates, rejected)
    {
      if closed || call !in db.calls || db.calls[call].status != Pending { return; }
      var refs := Update(ReadLifecycle(db), updates);
      var status := if rejected then Rejected else Completed;
      db := Db(db.calls[call := db.calls[call].(status := status)], Some(refs));
    }
  }

  // ---- What any history of transactions keeps ----

  datatype Op =
    | Prepares(call: string, fingerprint: Fingerprint, build: Refs -> Option<Built>)
    | Completes(call: string, updates: map<string, string>, rejected: bool)

  ghost function Applied(db: Db, op: Op): Db {
    match op
    case Prepares(call, fingerprint, build) => PrepareOn(db, call, fingerprint, build).0
    case Completes(call, updates, rejected) => CompleteOn(db, call, updates, rejected)
  }

  ghost function After(db: Db, ops: seq<Op>): Db
    decreases |ops|
  {
    if ops == [] then db else After(Applied(db, ops[0]), ops[1..])
  }

  predicate SameBinding(r: Row, r': Row) {
    r.fingerprint == r'.fingerprint && r.owned == r'.owned && r.key == r'.key
  }

  /**
   Over every later history a journalled call keeps the fingerprint, owned
   fields and key it was first bound to, and a settled call keeps its outcome.
   */
  lemma {:induction false} BindingIsForever(db: Db, ops: seq<Op>, call: string)
    requires call in db.calls
    ensures call in After(db, ops).calls
    ensures SameBinding(db.calls[call], After(db, ops).calls[call])
    ensures !db.calls[call].status.Pending? ==> After(db, ops).calls[call] == db.calls[call]
    decreases |ops|
  {
    if ops != [] {
      BindingIsForever(Applied(db, ops[0]), ops[1..], call);
    }
  }

  lemma {:induction false} OnePendingAlways(db: Db, ops: seq<Op>)
    requires OnePending(db)
    ensures OnePending(After(db, ops))
    decreases |ops|
  {
    if ops != [] {
      OnePendingAlways(Applied(db, ops[0]), ops[1..]);
    }
  }

  /**
   A retry of a prepared call, whatever ran in between and whatever it would
   build now, is handed exactly the binding of its first delivery, or learns
   that the call was rejected.
   */
  lemma RetryIsHandedTheFirstBinding(db: Db, call: string, fingerprint: Fingerprint,
                                     build: Refs -> Option<Built>, ops: seq<Op>, again: Refs -> Option<Built>)
    requires PrepareOn(db, call, fingerprint, build).1.Bound?
    ensures call in After(PrepareOn(db, call, fingerprint, build).0, ops).calls
    ensures var (bound, first) := PrepareOn(db, call, fingerprint, build);
            var (_, retried) := PrepareOn(After(bound, ops), call, fingerprint, again);
            retried == if After(bound, ops).calls[call].status.Rejected? then WasRejected else first
  {
    BindingIsForever(PrepareOn(db, call, fingerprint, build).0, ops, call);
  }

  /** A second completion, late or repeated, moves no reference and no outcome. */
  lemma LateCompletionIsIgnored(db: Db, ops: seq<Op>, call: string,
                                updates: map<string, string>, rejected: bool)
    requires call in db.calls && !db.calls[call].status.Pending?
    ensures CompleteOn(After(db, ops), call, updates, rejected) == After(db, ops)
  {
    BindingIsForever(db, ops, call);
  }
}
