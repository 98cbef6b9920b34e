/**
 One storage directory: its ownership index, closed-run markers and journal
 files, and the retirement of a run in it when nothing else is running.
 */
module JournalStore {
  import opened Basics
  import opened Journal

  datatype File =
    | Journalled(run: string, scope: string, db: Db)
    | Closed(run: string, scope: string)      // a version 2 owner header and nothing else
    | NotAFile

  /** What a retirement ends with; on a failure the first one is raised. */
  datatype Outcome = Done | Failed

  type Files = map<FileName, File>
  type Rows = map<(string, string), FileName>

  // ---- What a retirement leaves ----

  /** A journal that is missing or a file can be replaced; `faulty` names cannot. */
  predicate CanRetire(files: Files, run: string, scope: string, faulty: set<FileName>) {
    var name := JournalName(run, scope);
    name !in faulty && (name in files ==> !files[name].NotAFile?)
  }

  function RetireOne(files: Files, run: string, scope: string, faulty: set<FileName>): Files {
    if CanRetire(files, run, scope, faulty) then files[JournalName(run, scope) := Closed(run, scope)] else files
  }

  function RetireEach(files: Files, run: string, scopes: seq<string>, faulty: set<FileName>): Files {
    if scopes == [] then files
    else RetireOne(RetireEach(files, run, scopes[..|scopes| - 1], faulty), run, scopes[|scopes| - 1], faulty)
  }

  /** What stands under a name, if anything. */
  function At(files: Files, name: FileName): Option<File> {
    if name in files then Some(files[name]) else None
  }

  /** Name by name: the listed journals that can be replaced are closed headers, and nothing else has changed. */
  lemma {:induction false} RetireEachAt(files: Files, run: string, scopes: seq<string>, faulty: set<FileName>,
                                        run': string, scope: string)
    ensures var after := RetireEach(files, run, scopes, faulty);
            At(after, JournalName(run', scope))
            == if run' == run && scope in scopes && CanRetire(files, run, scope, faulty) then Some(Closed(run, scope))
               else At(files, JournalName(run', scope))
    decreases |scopes|
  {
    if scopes != [] {
      var init, last := scopes[..|scopes| - 1], scopes[|scopes| - 1];
      assert scopes == init + [last];
      RetireEachAt(files, run, init, faulty, run', scope);
      RetireEachAt(files, run, init, faulty, run, last);
      NamesHaveOneOwner(run, last, run', scope);
    }
  }

  /** Replacing some journals does not change which others can be replaced. */
  lemma StillCanRetire(files: Files, run: string, scopes: seq<string>, faulty: set<FileName>, scope: string)
    ensures CanRetire(RetireEach(files, run, scopes, faulty), run, scope, faulty) <==> CanRetire(files, run, scope, faulty)
  {
    RetireEachAt(files, run, scopes, faulty, run, scope);
  }

  predicate ScopesOf(rows: Rows, run: string, scopes: seq<string>) {
    && (forall scope | scope in scopes :: (run, scope) in rows)
    && (forall k | k in rows && k.0 == run :: k.1 in scopes)
  }

  function Without(rows: Rows, run: string): Rows {
    rows - (set k | k in rows && k.0 == run)
  }

  class Directory {
    var present: bool
    var markers: set<string>     // runs whose closed marker is there
    var rows: Rows
    var files: Files

    constructor (present: bool)
      ensures Valid() && this.present == present && markers == {} && rows == map[] && files == map[]
    {
      this.present := present;
      markers, rows, files := {}, map[], map[];
    }

    /** Every index row names the file that belongs to its run and scope. */
    ghost predicate Valid()
      reads this
    {
      forall k | k in rows :: rows[k] == JournalName(k.0, k.1)
    }

    /** Refused once the run is closed. */
    method Register(run: string, scope: string) returns (ok: bool)
      requires Valid()
      modifies this`rows
      ensures Valid() && ok == (run !in markers)
      ensures rows == if ok then old(rows)[(run, scope) := JournalName(run, scope)] else old(rows)
    {
      if run in markers { return false; }
      if (run, scope) !in rows {
        rows := rows[(run, scope) := JournalName(run, scope)];
      }
      return true;
    }

    /** None where a row names a file its run and scope do not own; a valid index has no such row. */
    method Scopes(run: string) returns (scopes: Option<seq<string>>)
      requires Valid()
      ensures scopes.Some? && ScopesOf(rows, run, scopes.value)
    {
      var found: seq<string> := [];
      var rest := rows.Keys;
      while rest != {}
        invariant rest <= rows.Keys
        invariant forall scope | scope in found :: (run, scope) in rows
        invariant forall k | k in rows && k !in rest && k.0 == run :: k.1 in found
        decreases |rest|
      {
        var k :| k in rest;
        rest := rest - {k};
        if k.0 == run {
          if rows[k] != JournalName(run, k.1) { return None; }
          found := found + [k.1];
        }
      }
      return Some(found);
    }

    method Forget(run: string)
      requires Valid()
      modifies this`rows
      ensures Valid() && rows == Without(old(rows), run)
    {
      rows := Without(rows, run);
    }

    /** Atomic replacement by the closed header. */
    method Retire(run: string, scope: string, faulty: set<FileName>) returns (ok: bool)
      requires run in markers
      modifies this`files
      ensures ok == CanRetire(old(files), run, scope, faulty)
      ensures files == RetireOne(old(files), run, scope, faulty)
    {
      var name := JournalName(run, scope);
      if name in files && files[name].NotAFile? { return false; }
      if name in faulty { return false; }
      files := files[name := Closed(run, scope)];
      return true;
    }

    /**
     Retires every indexed journal of the run even when some fail, and forgets
     the rows only when none did; a directory that is not there gets no marker.
     */
    method RetireRun(run: string, faulty: set<FileName>) returns (outcome: Outcome, ghost scopes: seq<string>)
      requires Valid()
      modifies this
      ensures Valid() && present == old(present)
      ensures !present ==> outcome == Done && markers == old(markers) && rows == old(rows) && files == old(files)
      ensures present ==> markers == old(markers) + {run} && ScopesOf(old(rows), run, scopes)
      ensures present ==> files == RetireEach(old(files), run, scopes, faulty)
      ensures present ==> (outcome.Done? <==> forall scope | scope in scopes :: CanRetire(old(files), run, scope, faulty))
      ensures present ==> rows == if outcome.Done? then Without(old(rows), run) else old(rows)
    {
      if !present { return Done, []; }
      markers := markers + {run};
      var listed := Scopes(run);
      scopes := listed.value;
      var failures := 0;
      for i := 0 to |listed.value|
        invariant markers == old(markers) + {run} && rows == old(rows) && present
        invariant files == RetireEach(old(files), run, listed.value[..i], faulty)
        invariant failures == 0 <==> forall j | 0 <= j < i :: CanRetire(old(files), run, listed.value[j], faulty)
      {
        StillCanRetire(old(files), run, listed.value[..i], faulty, listed.value[i]);
        assert listed.value[..i + 1][..i] == listed.value[..i];
        var ok := Retire(run, listed.value[i], faulty);
        if !ok {
          failures := failures + 1;
        }
      }
      assert listed.value[..|listed.value|] == listed.value;
      if failures > 0 { return Failed, scopes; }
      Forget(run);
      return Done, scopes;
    }
  }

  /** Forgetting is per run: the run has no scope left on record, and every other run has exactly those it had. */
  lemma ForgettingIsPerRun(rows: Rows, run: string, other: string, scopes: seq<string>)
    ensures ScopesOf(Without(rows, run), other, scopes)
            <==> if other == run then scopes == [] else ScopesOf(rows, other, scopes)
  {
    var left := Without(rows, run);
    assert other == run && scopes != [] ==> scopes[0] in scopes;
    if other != run {
      forall scope ensures (other, scope) in left <==> (other, scope) in rows {
      }
    }
  }

  /** A retirement that failed in places is finished by a later one that meets no fault. */
  lemma RetryFinishes(files: Files, run: string, scopes: seq<string>, faulty: set<FileName>, scope: string)
    requires scope in scopes && CanRetire(files, run, scope, {})
    ensures At(RetireEach(RetireEach(files, run, scopes, faulty), run, scopes, {}), JournalName(run, scope))
            == Some(Closed(run, scope))
  {
    var once := RetireEach(files, run, scopes, faulty);
    RetireEachAt(files, run, scopes, faulty, run, scope);
    RetireEachAt(once, run, scopes, {}, run, scope);
  }
}
