/** Open transactions and the names of their files: a name is lost only to a retirement of a marked run. */
module RetirementNames {
  import opened RetirementModel
  import opened Retirement

  /** The transaction's journal has been replaced by its closed header. */
  predicate Replaced(store: State, path: Path, run: string) {
    IsClosed(store, path) && run in store.markers
  }

  /** An open file still has its name, or its journal has been replaced. */
  predicate Attached(store: State, task: Task) {
    IsCanonical(task) && HasInode(task.pc) ==>
      && task.path in store.names
      && (store.names[task.path] == task.pc.inode || Replaced(store, task.path, task.run))
  }

  predicate AllAttached(store: State) {
    forall t | t in store.tasks :: Attached(store, store.tasks[t])
  }

  /** A name keeps its file unless a retirement replaces it, which only happens to a marked run. */
  lemma NamesMove(s: State, a: Action, run: string, scope: string)
    requires Inv(s) && Enabled(s, a) && Canonical(run, scope) in s.names
    ensures var s' := Apply(s, a);
            var path := Canonical(run, scope);
            path in s'.names && (s'.names[path] == s.names[path] || Replaced(s', path, run))
  {
    if a.Replace? {
      ReplaceMovesOne(s, a.t, run, scope);
    } else {
      OthersMoveNone(s, a, Canonical(run, scope));
    }
  }

  lemma OthersMoveNone(s: State, a: Action, path: Path)
    requires Enabled(s, a) && !a.Replace? && path in s.names
    ensures var s' := Apply(s, a); path in s'.names && s'.names[path] == s.names[path]
  {
    if a.Connect? {
      assert Apply(s, a) == DoConnect(s, a.t);
    } else if a.Premake? {
      assert Apply(s, a) == DoPremake(s, a.t);
    } else if a.Commit? {
      assert Apply(s, a) == DoCommit(s, a.t);
    } else {
      MostKeepTheDirectory(s, a);
    }
  }

  /** Only a commit changes a file. */
  lemma OthersKeepFiles(s: State, a: Action, i: nat)
    requires Enabled(s, a) && !a.Commit? && i < |s.disk|
    ensures var s' := Apply(s, a); i < |s'.disk| && s'.disk[i] == s.disk[i]
  {
    if a.Connect? {
      assert Apply(s, a) == DoConnect(s, a.t);
    } else if a.Premake? {
      assert Apply(s, a) == DoPremake(s, a.t);
    } else if a.Replace? {
      assert Apply(s, a) == DoReplace(s, a.t);
    } else {
      MostKeepTheDirectory(s, a);
    }
  }

  /** Once a retirement has returned, no name of its run leads to an open journal. */
  lemma NothingOpenAfterTheReturn(s: State, run: string, scope: string)
    requires Inv(s) && HasReturned(s, run) && Canonical(run, scope) in s.names
    ensures s.names[Canonical(run, scope)] < |s.disk| && !s.disk[s.names[Canonical(run, scope)]].content.Live?
  {
    var t :| ReturnedAt(s, t, run);
    assert TaskOk(s, s.tasks[t]) && !AtRisk(s, run, scope);
  }

  lemma ReplaceMovesOne(s: State, t: nat, run: string, scope: string)
    requires Inv(s) && Enabled(s, Replace(t)) && Canonical(run, scope) in s.names
    ensures var s' := DoReplace(s, t);
            var path := Canonical(run, scope);
            path in s'.names && (s'.names[path] == s.names[path] || Replaced(s', path, run))
  {
    assert TaskOk(s, s.tasks[t]);
  }

  lemma ReplacedStays(s: State, a: Action, run: string, scope: string)
    requires Serial(s) && Enabled(s, a) && Replaced(s, Canonical(run, scope), run)
    ensures Replaced(Apply(s, a), Canonical(run, scope), run)
  {
    OneTaskMoves(s, a);
    ClosedStaysOnce(s, a, run, scope);
  }

  lemma AttachedStays(s: State, a: Action, task: Task)
    requires Inv(s) && Enabled(s, a) && Attached(s, task)
    ensures Attached(Apply(s, a), task)
  {
    if IsCanonical(task) && HasInode(task.pc) {
      NamesMove(s, a, task.run, task.scope);
      if Replaced(s, task.path, task.run) {
        ReplacedStays(s, a, task.run, task.scope);
      }
    }
  }

  /** A transaction opens the file its name leads to, and works on it from then on. */
  lemma OpensByName(s: State, a: Action)
    requires Enabled(s, a) && a.t in s.tasks
    ensures a.t in Apply(s, a).tasks
    ensures var s' := Apply(s, a);
            var task, task' := s.tasks[a.t], s'.tasks[a.t];
            && SameIdentity(task, task')
            && (task'.Txn? && HasInode(task'.pc) ==>
                  || (task'.path in s'.names && s'.names[task'.path] == task'.pc.inode)
                  || (HasInode(task.pc) && task.pc.inode == task'.pc.inode))
  {
    OneTaskMoves(s, a);
  }

  lemma MoverIsAttached(s: State, a: Action)
    requires Inv(s) && AllAttached(s) && Enabled(s, a)
    ensures var s' := Apply(s, a); a.t in s'.tasks && Attached(s', s'.tasks[a.t])
  {
    OneTaskMoves(s, a);
    if a.t in s.tasks {
      OpensByName(s, a);
      AttachedStays(s, a, s.tasks[a.t]);
    }
  }

  lemma StepKeepsAttached(s: State, a: Action)
    requires Inv(s) && AllAttached(s) && Enabled(s, a)
    ensures AllAttached(Apply(s, a))
  {
    var s' := Apply(s, a);
    OneTaskMoves(s, a);
    MoverIsAttached(s, a);
    forall t | t in s'.tasks ensures Attached(s', s'.tasks[t]) {
      if t != a.t {
        AttachedStays(s, a, s.tasks[t]);
      }
    }
  }
}
