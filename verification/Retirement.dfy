/**
 What every interleaving of journal transactions and retirements keeps, and what
 a retirement that has returned guarantees.
 */
module Retirement {
  import opened Basics
  import opened RetirementModel
  import Journal

  // ---- What every step keeps ----

  predicate TaskFits(s: State, task: Task) {
    task.Txn? ==>
      && (IsCanonical(task) || task.path.Foreign?)
      && (HasInode(task.pc) ==> task.pc.inode < |s.disk| && s.disk[task.pc.inode].path == task.path)
  }

  /** Names, files and tasks agree about who works on what. */
  predicate Wf(s: State) {
    && (forall p | p in s.names :: s.names[p] < |s.disk| && s.disk[s.names[p]].path == p)
    && (forall i | 0 <= i < |s.disk| :: ContentFits(s.disk[i]))
    && (forall t | t in s.tasks :: TaskFits(s, s.tasks[t]))
  }

  predicate LockKept(s: State, t: nat)
    requires t in s.tasks
  {
    var task := s.tasks[t];
    && (HasLock(task) ==> LockOf(task) in s.locks && s.locks[LockOf(task)] == t)
    && (InIndex(task) ==> s.indexLock == Some(t))
    && (task.Txn? && HoldsWriter(task.pc) ==> task.pc.inode in s.writer && s.writer[task.pc.inode] == t)
  }

  /** Every lock is held by exactly the task whose position says so. */
  predicate Locks(s: State) {
    && (forall t | t in s.tasks :: LockKept(s, t))
    && (forall k | k in s.locks :: s.locks[k] in s.tasks && HasLock(s.tasks[s.locks[k]])
                                   && LockOf(s.tasks[s.locks[k]]) == k)
    && (s.indexLock.Some? ==> s.indexLock.value in s.tasks && InIndex(s.tasks[s.indexLock.value]))
    && (forall i | i in s.writer :: s.writer[i] in s.tasks && s.tasks[s.writer[i]].Txn?
                                    && HoldsWriter(s.tasks[s.writer[i]].pc)
                                    && s.tasks[s.writer[i]].pc.inode == i)
  }

  predicate BaseIsCurrent(s: State, task: Task) {
    task.Txn? && HasBase(task.pc) ==>
      && task.pc.inode < |s.disk|
      && s.disk[task.pc.inode].content == task.pc.base
      && OwnerMatches(task.pc.base, task)
  }

  /** An open transaction still sees the content it started from: commits are serial. */
  predicate Serial(s: State) {
    forall t | t in s.tasks :: BaseIsCurrent(s, s.tasks[t])
  }

  /** A task moves but stays the same task. */
  predicate SameIdentity(task: Task, task': Task) {
    match task
    case Txn(proc, path, run, scope, _) => task'.Txn? && task' == task.(pc := task'.pc)
    case Retirer(proc, run, _) => task'.Retirer? && task' == task.(rpc := task'.rpc)
    case Maker(run, scope, _) => task'.Maker? && task' == task.(checked := task'.checked)
  }

  /** The other tasks are as they were. */
  predicate OthersKept(s: State, s': State, t: nat) {
    && t in s'.tasks && s'.tasks == s.tasks[t := s'.tasks[t]]
    && (t in s.tasks ==> SameIdentity(s.tasks[t], s'.tasks[t]))
  }

  predicate DiskKept(s: State, s': State) {
    s'.names == s.names && s'.disk == s.disk
  }

  /** One new file took the name it was made for. */
  predicate FileAdded(s: State, s': State, path: Path, content: Content) {
    s'.names == s.names[path := |s.disk|] && s'.disk == s.disk + [File(path, content)]
  }

  predicate FileWritten(s: State, s': State, inode: nat, content: Content)
    requires inode < |s.disk|
  {
    s'.names == s.names && s'.disk == s.disk[inode := s.disk[inode].(content := content)]
  }

  lemma WfAfterQuietStep(s: State, s': State, t: nat)
    requires Wf(s) && OthersKept(s, s', t) && DiskKept(s, s')
    requires TaskFits(s', s'.tasks[t])
    ensures Wf(s')
  {
    forall u | u in s'.tasks ensures TaskFits(s', s'.tasks[u]) {
      assert u != t ==> TaskFits(s, s.tasks[u]);
    }
  }

  lemma WfAfterAdd(s: State, s': State, t: nat, path: Path, content: Content)
    requires Wf(s) && OthersKept(s, s', t) && FileAdded(s, s', path, content)
    requires ContentFits(File(path, content)) && TaskFits(s', s'.tasks[t])
    ensures Wf(s')
  {
    forall u | u in s'.tasks ensures TaskFits(s', s'.tasks[u]) {
      assert u != t ==> TaskFits(s, s.tasks[u]);
    }
  }

  lemma WfAfterWrite(s: State, s': State, t: nat, inode: nat, content: Content)
    requires Wf(s) && OthersKept(s, s', t) && inode < |s.disk| && FileWritten(s, s', inode, content)
    requires ContentFits(File(s.disk[inode].path, content)) && TaskFits(s', s'.tasks[t])
    ensures Wf(s')
  {
    forall u | u in s'.tasks ensures TaskFits(s', s'.tasks[u]) {
      assert u != t ==> TaskFits(s, s.tasks[u]);
    }
  }

  // -- How one step changes the locks --

  predicate Had(s: State, t: nat) {
    t in s.tasks && HasLock(s.tasks[t])
  }

  predicate WasInIndex(s: State, t: nat) {
    t in s.tasks && InIndex(s.tasks[t])
  }

  predicate Writes(task: Task) {
    task.Txn? && HoldsWriter(task.pc)
  }

  /** A lock is kept as it was, taken while free, or given back. */
  datatype Move = Keeps | Takes | Gives

  predicate PathLockMoves(s: State, s': State, t: nat, m: Move)
    requires t in s'.tasks
  {
    var task := s'.tasks[t];
    match m
    case Keeps =>
      s'.locks == s.locks && HasLock(task) == Had(s, t) && (HasLock(task) ==> LockOf(task) == LockOf(s.tasks[t]))
    case Takes =>
      HasLock(task) && !Had(s, t) && LockOf(task) !in s.locks && s'.locks == s.locks[LockOf(task) := t]
    case Gives =>
      !HasLock(task) && s'.locks == s.locks - LocksOf(s, t)
  }

  predicate IndexLockMoves(s: State, s': State, t: nat, m: Move)
    requires t in s'.tasks
  {
    var task := s'.tasks[t];
    match m
    case Keeps => s'.indexLock == s.indexLock && InIndex(task) == WasInIndex(s, t)
    case Takes => InIndex(task) && s.indexLock.None? && s'.indexLock == Some(t)
    case Gives => !InIndex(task) && s'.indexLock == if s.indexLock == Some(t) then None else s.indexLock
  }

  predicate WriterMoves(s: State, s': State, t: nat, m: Move)
    requires t in s'.tasks
  {
    var task := s'.tasks[t];
    match m
    case Keeps =>
      s'.writer == s.writer && Writes(task) == (t in s.tasks && Writes(s.tasks[t]))
      && (Writes(task) ==> task.pc.inode == s.tasks[t].pc.inode)
    case Takes =>
      Writes(task) && !(t in s.tasks && Writes(s.tasks[t])) && task.pc.inode !in s.writer
      && s'.writer == s.writer[task.pc.inode := t]
    case Gives =>
      !Writes(task) && s'.writer == s.writer - WriterOf(s, t)
  }

  predicate LocksMove(s: State, s': State, t: nat, path: Move, index: Move, writer: Move) {
    && OthersKept(s, s', t)
    && PathLockMoves(s, s', t, path) && IndexLockMoves(s, s', t, index) && WriterMoves(s, s', t, writer)
  }

  lemma LocksAfterMove(s: State, s': State, t: nat, path: Move, index: Move, writer: Move)
    requires Locks(s) && LocksMove(s, s', t, path, index, writer)
    ensures Locks(s')
  {
    forall u | u in s'.tasks ensures LockKept(s', u) {
      assert u in s.tasks ==> LockKept(s, u);
    }
  }

  // -- What is still at risk of holding an open journal --

  predicate PendingOn(s: State, t: nat, run: string, scope: string) {
    t in s.tasks && s.tasks[t].Txn? && s.tasks[t].path == Canonical(run, scope) && PastRegister(s.tasks[t].pc)
  }

  /** Not closed, and in use or about to be. */
  ghost predicate AtRisk(s: State, run: string, scope: string) {
    var path := Canonical(run, scope);
    !IsClosed(s, path) && (Used(s, path) || exists t :: PendingOn(s, t, run, scope))
  }

  /** Every retirement of the run, so far, belongs to this one process. */
  predicate Home(s: State, run: string, proc: nat) {
    forall t | t in s.tasks && s.tasks[t].Retirer? && s.tasks[t].run == run :: s.tasks[t].proc == proc
  }

  predicate CanWrite(task: Task) {
    IsCanonical(task) && PastRegister(task.pc)
  }

  /** The index knows every journal at risk, once it has been inventoried. */
  ghost predicate Covered(s: State) {
    && (forall run, scope | AtRisk(s, run, scope) :: s.inventoried ==> (run, scope) in s.rows)
    && (forall t | t in s.tasks && CanWrite(s.tasks[t]) && Home(s, s.tasks[t].run, s.tasks[t].proc) ::
          (s.tasks[t].run, s.tasks[t].scope) in s.rows)
    && (!s.inventoried ==>
          && (forall t | t in s.tasks :: !CanWrite(s.tasks[t]))
          && (forall p | p in s.names && p.Canonical? && p !in s.premade ::
                s.names[p] < |s.disk| && !s.disk[s.names[p]].content.Empty?))
  }

  predicate PastScopes(rpc: RetirePc) {
    rpc.Retiring? || rpc.Holding? || rpc.WantForget? || rpc.Forgetting? || rpc.Returned?
  }

  function Todo(rpc: RetirePc): set<string> {
    if rpc.Retiring? || rpc.Holding? then rpc.todo else {}
  }

  predicate Failed(rpc: RetirePc) {
    (rpc.Retiring? || rpc.Holding?) && rpc.failed
  }

  predicate Inserting(task: Task) {
    task.Txn? && (task.pc.IndexInserted? || task.pc.IndexChecked?)
  }

  /** A transaction of the retirer's own process that can still write. */
  predicate Local(task: Task, retirer: Task)
    requires retirer.Retirer?
  {
    CanWrite(task) && task.proc == retirer.proc && task.run == retirer.run
  }

  ghost predicate RetirerOk(s: State, r: Task)
    requires r.Retirer?
  {
    && (!r.rpc.Start? && !r.rpc.Raised? ==> r.run in s.markers)
    && (PastScopes(r.rpc) ==>
          && (forall u | u in s.tasks && Inserting(s.tasks[u]) :: s.tasks[u].run != r.run)
          && (forall scope | AtRisk(s, r.run, scope) :: Failed(r.rpc) || scope in Todo(r.rpc))
          && (Home(s, r.run, r.proc) ==>
                forall u | u in s.tasks && Local(s.tasks[u], r) ::
                  s.tasks[u].scope in Todo(r.rpc) && !(r.rpc.Holding? && r.rpc.scope == s.tasks[u].scope)))
  }

  ghost predicate TaskOk(s: State, task: Task) {
    && (InIndex(task) ==> s.rows <= WorkOf(task))
    && (InIndex(task) ==> forall run, scope | AtRisk(s, run, scope) :: (run, scope) in WorkOf(task))
    && (Inserting(task) ==> (task.run, task.scope) in WorkOf(task))
    && (task.Retirer? ==> RetirerOk(s, task))
  }

  ghost predicate Inv(s: State) {
    Wf(s) && Locks(s) && Serial(s) && Covered(s) && forall t | t in s.tasks :: TaskOk(s, s.tasks[t])
  }

  // -- Steps of a transaction that leave the shared state alone --

  predicate SharedKept(s: State, s': State) {
    DiskKept(s, s') && s'.markers >= s.markers && s'.rows == s.rows && s'.inventoried == s.inventoried
    && s'.premade == s.premade
  }

  /** A transaction may not become able to write, nor start inserting after the marker. */
  predicate Calm(s: State, t: nat, task: Task) {
    && (CanWrite(task) ==> t in s.tasks && CanWrite(s.tasks[t]))
    && (Inserting(task) ==> (t in s.tasks && Inserting(s.tasks[t])) || task.run !in s.markers)
  }

  ghost predicate RiskShrinks(s: State, s': State) {
    forall run, scope | AtRisk(s', run, scope) :: AtRisk(s, run, scope)
  }

  lemma RiskAfterQuietStep(s: State, s': State, t: nat)
    requires OthersKept(s, s', t) && DiskKept(s, s') && s'.premade == s.premade
    requires Wf(s') && Calm(s, t, s'.tasks[t])
    ensures RiskShrinks(s, s')
  {
    assert TaskFits(s', s'.tasks[t]);
    forall run, scope | AtRisk(s', run, scope) ensures AtRisk(s, run, scope) {
      if !Used(s', Canonical(run, scope)) {
        var u :| PendingOn(s', u, run, scope);
        assert PendingOn(s, u, run, scope);
      }
    }
  }

  /** Tasks are never lost, so a process that is the only retirer always was. */
  lemma HomeShrinks(s: State, s': State, t: nat)
    requires OthersKept(s, s', t)
    ensures forall run, proc | Home(s', run, proc) :: Home(s, run, proc)
  {
    forall run, proc | Home(s', run, proc) ensures Home(s, run, proc) {
      forall u | u in s.tasks && s.tasks[u].Retirer? && s.tasks[u].run == run ensures s.tasks[u].proc == proc {
        assert u in s'.tasks;
      }
    }
  }

  lemma TasksAfter(s: State, s': State, t: nat)
    requires forall u | u in s.tasks :: TaskOk(s, s.tasks[u])
    requires OthersKept(s, s', t) && RiskShrinks(s, s') && s'.markers >= s.markers
    requires forall u | u in s.tasks && u != t && InIndex(s.tasks[u]) :: s'.rows <= s.rows
    requires Calm(s, t, s'.tasks[t]) && TaskOk(s', s'.tasks[t])
    ensures forall u | u in s'.tasks :: TaskOk(s', s'.tasks[u])
  {
    forall u | u in s'.tasks ensures TaskOk(s', s'.tasks[u]) {
      if u != t {
        assert TaskOk(s, s.tasks[u]);
        assert s.tasks[u].Retirer? && Home(s', s.tasks[u].run, s.tasks[u].proc)
               ==> Home(s, s.tasks[u].run, s.tasks[u].proc) by { HomeShrinks(s, s', t); }
      }
    }
  }

  lemma QuietKeepsInv(s: State, s': State, t: nat, path: Move, index: Move, writer: Move)
    requires Inv(s) && LocksMove(s, s', t, path, index, writer) && SharedKept(s, s')
    requires TaskFits(s', s'.tasks[t]) && BaseIsCurrent(s', s'.tasks[t])
    requires Calm(s, t, s'.tasks[t])
    requires RiskShrinks(s, s') ==> TaskOk(s', s'.tasks[t])
    ensures Inv(s')
  {
    HomeShrinks(s, s', t);
    WfAfterQuietStep(s, s', t);
    LocksAfterMove(s, s', t, path, index, writer);
    RiskAfterQuietStep(s, s', t);
    TasksAfter(s, s', t);
    forall u | u in s'.tasks ensures BaseIsCurrent(s', s'.tasks[u]) {
      assert u != t ==> BaseIsCurrent(s, s.tasks[u]);
    }
  }

  lemma SpawnKeepsInv(s: State, t: nat, task: Task)
    requires Inv(s) && t !in s.tasks && IsFresh(task)
    ensures Inv(Put(s, t, task))
  {
    QuietKeepsInv(s, Put(s, t, task), t, Keeps, Keeps, Keeps);
  }

  /** A marker check moves one task and changes none of what it holds. */
  lemma CheckIsPlain(task: Task)
    requires AfterCheck(task).Some?
    ensures var task' := AfterCheck(task).value;
            && SameIdentity(task, task') && !task.Retirer?
            && (task.Txn? ==>
                  && InIndex(task') == InIndex(task) && HoldsWriter(task'.pc) == HoldsWriter(task.pc)
                  && HasLock(task') == HasLock(task)
                  && HasInode(task'.pc) == HasInode(task.pc) && HasBase(task'.pc) == HasBase(task.pc)
                  && (HasInode(task.pc) ==> task'.pc.inode == task.pc.inode)
                  && (HasBase(task.pc) ==> task'.pc.base == task.pc.base)
                  && CanWrite(task') == CanWrite(task)
                  && (InIndex(task) ==> WorkOf(task') >= WorkOf(task))
                  && (Inserting(task') ==> (task.run, task.scope) in WorkOf(task') || Inserting(task))
                  && (Inserting(task) ==> WorkOf(task') == WorkOf(task)))
  {
  }

  lemma CheckKeepsInv(s: State, t: nat)
    requires Inv(s) && t in s.tasks && AfterCheck(s.tasks[t]).Some? && s.tasks[t].run !in s.markers
    ensures Inv(DoCheck(s, t))
  {
    var task := s.tasks[t];
    CheckIsPlain(task);
    assert TaskFits(s, task) && BaseIsCurrent(s, task) && TaskOk(s, task);
    QuietKeepsInv(s, DoCheck(s, t), t, Keeps, Keeps, Keeps);
  }

  lemma TakeLockKeepsInv(s: State, t: nat)
    requires Inv(s) && IsTxn(s, t) && s.tasks[t].pc.WantLock? && (s.tasks[t].proc, s.tasks[t].path) !in s.locks
    ensures Inv(DoTakeLock(s, t))
  {
    assert TaskFits(s, s.tasks[t]);
    QuietKeepsInv(s, DoTakeLock(s, t), t, Takes, Keeps, Keeps);
  }

  /** What an index transaction starts from names every journal at risk. */
  lemma WorkCovers(s: State)
    requires Wf(s) && Covered(s)
    ensures forall run, scope | AtRisk(s, run, scope) :: (run, scope) in Work(s)
  {
    forall run, scope | AtRisk(s, run, scope) ensures (run, scope) in Work(s) {
      var path := Canonical(run, scope);
      if !s.inventoried {
        assert Used(s, path);
        assert path in s.names && (path.run, path.scope) in Adopted(s);
      }
    }
  }

  lemma TxnBeginIndexKeepsInv(s: State, t: nat)
    requires Inv(s) && IsTxn(s, t) && s.tasks[t].pc.WantIndex? && s.indexLock.None?
    ensures Inv(DoBeginIndex(s, t))
  {
    assert TaskFits(s, s.tasks[t]);
    WorkCovers(s);
    QuietKeepsInv(s, DoBeginIndex(s, t), t, Keeps, Takes, Keeps);
  }

  lemma RetirerBeginIndexKeepsInv(s: State, t: nat)
    requires Inv(s) && IsRetirer(s, t) && WantsIndex(s.tasks[t]) && s.indexLock.None?
    ensures Inv(DoBeginIndex(s, t))
  {
    var s' := DoBeginIndex(s, t);
    WorkCovers(s);
    RetirerMoves(s, s', t);
    QuietKeepsInv(s, s', t, Keeps, Takes, Keeps);
  }

  /** A retirement that passes on the same work, or stops, stays right. */
  lemma RetirerMoves(s: State, s': State, t: nat)
    requires IsRetirer(s, t) && TaskOk(s, s.tasks[t]) && OthersKept(s, s', t) && s'.markers >= s.markers
    requires var rpc, rpc' := s.tasks[t].rpc, s'.tasks[t].rpc;
             && (!rpc'.Raised? && !rpc'.Start? ==> s.tasks[t].run in s'.markers)
             && (PastScopes(rpc') ==>
                   && PastScopes(rpc) && Todo(rpc') == Todo(rpc) && Failed(rpc') == Failed(rpc)
                   && !rpc'.Holding?)
    ensures RiskShrinks(s, s') ==> RetirerOk(s', s'.tasks[t])
  {
    HomeShrinks(s, s', t);
  }

  lemma BeginFileKeepsInv(s: State, t: nat)
    requires Inv(s) && IsTxn(s, t) && s.tasks[t].pc.Opened? && s.tasks[t].pc.inode !in s.writer
    ensures Inv(DoBeginFile(s, t))
  {
    assert TaskFits(s, s.tasks[t]);
    QuietKeepsInv(s, DoBeginFile(s, t), t, Keeps, Keeps, Takes);
  }

  lemma ReadOwnerKeepsInv(s: State, t: nat)
    requires Inv(s) && IsTxn(s, t) && s.tasks[t].pc.Begun? && s.tasks[t].pc.inode < |s.disk|
    requires OwnerMatches(s.disk[s.tasks[t].pc.inode].content, s.tasks[t])
    ensures Inv(DoReadOwner(s, t))
  {
    assert TaskFits(s, s.tasks[t]);
    OpenTxnMoves(s, t, InBody(s.tasks[t].pc.inode, s.disk[s.tasks[t].pc.inode].content));
  }

  /** A transaction that stays in its file, with the content it found there. */
  lemma OpenTxnMoves(s: State, t: nat, pc: Pc)
    requires Inv(s) && IsTxn(s, t) && HoldsWriter(s.tasks[t].pc) && HoldsWriter(pc) && pc.inode == s.tasks[t].pc.inode
    requires BaseIsCurrent(s, s.tasks[t].(pc := pc))
    ensures Inv(Goto(s, t, pc))
  {
    assert TaskFits(s, s.tasks[t]);
    OpenTxnKeepsLocks(s, t, pc);
    QuietKeepsInv(s, Goto(s, t, pc), t, Keeps, Keeps, Keeps);
  }

  lemma OpenTxnKeepsLocks(s: State, t: nat, pc: Pc)
    requires IsTxn(s, t) && HoldsWriter(s.tasks[t].pc) && HoldsWriter(pc) && pc.inode == s.tasks[t].pc.inode
    ensures LocksMove(s, Goto(s, t, pc), t, Keeps, Keeps, Keeps)
  {
  }

  lemma WriteKeepsInv(s: State, t: nat, out: Journal.Db)
    requires Inv(s) && IsTxn(s, t) && s.tasks[t].pc.InBody?
    ensures Inv(DoWrite(s, t, out))
  {
    assert BaseIsCurrent(s, s.tasks[t]);
    OpenTxnMoves(s, t, BodyDone(s.tasks[t].pc.inode, s.tasks[t].pc.base, out));
  }

  lemma TxnAbortKeepsInv(s: State, t: nat)
    requires Inv(s) && IsTxn(s, t)
    ensures Inv(DoAbort(s, t))
  {
    assert TaskFits(s, s.tasks[t]);
    QuietKeepsInv(s, DoAbort(s, t), t, Gives, Gives, Gives);
  }

  lemma RetirerAbortKeepsInv(s: State, t: nat)
    requires Inv(s) && IsRetirer(s, t)
    ensures Inv(DoAbort(s, t))
  {
    QuietKeepsInv(s, DoAbort(s, t), t, Gives, Gives, Gives);
  }

  lemma MarkKeepsInv(s: State, t: nat)
    requires Inv(s) && IsRetirer(s, t) && s.tasks[t].rpc.Start?
    ensures Inv(DoMark(s, t))
  {
    QuietKeepsInv(s, DoMark(s, t), t, Keeps, Keeps, Keeps);
  }

  /** Nobody of the retirer's process can be writing a journal whose lock is free. */
  lemma FreeLockMeansNoWriter(s: State, t: nat, scope: string)
    requires Locks(s) && IsRetirer(s, t)
    requires (s.tasks[t].proc, Canonical(s.tasks[t].run, scope)) !in s.locks
    ensures forall u | u in s.tasks && Local(s.tasks[u], s.tasks[t]) :: s.tasks[u].scope != scope
  {
    forall u | u in s.tasks && Local(s.tasks[u], s.tasks[t]) ensures s.tasks[u].scope != scope {
      assert LockKept(s, u);
    }
  }

  lemma PickKeepsInv(s: State, t: nat, scope: string)
    requires Inv(s) && IsRetirer(s, t) && s.tasks[t].rpc.Retiring? && scope in s.tasks[t].rpc.todo
    requires (s.tasks[t].proc, Canonical(s.tasks[t].run, scope)) !in s.locks
    ensures Inv(DoPick(s, t, scope))
  {
    var s' := DoPick(s, t, scope);
    PickedOk(s, t, scope);
    QuietKeepsInv(s, s', t, Takes, Keeps, Keeps);
  }

  lemma PickedOk(s: State, t: nat, scope: string)
    requires Locks(s) && IsRetirer(s, t) && s.tasks[t].rpc.Retiring? && TaskOk(s, s.tasks[t])
    requires (s.tasks[t].proc, Canonical(s.tasks[t].run, scope)) !in s.locks
    ensures var s' := DoPick(s, t, scope); RiskShrinks(s, s') ==> RetirerOk(s', s'.tasks[t])
  {
    HomeShrinks(s, DoPick(s, t, scope), t);
    FreeLockMeansNoWriter(s, t, scope);
  }

  lemma FailOneKeepsInv(s: State, t: nat)
    requires Inv(s) && IsRetirer(s, t) && s.tasks[t].rpc.Holding?
    ensures Inv(DoFailOne(s, t))
  {
    FailedOk(s, t);
    QuietKeepsInv(s, DoFailOne(s, t), t, Gives, Gives, Gives);
  }

  lemma FailedOk(s: State, t: nat)
    requires IsRetirer(s, t) && s.tasks[t].rpc.Holding? && TaskOk(s, s.tasks[t])
    ensures var s' := DoFailOne(s, t); RiskShrinks(s, s') ==> RetirerOk(s', s'.tasks[t])
  {
    HomeShrinks(s, DoFailOne(s, t), t);
  }

  lemma FinishKeepsInv(s: State, t: nat)
    requires Inv(s) && IsRetirer(s, t) && s.tasks[t].rpc.Retiring? && s.tasks[t].rpc.todo == {}
    ensures Inv(DoFinish(s, t))
  {
    assert TaskOk(s, s.tasks[t]);
    RetirerMoves(s, DoFinish(s, t), t);
    QuietKeepsInv(s, DoFinish(s, t), t, Keeps, Keeps, Keeps);
  }

  // -- Steps that change the directory --

  lemma AddKeepsInv(s: State, s': State, t: nat, path: Path, content: Content, m: Move)
    requires Inv(s) && LocksMove(s, s', t, m, m, m) && FileAdded(s, s', path, content)
    requires s'.markers == s.markers && s'.rows == s.rows && s'.inventoried == s.inventoried
    requires s'.premade >= s.premade
    requires s.inventoried || path.Foreign? || !content.Empty? || path in s'.premade
    requires ContentFits(File(path, content)) && TaskFits(s', s'.tasks[t]) && BaseIsCurrent(s', s'.tasks[t])
    requires Calm(s, t, s'.tasks[t]) && RiskShrinks(s, s') && TaskOk(s', s'.tasks[t])
    ensures Inv(s')
  {
    WfAfterAdd(s, s', t, path, content);
    LocksAfterMove(s, s', t, m, m, m);
    HomeShrinks(s, s', t);
    TasksAfter(s, s', t);
    forall u | u in s'.tasks ensures BaseIsCurrent(s', s'.tasks[u]) {
      assert u != t ==> BaseIsCurrent(s, s.tasks[u]);
    }
  }

  /** Another name's risk is what it was before a file was added. */
  lemma RiskElsewhere(s: State, s': State, t: nat, path: Path, content: Content, run: string, scope: string)
    requires Wf(s) && OthersKept(s, s', t) && FileAdded(s, s', path, content)
    requires s.premade <= s'.premade <= s.premade + {path} && Calm(s, t, s'.tasks[t])
    requires TaskFits(s', s'.tasks[t])
    requires Canonical(run, scope) != path && AtRisk(s', run, scope)
    ensures AtRisk(s, run, scope)
  {
    if !Used(s', Canonical(run, scope)) {
      var u :| PendingOn(s', u, run, scope);
      assert PendingOn(s, u, run, scope);
    }
  }

  lemma ConnectKeepsInv(s: State, t: nat)
    requires Inv(s) && IsTxn(s, t) && s.tasks[t].pc.Connecting?
    ensures Inv(DoConnect(s, t))
  {
    if s.tasks[t].path in s.names {
      OpenKeepsInv(s, t);
    } else {
      CreateKeepsInv(s, t);
    }
  }

  lemma OpenKeepsInv(s: State, t: nat)
    requires Inv(s) && IsTxn(s, t) && s.tasks[t].pc.Connecting? && s.tasks[t].path in s.names
    ensures Inv(DoConnect(s, t))
  {
    assert TaskFits(s, s.tasks[t]);
    QuietKeepsInv(s, DoConnect(s, t), t, Keeps, Keeps, Keeps);
  }

  lemma CreateKeepsInv(s: State, t: nat)
    requires Inv(s) && IsTxn(s, t) && s.tasks[t].pc.Connecting? && s.tasks[t].path !in s.names
    ensures Inv(DoConnect(s, t))
  {
    assert TaskFits(s, s.tasks[t]);
    ConnectShrinksRisk(s, t);
    AddKeepsInv(s, DoConnect(s, t), t, s.tasks[t].path, Empty, Keeps);
  }

  lemma ConnectShrinksRisk(s: State, t: nat)
    requires Wf(s) && IsTxn(s, t) && s.tasks[t].pc.Connecting? && s.tasks[t].path !in s.names
    ensures RiskShrinks(s, DoConnect(s, t))
  {
    var s' := DoConnect(s, t);
    var path := s.tasks[t].path;
    assert TaskFits(s, s.tasks[t]);
    forall run, scope | AtRisk(s', run, scope) ensures AtRisk(s, run, scope) {
      if path == Canonical(run, scope) {
        assert PendingOn(s, t, run, scope);
      } else {
        RiskElsewhere(s, s', t, path, Empty, run, scope);
      }
    }
  }

  lemma PremakeKeepsInv(s: State, t: nat)
    requires Inv(s) && t in s.tasks && s.tasks[t].Maker?
    ensures Inv(DoPremake(s, t))
  {
    var s' := DoPremake(s, t);
    var path := Canonical(s.tasks[t].run, s.tasks[t].scope);
    if path !in s.names {
      PremakeShrinksRisk(s, t);
      AddKeepsInv(s, s', t, path, Empty, Keeps);
    }
  }

  lemma PremakeShrinksRisk(s: State, t: nat)
    requires Wf(s) && t in s.tasks && s.tasks[t].Maker? && Canonical(s.tasks[t].run, s.tasks[t].scope) !in s.names
    ensures RiskShrinks(s, DoPremake(s, t))
  {
    var s' := DoPremake(s, t);
    var path := Canonical(s.tasks[t].run, s.tasks[t].scope);
    forall run, scope | AtRisk(s', run, scope) ensures AtRisk(s, run, scope) {
      if path == Canonical(run, scope) {
        var u :| PendingOn(s', u, run, scope);
        assert PendingOn(s, u, run, scope);
      } else {
        RiskElsewhere(s, s', t, path, Empty, run, scope);
      }
    }
  }

  lemma ReplaceKeepsInv(s: State, t: nat)
    requires Inv(s) && IsRetirer(s, t) && s.tasks[t].rpc.Holding?
    ensures Inv(DoReplace(s, t))
  {
    var s' := DoReplace(s, t);
    var run, scope := s.tasks[t].run, s.tasks[t].rpc.scope;
    ReplaceShrinksRisk(s, t);
    assert TaskOk(s, s.tasks[t]);
    ReplacedOk(s, t);
    ReplaceGivesLocks(s, t);
    AddKeepsInv(s, s', t, Canonical(run, scope), Closed(run, scope), Gives);
  }

  lemma ReplaceGivesLocks(s: State, t: nat)
    requires IsRetirer(s, t) && s.tasks[t].rpc.Holding?
    ensures LocksMove(s, DoReplace(s, t), t, Gives, Gives, Gives)
  {
  }

  lemma ReplaceShrinksRisk(s: State, t: nat)
    requires Wf(s) && IsRetirer(s, t) && s.tasks[t].rpc.Holding?
    ensures var s' := DoReplace(s, t);
            && RiskShrinks(s, s')
            && IsClosed(s', Canonical(s.tasks[t].run, s.tasks[t].rpc.scope))
  {
    var s' := DoReplace(s, t);
    var r, c := s.tasks[t].run, s.tasks[t].rpc.scope;
    assert IsClosed(s', Canonical(r, c));
    forall run, scope | AtRisk(s', run, scope) ensures AtRisk(s, run, scope) {
      RiskElsewhere(s, s', t, Canonical(r, c), Closed(r, c), run, scope);
    }
  }

  lemma ReplacedOk(s: State, t: nat)
    requires Wf(s) && IsRetirer(s, t) && s.tasks[t].rpc.Holding? && TaskOk(s, s.tasks[t])
    ensures var s' := DoReplace(s, t); RetirerOk(s', s'.tasks[t])
  {
    ReplaceShrinksRisk(s, t);
    HomeShrinks(s, DoReplace(s, t), t);
  }

  lemma CommitKeepsInv(s: State, t: nat)
    requires Inv(s) && IsTxn(s, t) && s.tasks[t].pc.CheckedLast? && s.tasks[t].pc.inode < |s.disk|
    ensures Inv(DoCommit(s, t))
  {
    var s' := DoCommit(s, t);
    CommitKeepsWf(s, t);
    CommitGivesLocks(s, t);
    HomeShrinks(s, s', t);
    CommitShrinksRisk(s, t);
    TasksAfter(s, s', t);
    CommitIsSerial(s, t);
  }

  lemma CommitKeepsWf(s: State, t: nat)
    requires Wf(s) && IsTxn(s, t) && s.tasks[t].pc.CheckedLast? && s.tasks[t].pc.inode < |s.disk|
    ensures Wf(DoCommit(s, t))
  {
    var task := s.tasks[t];
    assert TaskFits(s, task);
    WfAfterWrite(s, DoCommit(s, t), t, task.pc.inode, Live(task.run, task.scope, task.pc.out));
  }

  lemma CommitGivesLocks(s: State, t: nat)
    requires Locks(s) && IsTxn(s, t) && s.tasks[t].pc.CheckedLast? && s.tasks[t].pc.inode < |s.disk|
    ensures Locks(DoCommit(s, t))
  {
    LocksAfterMove(s, DoCommit(s, t), t, Gives, Gives, Gives);
  }

  lemma CommitIsSerial(s: State, t: nat)
    requires Locks(s) && Serial(s) && IsTxn(s, t) && s.tasks[t].pc.CheckedLast? && s.tasks[t].pc.inode < |s.disk|
    ensures Serial(DoCommit(s, t))
  {
    var s' := DoCommit(s, t);
    assert LockKept(s, t);
    forall u | u in s'.tasks ensures BaseIsCurrent(s', s'.tasks[u]) {
      if u != t {
        assert BaseIsCurrent(s, s.tasks[u]) && LockKept(s, u);
      }
    }
  }

  lemma CommitShrinksRisk(s: State, t: nat)
    requires Wf(s) && Serial(s)
    requires IsTxn(s, t) && s.tasks[t].pc.CheckedLast? && s.tasks[t].pc.inode < |s.disk|
    ensures RiskShrinks(s, DoCommit(s, t))
  {
    var s' := DoCommit(s, t);
    var task := s.tasks[t];
    assert TaskFits(s, task) && BaseIsCurrent(s, task);
    forall run, scope | AtRisk(s', run, scope) ensures AtRisk(s, run, scope) {
      var path := Canonical(run, scope);
      if path == task.path {
        assert PendingOn(s, t, run, scope);
      } else if !Used(s', path) {
        var u :| PendingOn(s', u, run, scope);
        assert PendingOn(s, u, run, scope);
      }
    }
  }

  // -- Steps that commit to the index --

  lemma AloneInIndex(s: State, t: nat)
    requires Locks(s) && t in s.tasks && InIndex(s.tasks[t])
    ensures forall u | u in s.tasks && u != t :: !InIndex(s.tasks[u])
  {
    assert LockKept(s, t);
    forall u | u in s.tasks && u != t ensures !InIndex(s.tasks[u]) {
      assert LockKept(s, u);
    }
  }

  /** Committing the registration puts one journal at risk, and its row with it. */
  lemma CommitRowRisk(s: State, t: nat, run: string, scope: string)
    requires Wf(s) && IsTxn(s, t) && s.tasks[t].pc.IndexChecked? && TaskOk(s, s.tasks[t])
    requires AtRisk(DoCommitRow(s, t), run, scope)
    ensures AtRisk(s, run, scope) || (run, scope) == (s.tasks[t].run, s.tasks[t].scope)
    ensures (run, scope) in s.tasks[t].pc.work
  {
    var s' := DoCommitRow(s, t);
    assert TaskFits(s, s.tasks[t]);
    if !Used(s', Canonical(run, scope)) {
      var u :| PendingOn(s', u, run, scope);
      assert u != t ==> PendingOn(s, u, run, scope);
    }
  }

  lemma CommitRowCovers(s: State, t: nat)
    requires Wf(s) && Covered(s) && IsTxn(s, t) && s.tasks[t].pc.IndexChecked? && TaskOk(s, s.tasks[t])
    ensures Covered(DoCommitRow(s, t))
  {
    var s' := DoCommitRow(s, t);
    HomeShrinks(s, s', t);
    forall run, scope | AtRisk(s', run, scope) ensures (run, scope) in s'.rows {
      CommitRowRisk(s, t, run, scope);
    }
  }

  lemma CommitRowTasks(s: State, t: nat)
    requires Inv(s) && IsTxn(s, t) && s.tasks[t].pc.IndexChecked?
    ensures var s' := DoCommitRow(s, t); forall u | u in s'.tasks :: TaskOk(s', s'.tasks[u])
  {
    var s' := DoCommitRow(s, t);
    AloneInIndex(s, t);
    HomeShrinks(s, s', t);
    forall u | u in s'.tasks ensures TaskOk(s', s'.tasks[u]) {
      if u != t && s.tasks[u].Retirer? {
        CommitRowRetirer(s, t, u);
      }
    }
  }

  lemma CommitRowRetirer(s: State, t: nat, u: nat)
    requires Wf(s) && IsTxn(s, t) && s.tasks[t].pc.IndexChecked? && TaskOk(s, s.tasks[t])
    requires IsRetirer(s, u) && TaskOk(s, s.tasks[u])
    ensures RetirerOk(DoCommitRow(s, t), s.tasks[u])
  {
    var s' := DoCommitRow(s, t);
    HomeShrinks(s, s', t);
    assert Inserting(s.tasks[t]);
    if PastScopes(s.tasks[u].rpc) {
      forall scope | AtRisk(s', s.tasks[u].run, scope) ensures AtRisk(s, s.tasks[u].run, scope) {
        CommitRowRisk(s, t, s.tasks[u].run, scope);
      }
    }
  }

  lemma CommitRowKeepsInv(s: State, t: nat)
    requires Inv(s) && IsTxn(s, t) && s.tasks[t].pc.IndexChecked?
    ensures Inv(DoCommitRow(s, t))
  {
    var s' := DoCommitRow(s, t);
    assert TaskFits(s, s.tasks[t]) && LockKept(s, t);
    WfAfterQuietStep(s, s', t);
    LocksAfterMove(s, s', t, Keeps, Gives, Keeps);
    CommitRowCovers(s, t);
    CommitRowTasks(s, t);
    SerialAfterQuietStep(s, s', t);
  }

  lemma SerialAfterQuietStep(s: State, s': State, t: nat)
    requires Serial(s) && OthersKept(s, s', t) && DiskKept(s, s') && BaseIsCurrent(s', s'.tasks[t])
    ensures Serial(s')
  {
    forall u | u in s'.tasks ensures BaseIsCurrent(s', s'.tasks[u]) {
      assert u != t ==> BaseIsCurrent(s, s.tasks[u]);
    }
  }

  /** A retirement that commits its own index transaction. */
  lemma RetirerCommitKeepsInv(s: State, s': State, t: nat)
    requires Inv(s) && IsRetirer(s, t) && InIndex(s.tasks[t])
    requires LocksMove(s, s', t, Keeps, Gives, Keeps) && DiskKept(s, s') && s'.markers == s.markers
    requires s'.premade == s.premade && s'.inventoried
    requires RiskShrinks(s, s') ==> Covered(s') && TaskOk(s', s'.tasks[t])
    ensures Inv(s')
  {
    WfAfterQuietStep(s, s', t);
    LocksAfterMove(s, s', t, Keeps, Gives, Keeps);
    RiskAfterQuietStep(s, s', t);
    AloneInIndex(s, t);
    TasksAfter(s, s', t);
    SerialAfterQuietStep(s, s', t);
  }

  lemma ScopesAreCovered(s: State, t: nat)
    requires Wf(s) && Covered(s) && IsRetirer(s, t) && s.tasks[t].rpc.ReadingScopes? && TaskOk(s, s.tasks[t])
    ensures var s' := DoReadScopes(s, t); RiskShrinks(s, s') ==> Covered(s')
  {
    HomeShrinks(s, DoReadScopes(s, t), t);
  }

  /** Every journal at risk, and every writer of the same process, has its scope read. */
  lemma ScopesAreComplete(s: State, t: nat)
    requires Locks(s) && Covered(s)
    requires IsRetirer(s, t) && s.tasks[t].rpc.ReadingScopes? && TaskOk(s, s.tasks[t])
    ensures var s' := DoReadScopes(s, t); RiskShrinks(s, s') ==> RetirerOk(s', s'.tasks[t])
  {
    var s' := DoReadScopes(s, t);
    var run, work := s.tasks[t].run, s.tasks[t].rpc.work;
    HomeShrinks(s, s', t);
    AloneInIndex(s, t);
    if RiskShrinks(s, s') {
      forall scope | AtRisk(s', run, scope) ensures scope in ScopesOf(work, run) {
        assert (run, scope) in work && (run, scope).0 == run;
      }
      forall u | u in s'.tasks && Local(s'.tasks[u], s'.tasks[t]) && Home(s', run, s.tasks[t].proc)
        ensures s'.tasks[u].scope in ScopesOf(work, run)
      {
        assert (run, s.tasks[u].scope) in work && (run, s.tasks[u].scope).0 == run;
      }
    }
  }

  lemma ReadScopesKeepsInv(s: State, t: nat)
    requires Inv(s) && IsRetirer(s, t) && s.tasks[t].rpc.ReadingScopes?
    ensures Inv(DoReadScopes(s, t))
  {
    ScopesAreCovered(s, t);
    ScopesAreComplete(s, t);
    RetirerCommitKeepsInv(s, DoReadScopes(s, t), t);
  }

  /** Rows are forgotten only when nothing of the run is at risk. */
  lemma ForgettingIsSafe(s: State, t: nat)
    requires Covered(s) && IsRetirer(s, t) && s.tasks[t].rpc.Forgetting? && TaskOk(s, s.tasks[t])
    ensures var s' := DoForget(s, t);
            RiskShrinks(s, s') ==> Covered(s') && RetirerOk(s', s'.tasks[t])
  {
    var s' := DoForget(s, t);
    HomeShrinks(s, s', t);
    if RiskShrinks(s, s') {
      forall u | u in s'.tasks && CanWrite(s'.tasks[u]) && Home(s', s'.tasks[u].run, s'.tasks[u].proc)
        ensures (s'.tasks[u].run, s'.tasks[u].scope) in s'.rows
      {
        assert s.tasks[u].run == s.tasks[t].run ==> Local(s.tasks[u], s.tasks[t]) by { assert t in s'.tasks; }
      }
    }
  }

  lemma ForgetKeepsInv(s: State, t: nat)
    requires Inv(s) && IsRetirer(s, t) && s.tasks[t].rpc.Forgetting?
    ensures Inv(DoForget(s, t))
  {
    ForgettingIsSafe(s, t);
    RetirerCommitKeepsInv(s, DoForget(s, t), t);
  }

  lemma TxnStepKeepsInv(s: State, a: Action)
    requires Inv(s) && Enabled(s, a) && IsTxn(s, a.t) && !a.Spawn?
    ensures Inv(Apply(s, a))
  {
    var t := a.t;
    match a
    case Check(_) => CheckKeepsInv(s, t);
    case TakeLock(_) => TakeLockKeepsInv(s, t);
    case BeginIndex(_) => TxnBeginIndexKeepsInv(s, t);
    case CommitRow(_) => CommitRowKeepsInv(s, t);
    case Connect(_) => ConnectKeepsInv(s, t);
    case BeginFile(_) => BeginFileKeepsInv(s, t);
    case ReadOwner(_) => ReadOwnerKeepsInv(s, t);
    case Write(_, out) => WriteKeepsInv(s, t, out);
    case Commit(_) => CommitKeepsInv(s, t);
    case Abort(_) => TxnAbortKeepsInv(s, t);
  }

  lemma RetirerStepKeepsInv(s: State, a: Action)
    requires Inv(s) && Enabled(s, a) && IsRetirer(s, a.t) && !a.Spawn?
    ensures Inv(Apply(s, a))
  {
    var t := a.t;
    match a
    case BeginIndex(_) => RetirerBeginIndexKeepsInv(s, t);
    case Abort(_) => RetirerAbortKeepsInv(s, t);
    case Mark(_) => MarkKeepsInv(s, t);
    case ReadScopes(_) => ReadScopesKeepsInv(s, t);
    case Pick(_, scope) => PickKeepsInv(s, t, scope);
    case Replace(_) => ReplaceKeepsInv(s, t);
    case FailOne(_) => FailOneKeepsInv(s, t);
    case Finish(_) => FinishKeepsInv(s, t);
    case Forget(_) => ForgetKeepsInv(s, t);
  }

  /** Every step of every task keeps the invariant. */
  lemma StepKeepsInv(s: State, a: Action)
    requires Inv(s) && Enabled(s, a)
    ensures Inv(Apply(s, a))
  {
    if a.Spawn? {
      SpawnKeepsInv(s, a.t, a.task);
    } else if s.tasks[a.t].Txn? {
      TxnStepKeepsInv(s, a);
    } else if s.tasks[a.t].Retirer? {
      RetirerStepKeepsInv(s, a);
    } else if a.Check? {
      CheckKeepsInv(s, a.t);
    } else {
      PremakeKeepsInv(s, a.t);
    }
  }

  // ---- Over whole runs ----

  lemma InitIsInv(s: State)
    requires Init(s)
    ensures Inv(s)
  {
    forall run, scope | AtRisk(s, run, scope) ensures s.inventoried ==> (run, scope) in s.rows {
      assert forall t :: !PendingOn(s, t, run, scope);
      assert Used(s, Canonical(run, scope));
    }
    forall p | p in s.names && p.Canonical? && p !in s.premade && !s.inventoried
      ensures !s.disk[s.names[p]].content.Empty?
    {
      assert Used(s, p);
    }
  }

  lemma {:induction false} InvAlways(s: State, actions: seq<Action>)
    requires Inv(s) && IsRun(s, actions)
    ensures Inv(After(s, actions))
    decreases |actions|
  {
    if actions != [] {
      StepKeepsInv(s, actions[0]);
      InvAlways(Apply(s, actions[0]), actions[1..]);
    }
  }

  // ---- What retirement guarantees ----

  ghost predicate HasReturned(s: State, run: string) {
    exists t :: ReturnedAt(s, t, run)
  }

  ghost predicate ReturnedAt(s: State, t: nat, run: string) {
    IsRetirer(s, t) && s.tasks[t].run == run && s.tasks[t].rpc.Returned?
  }

  /**
   In every interleaving, once a retirement of the run has returned, every
   canonical file of the run in the directory is its closed header, except an
   empty file that was only ever set aside for the isolated bridge.
   */
  lemma RetirementClosesEveryJournal(s: State, actions: seq<Action>, run: string, scope: string)
    requires Init(s) && IsRun(s, actions) && HasReturned(After(s, actions), run)
    requires Canonical(run, scope) in After(s, actions).names
    ensures var s' := After(s, actions);
            var path := Canonical(run, scope);
            && s'.names[path] < |s'.disk|
            && (s'.disk[s'.names[path]].content == Closed(run, scope)
                || (s'.disk[s'.names[path]].content == Empty && path in s'.premade))
  {
    InitIsInv(s);
    InvAlways(s, actions);
    var s' := After(s, actions);
    var t :| ReturnedAt(s', t, run);
    assert TaskOk(s', s'.tasks[t]) && !AtRisk(s', run, scope);
    var i := s'.names[Canonical(run, scope)];
    assert ContentFits(s'.disk[i]) && s'.disk[i].path == Canonical(run, scope);
  }

  /** A step moves its own task, which stays the same task, and never takes a marker away. */
  lemma OneTaskMoves(s: State, a: Action)
    requires Enabled(s, a)
    ensures OthersKept(s, Apply(s, a), a.t) && s.markers <= Apply(s, a).markers
  {
    if a.Check? {
      CheckIsPlain(s.tasks[a.t]);
    } else if a.Spawn? || s.tasks[a.t].Txn? {
      OneTxnMoves(s, a);
    } else {
      OneOtherMoves(s, a);
    }
  }

  lemma OneTxnMoves(s: State, a: Action)
    requires Enabled(s, a) && !a.Check? && (a.Spawn? || IsTxn(s, a.t))
    ensures OthersKept(s, Apply(s, a), a.t) && s.markers <= Apply(s, a).markers
  {
  }

  lemma OneOtherMoves(s: State, a: Action)
    requires Enabled(s, a) && !a.Check? && !a.Spawn? && !IsTxn(s, a.t)
    ensures OthersKept(s, Apply(s, a), a.t) && s.markers <= Apply(s, a).markers
  {
  }

  predicate MakesNoFile(actions: seq<Action>) {
    forall i | 0 <= i < |actions| && actions[i].Spawn? :: !actions[i].task.Maker?
  }

  lemma {:induction false} NothingIsPremade(s: State, actions: seq<Action>)
    requires IsRun(s, actions) && s.premade == {} && MakesNoFile(actions)
    requires forall t | t in s.tasks :: !s.tasks[t].Maker?
    ensures After(s, actions).premade == {}
    decreases |actions|
  {
    if actions != [] {
      OneTaskMoves(s, actions[0]);
      NothingIsPremade(Apply(s, actions[0]), actions[1..]);
    }
  }

  /** Where no identity is isolated, nothing sets files aside and the guarantee has no exception. */
  lemma WithoutIsolationEveryFileIsClosed(s: State, actions: seq<Action>, run: string, scope: string)
    requires Init(s) && s.premade == {} && IsRun(s, actions) && MakesNoFile(actions)
    requires HasReturned(After(s, actions), run) && Canonical(run, scope) in After(s, actions).names
    ensures IsClosed(After(s, actions), Canonical(run, scope))
  {
    NothingIsPremade(s, actions);
    RetirementClosesEveryJournal(s, actions, run, scope);
  }

  lemma {:induction false} ReturnedStays(s: State, actions: seq<Action>, run: string)
    requires IsRun(s, actions) && HasReturned(s, run)
    ensures HasReturned(After(s, actions), run)
    decreases |actions|
  {
    if actions != [] {
      var t :| ReturnedAt(s, t, run);
      OneTaskMoves(s, actions[0]);
      assert actions[0].t != t;
      assert ReturnedAt(Apply(s, actions[0]), t, run);
      ReturnedStays(Apply(s, actions[0]), actions[1..], run);
    }
  }

  /** A closed header is never reopened: whatever runs later, the name still leads to it. */
  lemma {:induction false} ClosedStays(s: State, actions: seq<Action>, run: string, scope: string)
    requires Inv(s) && IsRun(s, actions) && IsClosed(s, Canonical(run, scope))
    ensures IsClosed(After(s, actions), Canonical(run, scope))
    decreases |actions|
  {
    if actions != [] {
      StepKeepsInv(s, actions[0]);
      ClosedStaysOnce(s, actions[0], run, scope);
      ClosedStays(Apply(s, actions[0]), actions[1..], run, scope);
    }
  }

  /** Most steps leave names and files alone. */
  lemma MostKeepTheDirectory(s: State, a: Action)
    requires Enabled(s, a) && !a.Connect? && !a.Premake? && !a.Replace? && !a.Commit?
    ensures DiskKept(s, Apply(s, a))
  {
  }

  lemma ClosedStaysOnce(s: State, a: Action, run: string, scope: string)
    requires Serial(s) && Enabled(s, a) && IsClosed(s, Canonical(run, scope))
    ensures IsClosed(Apply(s, a), Canonical(run, scope))
  {
    if a.Commit? {
      CommitLeavesClosed(s, a.t, run, scope);
    } else if a.Connect? {
      assert Apply(s, a) == DoConnect(s, a.t);
    } else if a.Premake? {
      assert Apply(s, a) == DoPremake(s, a.t);
    } else if a.Replace? {
      assert Apply(s, a) == DoReplace(s, a.t);
    } else {
      MostKeepTheDirectory(s, a);
    }
  }

  /** A transaction commits only over content it owns, and nobody owns a closed header. */
  lemma CommitLeavesClosed(s: State, t: nat, run: string, scope: string)
    requires Serial(s) && Enabled(s, Commit(t)) && IsClosed(s, Canonical(run, scope))
    ensures IsClosed(DoCommit(s, t), Canonical(run, scope))
  {
    assert BaseIsCurrent(s, s.tasks[t]);
  }

  /**
   A transaction that can still commit after the run's retirement has returned
   is writing a file that has lost its name, and it belongs to another process
   than the one retiring the run.
   */
  lemma LateCommitIsInvisible(s: State, actions: seq<Action>, t: nat, u: nat)
    requires Init(s) && IsRun(s, actions)
    requires var s' := After(s, actions); IsRetirer(s', t) && s'.tasks[t].rpc.Returned?
    requires var s' := After(s, actions); Enabled(s', Commit(u)) && IsCanonical(s'.tasks[u])
    requires var s' := After(s, actions); s'.tasks[u].run == s'.tasks[t].run
    ensures var s' := After(s, actions);
            var task := s'.tasks[u];
            && task.path in s'.names && s'.names[task.path] != task.pc.inode
            && (Home(s', task.run, s'.tasks[t].proc) ==> task.proc != s'.tasks[t].proc)
  {
    InitIsInv(s);
    InvAlways(s, actions);
    var s' := After(s, actions);
    var task := s'.tasks[u];
    assert TaskOk(s', s'.tasks[t]) && TaskFits(s', task) && BaseIsCurrent(s', task);
    assert PendingOn(s', u, task.run, task.scope);
    assert !AtRisk(s', task.run, task.scope);
  }

  /** A transaction that has passed every marker check, or committed. */
  predicate PastChecks(task: Task) {
    task.Txn? && (task.pc.CheckedLast? || task.pc.Committed?)
  }

  /** Once the marker exists, a transaction that has not passed its last check never passes it and never commits. */
  lemma {:induction false} MarkerRefusesTransactions(s: State, actions: seq<Action>, u: nat, run: string)
    requires IsRun(s, actions) && run in s.markers
    requires u in s.tasks ==> s.tasks[u].run == run ==> !PastChecks(s.tasks[u])
    ensures var s' := After(s, actions);
            run in s'.markers && (u in s'.tasks ==> s'.tasks[u].run == run ==> !PastChecks(s'.tasks[u]))
    decreases |actions|
  {
    if actions != [] {
      OneTaskMoves(s, actions[0]);
      MarkerRefusesOnce(s, actions[0], u, run);
      MarkerRefusesTransactions(Apply(s, actions[0]), actions[1..], u, run);
    }
  }

  lemma MarkerRefusesOnce(s: State, a: Action, u: nat, run: string)
    requires Enabled(s, a) && run in s.markers
    requires u in s.tasks ==> s.tasks[u].run == run ==> !PastChecks(s.tasks[u])
    ensures var s' := Apply(s, a); u in s'.tasks ==> s'.tasks[u].run == run ==> !PastChecks(s'.tasks[u])
  {
    OneTaskMoves(s, a);
  }

  /** Commits to one file are serial: each replaces exactly the content it read. */
  lemma CommitsAreSerial(s: State, actions: seq<Action>, u: nat)
    requires Init(s) && IsRun(s, actions) && Enabled(After(s, actions), Commit(u))
    ensures var s' := After(s, actions);
            s'.disk[s'.tasks[u].pc.inode].content == s'.tasks[u].pc.base
  {
    InitIsInv(s);
    InvAlways(s, actions);
    assert BaseIsCurrent(After(s, actions), After(s, actions).tasks[u]);
  }

  /** A journal is never replaced while a transaction of the same process has it open. */
  lemma OwnOpenFileIsNeverReplaced(s: State, actions: seq<Action>, t: nat, u: nat)
    requires Init(s) && IsRun(s, actions)
    requires var s' := After(s, actions); Enabled(s', Replace(t)) && IsTxn(s', u) && HasInode(s'.tasks[u].pc)
    requires var s' := After(s, actions); s'.tasks[u].proc == s'.tasks[t].proc
    ensures var s' := After(s, actions);
            s'.tasks[u].path != Canonical(s'.tasks[t].run, s'.tasks[t].rpc.scope)
  {
    InitIsInv(s);
    InvAlways(s, actions);
    var s' := After(s, actions);
    assert LockKept(s', t) && LockKept(s', u);
  }
}
