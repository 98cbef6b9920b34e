/**
 Journal transactions racing a run's retirement in one storage directory.

 Tasks in any number of processes take interleaved atomic steps over the closed
 markers, the ownership index, the directory's names, the files behind them, and
 three kinds of lock.  A file is known by its inode: replacing a name leaves an
 open transaction working on the file that lost it.  Canonical names are written
 as the owners they digest, which `Journal.NamesHaveOneOwner` justifies.
 */
module RetirementModel {
  import opened Basics
  import Journal

  datatype Path = Canonical(run: string, scope: string) | Foreign(name: string)

  /** No owner row yet, an owner row of version 1, or the closed header of version 2. */
  datatype Content =
    | Empty
    | Live(run: string, scope: string, db: Journal.Db)
    | Closed(run: string, scope: string)

  /** A file, with the name it was created under. */
  datatype File = File(path: Path, content: Content)

  type Rows = set<(string, string)>

  /** Where a transaction of `ToolCallJournal` stands. */
  datatype Pc =
    | Entry                                // before the check outside the lock
    | WantLock
    | Locked                               // before the first check under the lock
    | WantIndex                            // before the index's BEGIN IMMEDIATE
    | IndexBegun(work: Rows)
    | IndexInserted(work: Rows)            // before the second check of `register`
    | IndexChecked(work: Rows)             // before the index commit
    | Registered                           // before the check that follows `register`
    | Connecting
    | Opened(inode: nat)                   // before BEGIN IMMEDIATE
    | Begun(inode: nat)                    // before the check and the owner row
    | InBody(inode: nat, base: Content)
    | BodyDone(inode: nat, base: Content, out: Journal.Db)
    | CheckedLast(inode: nat, base: Content, out: Journal.Db)
    | Committed
    | Refused

  /** Where a call of `retire_run_tool_calls` stands. */
  datatype RetirePc =
    | Start
    | Marked
    | ReadingScopes(work: Rows)
    | Retiring(todo: set<string>, failed: bool)
    | Holding(todo: set<string>, failed: bool, scope: string)
    | WantForget
    | Forgetting(work: Rows)
    | Returned
    | Raised

  datatype Task =
    | Txn(proc: nat, path: Path, run: string, scope: string, pc: Pc)
    | Retirer(proc: nat, run: string, rpc: RetirePc)
    | Maker(run: string, scope: string, checked: bool)   // `tool_call_journal_path` when identities are isolated

  datatype State = State(
    markers: set<string>,
    rows: Rows,
    inventoried: bool,
    indexLock: Option<nat>,              // the task inside an index transaction
    names: map<Path, nat>,
    disk: seq<File>,
    writer: map<nat, nat>,               // inode to the task inside its BEGIN IMMEDIATE
    locks: map<(nat, Path), nat>,        // the journal lock is one process's own
    premade: set<Path>,                  // empty files made for the isolated bridge
    tasks: map<nat, Task>)

  /** One atomic step of one task. */
  datatype Action =
    | Spawn(t: nat, task: Task)
    | Check(t: nat)                      // the marker is looked for, and is absent
    | TakeLock(t: nat)
    | BeginIndex(t: nat)
    | CommitRow(t: nat)
    | Connect(t: nat)
    | BeginFile(t: nat)
    | ReadOwner(t: nat)
    | Write(t: nat, out: Journal.Db)     // the transaction body, whatever it does
    | Commit(t: nat)
    | Abort(t: nat)                      // a refusal, an exception, a cancellation or a crash
    | Mark(t: nat)
    | ReadScopes(t: nat)
    | Pick(t: nat, chosen: string)       // retirement takes one scope's lock
    | Replace(t: nat)
    | FailOne(t: nat)                    // replacing one journal raises
    | Finish(t: nat)
    | Forget(t: nat)
    | Premake(t: nat)

  // ---- Reading a state ----

  predicate IsCanonical(task: Task) {
    task.Txn? && task.path == Canonical(task.run, task.scope)
  }

  predicate HasInode(pc: Pc) {
    pc.Opened? || pc.Begun? || pc.InBody? || pc.BodyDone? || pc.CheckedLast?
  }

  predicate HoldsWriter(pc: Pc) {
    pc.Begun? || pc.InBody? || pc.BodyDone? || pc.CheckedLast?
  }

  predicate HasBase(pc: Pc) {
    pc.InBody? || pc.BodyDone? || pc.CheckedLast?
  }

  predicate InIndex(task: Task) {
    || (task.Txn? && (task.pc.IndexBegun? || task.pc.IndexInserted? || task.pc.IndexChecked?))
    || (task.Retirer? && (task.rpc.ReadingScopes? || task.rpc.Forgetting?))
  }

  function WorkOf(task: Task): Rows
    requires InIndex(task)
  {
    if task.Txn? then task.pc.work else task.rpc.work
  }

  predicate HasLock(task: Task) {
    || (task.Txn? && !(task.pc.Entry? || task.pc.WantLock? || task.pc.Committed? || task.pc.Refused?))
    || (task.Retirer? && task.rpc.Holding?)
  }

  function LockOf(task: Task): (nat, Path)
    requires HasLock(task)
  {
    (task.proc, if task.Txn? then task.path else Canonical(task.run, task.rpc.scope))
  }

  /** Registered and not yet finished: the only transactions that can still write. */
  predicate PastRegister(pc: Pc) {
    pc.Registered? || pc.Connecting? || HasInode(pc)
  }

  predicate IsClosed(s: State, path: Path) {
    path in s.names && s.names[path] < |s.disk| && s.disk[s.names[path]].content.Closed?
  }

  /** What an index transaction starts from; the first ever adopts the files already there. */
  function Work(s: State): Rows {
    if s.inventoried then s.rows else s.rows + Adopted(s)
  }

  function Adopted(s: State): Rows {
    set p | p in s.names && p.Canonical? && s.names[p] < |s.disk| && !s.disk[s.names[p]].content.Empty?
      :: (p.run, p.scope)
  }

  function ScopesOf(work: Rows, run: string): set<string> {
    set r | r in work && r.0 == run :: r.1
  }

  function Without(work: Rows, run: string): Rows {
    set r | r in work && r.0 != run
  }

  // ---- Steps ----

  function Put(s: State, t: nat, task: Task): State {
    s.(tasks := s.tasks[t := task])
  }

  function Goto(s: State, t: nat, pc: Pc): State
    requires t in s.tasks && s.tasks[t].Txn?
  {
    Put(s, t, s.tasks[t].(pc := pc))
  }

  function RGoto(s: State, t: nat, rpc: RetirePc): State
    requires t in s.tasks && s.tasks[t].Retirer?
  {
    Put(s, t, s.tasks[t].(rpc := rpc))
  }

  /** Everything a task holds, given back; an uncommitted transaction leaves nothing behind. */
  function Drop(s: State, t: nat): State {
    s.(indexLock := if s.indexLock == Some(t) then None else s.indexLock,
       writer := s.writer - WriterOf(s, t),
       locks := s.locks - LocksOf(s, t))
  }

  function WriterOf(s: State, t: nat): set<nat> {
    set i | i in s.writer && s.writer[i] == t
  }

  function LocksOf(s: State, t: nat): set<(nat, Path)> {
    set k | k in s.locks && s.locks[k] == t
  }

  predicate OwnerMatches(content: Content, task: Task)
    requires task.Txn?
  {
    content.Empty? || (content.Live? && content.run == task.run && content.scope == task.scope)
  }

  /** Where a marker check that finds nothing leads; None where no check is due. */
  function AfterCheck(task: Task): Option<Task> {
    match task
    case Txn(_, _, run, scope, pc) =>
      (match pc
       case Entry => Some(task.(pc := WantLock))
       case Locked => Some(task.(pc := if IsCanonical(task) then WantIndex else Registered))
       case IndexBegun(work) => Some(task.(pc := IndexInserted(work + {(run, scope)})))
       case IndexInserted(work) => Some(task.(pc := IndexChecked(work)))
       case Registered => Some(task.(pc := Connecting))
       case BodyDone(i, base, out) => Some(task.(pc := CheckedLast(i, base, out)))
       case _ => None)
    case Retirer(_, _, _) => None
    case Maker(_, _, checked) => if checked then None else Some(task.(checked := true))
  }

  function DoCheck(s: State, t: nat): State
    requires t in s.tasks && AfterCheck(s.tasks[t]).Some?
  {
    Put(s, t, AfterCheck(s.tasks[t]).value)
  }

  function DoTakeLock(s: State, t: nat): State
    requires IsTxn(s, t) && s.tasks[t].pc.WantLock?
  {
    Goto(s.(locks := s.locks[(s.tasks[t].proc, s.tasks[t].path) := t]), t, Locked)
  }

  predicate WantsIndex(task: Task) {
    (task.Txn? && task.pc.WantIndex?) || (task.Retirer? && (task.rpc.Marked? || task.rpc.WantForget?))
  }

  function DoBeginIndex(s: State, t: nat): State
    requires t in s.tasks && WantsIndex(s.tasks[t])
  {
    var task := s.tasks[t];
    var s1 := s.(indexLock := Some(t));
    if task.Txn? then Goto(s1, t, IndexBegun(Work(s)))
    else RGoto(s1, t, if task.rpc.Marked? then ReadingScopes(Work(s)) else Forgetting(Work(s)))
  }

  function DoCommitRow(s: State, t: nat): State
    requires IsTxn(s, t) && s.tasks[t].pc.IndexChecked?
  {
    Goto(s.(rows := s.tasks[t].pc.work, inventoried := true, indexLock := None), t, Registered)
  }

  /** Opening a missing database creates it empty. */
  function DoConnect(s: State, t: nat): State
    requires IsTxn(s, t) && s.tasks[t].pc.Connecting?
  {
    var path := s.tasks[t].path;
    if path in s.names then Goto(s, t, Opened(s.names[path]))
    else Goto(Added(s, path, Empty), t, Opened(|s.disk|))
  }

  function Added(s: State, path: Path, content: Content): State {
    s.(names := s.names[path := |s.disk|], disk := s.disk + [File(path, content)])
  }

  function DoBeginFile(s: State, t: nat): State
    requires IsTxn(s, t) && s.tasks[t].pc.Opened?
  {
    Goto(s.(writer := s.writer[s.tasks[t].pc.inode := t]), t, Begun(s.tasks[t].pc.inode))
  }

  function DoReadOwner(s: State, t: nat): State
    requires IsTxn(s, t) && s.tasks[t].pc.Begun? && s.tasks[t].pc.inode < |s.disk|
  {
    Goto(s, t, InBody(s.tasks[t].pc.inode, s.disk[s.tasks[t].pc.inode].content))
  }

  function DoWrite(s: State, t: nat, out: Journal.Db): State
    requires IsTxn(s, t) && s.tasks[t].pc.InBody?
  {
    Goto(s, t, BodyDone(s.tasks[t].pc.inode, s.tasks[t].pc.base, out))
  }

  function DoCommit(s: State, t: nat): State
    requires IsTxn(s, t) && s.tasks[t].pc.CheckedLast? && s.tasks[t].pc.inode < |s.disk|
  {
    var task := s.tasks[t];
    var i := task.pc.inode;
    Goto(Drop(s, t).(disk := s.disk[i := s.disk[i].(content := Live(task.run, task.scope, task.pc.out))]),
         t, Committed)
  }

  function DoAbort(s: State, t: nat): State
    requires t in s.tasks && !s.tasks[t].Maker?
  {
    if s.tasks[t].Txn? then Goto(Drop(s, t), t, Refused) else RGoto(Drop(s, t), t, Raised)
  }

  function DoMark(s: State, t: nat): State
    requires IsRetirer(s, t) && s.tasks[t].rpc.Start?
  {
    RGoto(s.(markers := s.markers + {s.tasks[t].run}), t, Marked)
  }

  function DoReadScopes(s: State, t: nat): State
    requires IsRetirer(s, t) && s.tasks[t].rpc.ReadingScopes?
  {
    var work := s.tasks[t].rpc.work;
    RGoto(s.(rows := work, inventoried := true, indexLock := None), t,
          Retiring(ScopesOf(work, s.tasks[t].run), false))
  }

  function DoPick(s: State, t: nat, scope: string): State
    requires IsRetirer(s, t) && s.tasks[t].rpc.Retiring?
  {
    var task := s.tasks[t];
    RGoto(s.(locks := s.locks[(task.proc, Canonical(task.run, scope)) := t]), t,
          Holding(task.rpc.todo, task.rpc.failed, scope))
  }

  function DoReplace(s: State, t: nat): State
    requires IsRetirer(s, t) && s.tasks[t].rpc.Holding?
  {
    var task := s.tasks[t];
    var scope := task.rpc.scope;
    RGoto(Added(Drop(s, t), Canonical(task.run, scope), Closed(task.run, scope)), t,
          Retiring(task.rpc.todo - {scope}, task.rpc.failed))
  }

  function DoFailOne(s: State, t: nat): State
    requires IsRetirer(s, t) && s.tasks[t].rpc.Holding?
  {
    var rpc := s.tasks[t].rpc;
    RGoto(Drop(s, t), t, Retiring(rpc.todo - {rpc.scope}, true))
  }

  function DoFinish(s: State, t: nat): State
    requires IsRetirer(s, t) && s.tasks[t].rpc.Retiring?
  {
    RGoto(s, t, if s.tasks[t].rpc.failed then Raised else WantForget)
  }

  function DoForget(s: State, t: nat): State
    requires IsRetirer(s, t) && s.tasks[t].rpc.Forgetting?
  {
    RGoto(s.(rows := Without(s.tasks[t].rpc.work, s.tasks[t].run), inventoried := true, indexLock := None),
          t, Returned)
  }

  /** `tool_call_journal_path` after its marker check: an exclusive create. */
  function DoPremake(s: State, t: nat): State
    requires t in s.tasks && s.tasks[t].Maker?
  {
    var path := Canonical(s.tasks[t].run, s.tasks[t].scope);
    if path in s.names then s else Added(s, path, Empty).(premade := s.premade + {path})
  }

  predicate IsTxn(s: State, t: nat) {
    t in s.tasks && s.tasks[t].Txn?
  }

  predicate IsRetirer(s: State, t: nat) {
    t in s.tasks && s.tasks[t].Retirer?
  }

  /** A new task starts at its beginning, on its owner's canonical name or on a foreign one. */
  predicate IsFresh(task: Task) {
    match task
    case Txn(_, path, _, _, pc) => pc.Entry? && (IsCanonical(task) || path.Foreign?)
    case Retirer(_, _, rpc) => rpc.Start?
    case Maker(_, _, checked) => !checked
  }

  predicate Enabled(s: State, a: Action) {
    match a
    case Spawn(t, task) => t !in s.tasks && IsFresh(task)
    case Check(t) => t in s.tasks && AfterCheck(s.tasks[t]).Some? && s.tasks[t].run !in s.markers
    case TakeLock(t) => IsTxn(s, t) && s.tasks[t].pc.WantLock? && (s.tasks[t].proc, s.tasks[t].path) !in s.locks
    case BeginIndex(t) => t in s.tasks && WantsIndex(s.tasks[t]) && s.indexLock.None?
    case CommitRow(t) => IsTxn(s, t) && s.tasks[t].pc.IndexChecked?
    case Connect(t) => IsTxn(s, t) && s.tasks[t].pc.Connecting?
    case BeginFile(t) => IsTxn(s, t) && s.tasks[t].pc.Opened? && s.tasks[t].pc.inode !in s.writer
    case ReadOwner(t) =>
      IsTxn(s, t) && s.tasks[t].pc.Begun? && s.tasks[t].run !in s.markers
      && s.tasks[t].pc.inode < |s.disk| && OwnerMatches(s.disk[s.tasks[t].pc.inode].content, s.tasks[t])
    case Write(t, _) => IsTxn(s, t) && s.tasks[t].pc.InBody?
    case Commit(t) => IsTxn(s, t) && s.tasks[t].pc.CheckedLast? && s.tasks[t].pc.inode < |s.disk|
    case Abort(t) =>
      (IsTxn(s, t) && !s.tasks[t].pc.Committed? && !s.tasks[t].pc.Refused?)
      || (IsRetirer(s, t) && !s.tasks[t].rpc.Returned? && !s.tasks[t].rpc.Raised?)
    case Mark(t) => IsRetirer(s, t) && s.tasks[t].rpc.Start?
    case ReadScopes(t) => IsRetirer(s, t) && s.tasks[t].rpc.ReadingScopes?
    case Pick(t, scope) =>
      IsRetirer(s, t) && s.tasks[t].rpc.Retiring? && scope in s.tasks[t].rpc.todo
      && (s.tasks[t].proc, Canonical(s.tasks[t].run, scope)) !in s.locks
    case Replace(t) => IsRetirer(s, t) && s.tasks[t].rpc.Holding?
    case FailOne(t) => IsRetirer(s, t) && s.tasks[t].rpc.Holding?
    case Finish(t) => IsRetirer(s, t) && s.tasks[t].rpc.Retiring? && s.tasks[t].rpc.todo == {}
    case Forget(t) => IsRetirer(s, t) && s.tasks[t].rpc.Forgetting?
    case Premake(t) => t in s.tasks && s.tasks[t].Maker? && s.tasks[t].checked
  }

  function Apply(s: State, a: Action): State
    requires Enabled(s, a)
  {
    match a
    case Spawn(t, task) => Put(s, t, task)
    case Check(t) => DoCheck(s, t)
    case TakeLock(t) => DoTakeLock(s, t)
    case BeginIndex(t) => DoBeginIndex(s, t)
    case CommitRow(t) => DoCommitRow(s, t)
    case Connect(t) => DoConnect(s, t)
    case BeginFile(t) => DoBeginFile(s, t)
    case ReadOwner(t) => DoReadOwner(s, t)
    case Write(t, out) => DoWrite(s, t, out)
    case Commit(t) => DoCommit(s, t)
    case Abort(t) => DoAbort(s, t)
    case Mark(t) => DoMark(s, t)
    case ReadScopes(t) => DoReadScopes(s, t)
    case Pick(t, scope) => DoPick(s, t, scope)
    case Replace(t) => DoReplace(s, t)
    case FailOne(t) => DoFailOne(s, t)
    case Finish(t) => DoFinish(s, t)
    case Forget(t) => DoForget(s, t)
    case Premake(t) => DoPremake(s, t)
  }

  // ---- Runs ----

  predicate ContentFits(file: File) {
    file.path.Canonical? && !file.content.Empty?
    ==> file.content.run == file.path.run && file.content.scope == file.path.scope
  }

  /** A file that a transaction made or wrote, as against one merely set aside for the bridge. */
  predicate Used(s: State, path: Path) {
    path in s.names && (path !in s.premade || (s.names[path] < |s.disk| && s.disk[s.names[path]].content.Live?))
  }

  /**
   No task is running.  Either the index has adopted the directory and knows
   every journal in use, or it has not and every canonical file there has an
   owner row or was set aside for the bridge.
   */
  ghost predicate Init(s: State) {
    && s.tasks == map[] && s.locks == map[] && s.writer == map[] && s.indexLock.None?
    && (forall p | p in s.names :: s.names[p] < |s.disk| && s.disk[s.names[p]].path == p)
    && (forall i | 0 <= i < |s.disk| :: ContentFits(s.disk[i]))
    && (forall p | p in s.names && p.Canonical? && Used(s, p) ::
          if s.inventoried then IsClosed(s, p) || (p.run, p.scope) in s.rows
          else !s.disk[s.names[p]].content.Empty?)
  }

  ghost predicate IsRun(s: State, actions: seq<Action>)
    decreases |actions|
  {
    actions == [] || (Enabled(s, actions[0]) && IsRun(Apply(s, actions[0]), actions[1..]))
  }

  ghost function After(s: State, actions: seq<Action>): State
    requires IsRun(s, actions)
    decreases |actions|
  {
    if actions == [] then s else After(Apply(s, actions[0]), actions[1..])
  }
}
