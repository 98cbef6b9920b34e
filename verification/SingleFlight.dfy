/**
 Self-cleaning per-identity serialization: a map of reference-counted locks whose
 entries are deleted by the last user while others may be arriving.

 The two guarded blocks contain no suspension point, so each is one step; the
 wait for an entry's lock is where tasks interleave and where they are cancelled.
 */
module SingleFlight {
  import opened Basics

  // ---- The two guarded blocks ----

  /** How many users the entry of an identity counts, if it has one. */
  type Count = Option<nat>

  function OneMore(count: Count): Count {
    if count.Some? then Some(count.value + 1) else Some(1)
  }

  function OneLess(count: Count): Count {
    if count.Some? && count.value > 1 then Some(count.value - 1) else None
  }

  class LockEntry {
    var users: nat
    var holder: Option<nat>

    constructor ()
      ensures users == 0 && holder == None
    {
      users, holder := 0, None;
    }
  }

  class CommitSingleFlight {
    var entries: map<string, LockEntry>

    /** No entry serves two identities. */
    ghost predicate Valid()
      reads this
    {
      forall i, j | i in entries && j in entries && i != j :: entries[i] != entries[j]
    }

    ghost function UserCount(identity: string): Count
      reads this, entries.Values
    {
      if identity in entries then Some(entries[identity].users) else None
    }

    constructor ()
      ensures Valid() && entries == map[]
    {
      entries := map[];
    }

    method Register(identity: string) returns (entry: LockEntry)
      requires Valid()
      modifies this, if identity in entries then {entries[identity]} else {}
      ensures Valid()
      ensures forall i :: UserCount(i) == if i == identity then OneMore(old(UserCount(i))) else old(UserCount(i))
      ensures entries == old(entries)[identity := entry]
      ensures if identity in old(entries)
              then entry == old(entries[identity]) && entry.users == old(entries[identity].users) + 1
                   && entry.holder == old(entries[identity].holder)
              else fresh(entry) && entry.users == 1 && entry.holder == None
    {
      if identity !in entries {
        var made := new LockEntry();
        entries := entries[identity := made];
      }
      entry := entries[identity];
      entry.users := entry.users + 1;
    }

    method Unregister(identity: string, entry: LockEntry)
      requires Valid() && entry.users > 0
      modifies this, entry`users
      ensures Valid()
      ensures old(identity in entries && entries[identity] == entry) ==>
                forall i :: UserCount(i) == if i == identity then OneLess(old(UserCount(i))) else old(UserCount(i))
      ensures entry.users == old(entry.users) - 1
      ensures entries == if entry.users == 0 then old(entries) - {identity} else old(entries)
    {
      entry.users := entry.users - 1;
      if entry.users == 0 {
        entries := entries - {identity};
      }
    }
  }

  // ---- Tasks calling `hold` ----

  /** An entry object is known by its number; it outlives its place in the map. */
  datatype Entry = Entry(users: nat, holder: Option<nat>)

  datatype Task =
    | Waiting(identity: string, entry: nat)
    | Inside(identity: string, entry: nat)
    | Leaving(identity: string, entry: nat)
    | Done

  datatype State = State(entries: map<string, nat>, objects: map<nat, Entry>, tasks: map<nat, Task>)

  const START := State(map[], map[], map[])

  datatype Action =
    | Arrive(t: nat, identity: string, made: nat)
    | Acquire(t: nat)
    | Cancel(t: nat)       // while waiting for the entry's lock
    | Finish(t: nat)       // the body returns, raises or is cancelled: its lock is released
    | Leave(t: nat)

  predicate Enabled(s: State, a: Action) {
    match a
    case Arrive(t, identity, made) => t !in s.tasks && made !in s.objects
    case Acquire(t) =>
      t in s.tasks && s.tasks[t].Waiting? && s.tasks[t].entry in s.objects && s.objects[s.tasks[t].entry].holder.None?
    case Cancel(t) => t in s.tasks && s.tasks[t].Waiting?
    case Finish(t) => t in s.tasks && s.tasks[t].Inside? && s.tasks[t].entry in s.objects
    case Leave(t) =>
      t in s.tasks && s.tasks[t].Leaving? && s.tasks[t].entry in s.objects && s.objects[s.tasks[t].entry].users > 0
  }

  function Joined(s: State, t: nat, identity: string, e: nat): State
    requires e in s.objects
  {
    s.(objects := s.objects[e := s.objects[e].(users := s.objects[e].users + 1)],
       tasks := s.tasks[t := Waiting(identity, e)])
  }

  function Opened(s: State, t: nat, identity: string, made: nat): State {
    State(s.entries[identity := made], s.objects[made := Entry(1, None)], s.tasks[t := Waiting(identity, made)])
  }

  function DoArrive(s: State, t: nat, identity: string, made: nat): State {
    if identity in s.entries && s.entries[identity] in s.objects then Joined(s, t, identity, s.entries[identity])
    else Opened(s, t, identity, made)
  }

  function DoLeave(s: State, t: nat): State
    requires Enabled(s, Leave(t))
  {
    var Leaving(identity, e) := s.tasks[t];
    var entry := s.objects[e].(users := s.objects[e].users - 1);
    State(if entry.users == 0 then s.entries - {identity} else s.entries,
          s.objects[e := entry], s.tasks[t := Done])
  }

  function Held(s: State, t: nat, task: Task, e: nat, holder: Option<nat>): State
    requires e in s.objects
  {
    s.(tasks := s.tasks[t := task], objects := s.objects[e := s.objects[e].(holder := holder)])
  }

  function Apply(s: State, a: Action): State
    requires Enabled(s, a)
  {
    match a
    case Arrive(t, identity, made) => DoArrive(s, t, identity, made)
    case Acquire(t) => Held(s, t, Inside(s.tasks[t].identity, s.tasks[t].entry), s.tasks[t].entry, Some(t))
    case Cancel(t) => s.(tasks := s.tasks[t := Leaving(s.tasks[t].identity, s.tasks[t].entry)])
    case Finish(t) => Held(s, t, Leaving(s.tasks[t].identity, s.tasks[t].entry), s.tasks[t].entry, None)
    case Leave(t) => DoLeave(s, t)
  }

  predicate IsRun(s: State, actions: seq<Action>)
    decreases |actions|
  {
    actions == [] || (Enabled(s, actions[0]) && IsRun(Apply(s, actions[0]), actions[1..]))
  }

  function After(s: State, actions: seq<Action>): State
    requires IsRun(s, actions)
    decreases |actions|
  {
    if actions == [] then s else After(Apply(s, actions[0]), actions[1..])
  }

  // ---- The invariant ----

  predicate Uses(task: Task, e: nat) {
    !task.Done? && task.entry == e
  }

  /** The tasks registered with an entry. */
  function Users(tasks: map<nat, Task>, e: nat): set<nat> {
    set t | t in tasks && Uses(tasks[t], e)
  }

  /** A registered task's entry is the one the map gives out for its identity. */
  predicate TaskOk(s: State, task: Task) {
    !task.Done? ==> task.identity in s.entries && s.entries[task.identity] == task.entry
  }

  predicate EntryOk(s: State, e: nat)
    requires e in s.objects
  {
    && s.objects[e].users == |Users(s.tasks, e)|
    && (s.objects[e].holder.Some? ==>
          var t := s.objects[e].holder.value; t in s.tasks && s.tasks[t].Inside? && s.tasks[t].entry == e)
  }

  predicate MapOk(s: State, identity: string)
    requires identity in s.entries
  {
    && s.entries[identity] in s.objects
    && s.objects[s.entries[identity]].users > 0
    && forall other | other in s.entries && s.entries[other] == s.entries[identity] :: other == identity
  }

  predicate InsideOk(s: State) {
    forall t | t in s.tasks && s.tasks[t].Inside? ::
      s.tasks[t].entry in s.objects && s.objects[s.tasks[t].entry].holder == Some(t)
  }

  predicate Inv(s: State) {
    && (forall t | t in s.tasks :: TaskOk(s, s.tasks[t]))
    && (forall e | e in s.objects :: EntryOk(s, e))
    && (forall i | i in s.entries :: MapOk(s, i))
    && InsideOk(s)
  }

  lemma UsersAfter(tasks: map<nat, Task>, t: nat, task: Task, e: nat)
    ensures var before := Users(tasks, e) - {t};
            Users(tasks[t := task], e) == if Uses(task, e) then before + {t} else before
  {
  }

  /** A registered task that moves on without leaving changes no count. */
  lemma MoveKeepsCounts(s: State, t: nat, task: Task, e: nat)
    requires t in s.tasks && !s.tasks[t].Done? && !task.Done? && task.entry == s.tasks[t].entry
    ensures Users(s.tasks[t := task], e) == Users(s.tasks, e)
  {
    UsersAfter(s.tasks, t, task, e);
    assert s.tasks[t].entry == e <==> t in Users(s.tasks, e);
  }

  lemma HoldKeepsEntries(s: State, t: nat, task: Task, holder: Option<nat>, e: nat)
    requires Inv(s) && t in s.tasks && !s.tasks[t].Done? && !task.Done? && s.tasks[t].entry in s.objects
    requires task.identity == s.tasks[t].identity && task.entry == s.tasks[t].entry
    requires if task.Inside? then holder == Some(t) else holder.None? && s.tasks[t].Inside?
    requires e in s.objects
    ensures EntryOk(Held(s, t, task, task.entry, holder), e)
  {
    MoveKeepsCounts(s, t, task, e);
    assert EntryOk(s, e);
  }

  lemma HoldKeepsInv(s: State, t: nat, task: Task, holder: Option<nat>)
    requires Inv(s) && t in s.tasks && !s.tasks[t].Done? && !task.Done? && s.tasks[t].entry in s.objects
    requires task.identity == s.tasks[t].identity && task.entry == s.tasks[t].entry
    requires if task.Inside? then holder == Some(t) && s.objects[task.entry].holder.None?
             else holder.None? && s.tasks[t].Inside?
    ensures Inv(Held(s, t, task, task.entry, holder))
  {
    var s' := Held(s, t, task, task.entry, holder);
    forall e | e in s'.objects ensures EntryOk(s', e) {
      HoldKeepsEntries(s, t, task, holder, e);
    }
    forall i | i in s'.entries ensures MapOk(s', i) {
      assert MapOk(s, i);
    }
    forall u | u in s'.tasks ensures TaskOk(s', s'.tasks[u]) {
      assert TaskOk(s, s.tasks[u]);
    }
  }

  lemma CancelKeepsInv(s: State, t: nat)
    requires Inv(s) && Enabled(s, Cancel(t))
    ensures Inv(Apply(s, Cancel(t)))
  {
    var s' := Apply(s, Cancel(t));
    forall e | e in s'.objects ensures EntryOk(s', e) {
      MoveKeepsCounts(s, t, s'.tasks[t], e);
      assert EntryOk(s, e);
    }
    forall i | i in s'.entries ensures MapOk(s', i) {
      assert MapOk(s, i);
    }
    forall u | u in s'.tasks ensures TaskOk(s', s'.tasks[u]) {
      assert TaskOk(s, s.tasks[u]);
    }
  }

  lemma NobodyUsesAFreshEntry(s: State, e: nat)
    requires Inv(s) && e !in s.objects
    ensures Users(s.tasks, e) == {}
  {
    forall t | t in s.tasks ensures !Uses(s.tasks[t], e) {
      assert TaskOk(s, s.tasks[t]);
      if !s.tasks[t].Done? {
        assert MapOk(s, s.tasks[t].identity);
      }
    }
  }

  /** A new registration is one more user of its entry and of no other. */
  lemma ArrivalCounts(s: State, t: nat, task: Task, e: nat)
    requires t !in s.tasks && !task.Done?
    ensures |Users(s.tasks[t := task], e)| == |Users(s.tasks, e)| + if task.entry == e then 1 else 0
  {
    UsersAfter(s.tasks, t, task, e);
    assert t !in Users(s.tasks, e) && Users(s.tasks, e) - {t} == Users(s.tasks, e);
  }

  lemma JoinKeepsInv(s: State, t: nat, identity: string)
    requires Inv(s) && t !in s.tasks && identity in s.entries && s.entries[identity] in s.objects
    ensures Inv(Joined(s, t, identity, s.entries[identity]))
  {
    var s' := Joined(s, t, identity, s.entries[identity]);
    forall e | e in s'.objects ensures EntryOk(s', e) {
      ArrivalCounts(s, t, s'.tasks[t], e);
      assert EntryOk(s, e);
    }
    forall i | i in s'.entries ensures MapOk(s', i) {
      assert MapOk(s, i);
    }
    forall u | u in s'.tasks ensures TaskOk(s', s'.tasks[u]) {
      assert u in s.tasks ==> TaskOk(s, s.tasks[u]);
    }
  }

  lemma OpenKeepsEntries(s: State, t: nat, identity: string, made: nat, e: nat)
    requires Inv(s) && t !in s.tasks && identity !in s.entries && made !in s.objects
    requires e in s.objects || e == made
    ensures EntryOk(Opened(s, t, identity, made), e)
  {
    ArrivalCounts(s, t, Waiting(identity, made), e);
    if e == made {
      NobodyUsesAFreshEntry(s, made);
    } else {
      assert EntryOk(s, e);
    }
  }

  lemma OpenKeepsInv(s: State, t: nat, identity: string, made: nat)
    requires Inv(s) && t !in s.tasks && identity !in s.entries && made !in s.objects
    ensures Inv(Opened(s, t, identity, made))
  {
    var s' := Opened(s, t, identity, made);
    forall e | e in s'.objects ensures EntryOk(s', e) {
      OpenKeepsEntries(s, t, identity, made, e);
    }
    forall i | i in s'.entries ensures MapOk(s', i) {
      assert i in s.entries ==> MapOk(s, i);
    }
    forall u | u in s'.tasks ensures TaskOk(s', s'.tasks[u]) {
      assert u in s.tasks ==> TaskOk(s, s.tasks[u]);
    }
  }

  /** One user less of the entry that is left, and the same users of the others. */
  lemma DepartureCounts(s: State, t: nat, e: nat)
    requires t in s.tasks && !s.tasks[t].Done?
    ensures |Users(s.tasks[t := Done], e)| == |Users(s.tasks, e)| - if s.tasks[t].entry == e then 1 else 0
  {
    UsersAfter(s.tasks, t, Done, e);
    assert s.tasks[t].entry == e <==> t in Users(s.tasks, e);
  }

  lemma LeaveKeepsEntries(s: State, t: nat, e: nat)
    requires Inv(s) && Enabled(s, Leave(t)) && e in s.objects
    ensures EntryOk(DoLeave(s, t), e)
  {
    DepartureCounts(s, t, e);
    assert EntryOk(s, e);
  }

  /** A task of the same identity is still counted, so the entry stays in the map. */
  lemma LeaveKeepsOthers(s: State, t: nat, u: nat)
    requires Inv(s) && Enabled(s, Leave(t)) && u in s.tasks && u != t
    ensures TaskOk(DoLeave(s, t), s.tasks[u])
  {
    assert TaskOk(s, s.tasks[t]) && TaskOk(s, s.tasks[u]);
    if !s.tasks[u].Done? && s.tasks[u].identity == s.tasks[t].identity {
      var e := s.tasks[t].entry;
      LeaveKeepsEntries(s, t, e);
      assert u in Users(DoLeave(s, t).tasks, e);
    }
  }

  lemma LeaveKeepsMap(s: State, t: nat, i: string)
    requires Inv(s) && Enabled(s, Leave(t)) && i in DoLeave(s, t).entries
    ensures MapOk(DoLeave(s, t), i)
  {
    assert TaskOk(s, s.tasks[t]) && MapOk(s, i) && MapOk(s, s.tasks[t].identity);
  }

  lemma LeaveKeepsInv(s: State, t: nat)
    requires Inv(s) && Enabled(s, Leave(t))
    ensures Inv(DoLeave(s, t))
  {
    var s' := DoLeave(s, t);
    forall e | e in s'.objects ensures EntryOk(s', e) {
      LeaveKeepsEntries(s, t, e);
    }
    forall i | i in s'.entries ensures MapOk(s', i) {
      LeaveKeepsMap(s, t, i);
    }
    forall u | u in s'.tasks ensures TaskOk(s', s'.tasks[u]) {
      if u != t {
        LeaveKeepsOthers(s, t, u);
      }
    }
  }

  /** The count of an identity, as the map gives it out. */
  function CountOf(s: State, identity: string): Count {
    if identity in s.entries && s.entries[identity] in s.objects then Some(s.objects[s.entries[identity]].users) else None
  }

  /** The steps of a task do to the counts what the two guarded blocks do. */
  lemma ArrivalCountsOneMore(s: State, t: nat, identity: string, made: nat, i: string)
    requires Inv(s) && Enabled(s, Arrive(t, identity, made))
    ensures CountOf(DoArrive(s, t, identity, made), i)
         == if i == identity then OneMore(CountOf(s, i)) else CountOf(s, i)
  {
    if identity in s.entries {
      assert MapOk(s, identity);
    }
    if i in s.entries {
      assert MapOk(s, i);
    }
  }

  lemma LeavingCountsOneLess(s: State, t: nat, i: string)
    requires Inv(s) && Enabled(s, Leave(t))
    ensures CountOf(DoLeave(s, t), i) == if i == s.tasks[t].identity then OneLess(CountOf(s, i)) else CountOf(s, i)
  {
    assert TaskOk(s, s.tasks[t]) && MapOk(s, s.tasks[t].identity);
    if i in s.entries {
      assert MapOk(s, i);
    }
  }

  lemma StepKeepsInv(s: State, a: Action)
    requires Inv(s) && Enabled(s, a)
    ensures Inv(Apply(s, a))
  {
    match a
    case Arrive(t, identity, made) =>
      if identity in s.entries {
        assert MapOk(s, identity);
        JoinKeepsInv(s, t, identity);
      } else {
        OpenKeepsInv(s, t, identity, made);
      }
    case Acquire(t) => HoldKeepsInv(s, t, Inside(s.tasks[t].identity, s.tasks[t].entry), Some(t));
    case Cancel(t) => CancelKeepsInv(s, t);
    case Finish(t) => HoldKeepsInv(s, t, Leaving(s.tasks[t].identity, s.tasks[t].entry), None);
    case Leave(t) => LeaveKeepsInv(s, t);
  }

  lemma HoldingCountsNothing(s: State, a: Action, i: string)
    requires Enabled(s, a) && (a.Acquire? || a.Cancel? || a.Finish?)
    ensures CountOf(Apply(s, a), i) == CountOf(s, i)
  {
  }

  /** Arriving and leaving change the counts as the two guarded blocks do; nothing else changes them. */
  lemma StepsCountLikeTheBlocks(s: State, a: Action, i: string)
    requires Inv(s) && Enabled(s, a)
    ensures CountOf(Apply(s, a), i)
         == if a.Arrive? && i == a.identity then OneMore(CountOf(s, i))
            else if a.Leave? && i == s.tasks[a.t].identity then OneLess(CountOf(s, i))
            else CountOf(s, i)
  {
    match a
    case Arrive(t, identity, made) => ArrivalCountsOneMore(s, t, identity, made, i);
    case Leave(t) => LeavingCountsOneLess(s, t, i);
    case _ => HoldingCountsNothing(s, a, i);
  }

  lemma {:induction false} InvAlways(s: State, actions: seq<Action>)
    requires Inv(s) && IsRun(s, actions)
    ensures Inv(After(s, actions))
    decreases |actions|
  {
    if actions != [] {
      StepKeepsInv(s, actions[0]);
      InvAlways(Apply(s, actions[0]), actions[1..]);
    }
  }

  // ---- Main results ----

  /** At most one task per identity is inside, although entries are deleted and made again. */
  lemma OneAtATime(actions: seq<Action>, t: nat, u: nat)
    requires IsRun(START, actions)
    requires var s := After(START, actions);
             t in s.tasks && u in s.tasks && s.tasks[t].Inside? && s.tasks[u].Inside?
             && s.tasks[t].identity == s.tasks[u].identity
    ensures t == u
  {
    InvAlways(START, actions);
    var s := After(START, actions);
    assert TaskOk(s, s.tasks[t]) && TaskOk(s, s.tasks[u]);
  }

  /** The map holds exactly the identities in use, each with the number of its registered tasks. */
  lemma TheMapCountsItsUsers(actions: seq<Action>, identity: string)
    requires IsRun(START, actions)
    ensures var s := After(START, actions);
            && (identity in s.entries <==> exists t :: t in s.tasks && !s.tasks[t].Done? && s.tasks[t].identity == identity)
            && (identity in s.entries ==>
                  s.entries[identity] in s.objects
                  && s.objects[s.entries[identity]].users == |Users(s.tasks, s.entries[identity])|)
  {
    InvAlways(START, actions);
    var s := After(START, actions);
    if identity in s.entries {
      var e := s.entries[identity];
      assert MapOk(s, identity) && EntryOk(s, e);
      assert Users(s.tasks, e) != {};
      var t :| t in Users(s.tasks, e);
      assert TaskOk(s, s.tasks[t]);
      assert s.tasks[t].identity == identity;
    }
    forall t | t in s.tasks && !s.tasks[t].Done? && s.tasks[t].identity == identity ensures identity in s.entries {
      assert TaskOk(s, s.tasks[t]);
    }
  }

  /** Once every task has left, however each of them ended, nothing is kept. */
  lemma TheMapEmptiesItself(actions: seq<Action>)
    requires IsRun(START, actions)
    requires forall t | t in After(START, actions).tasks :: After(START, actions).tasks[t].Done?
    ensures After(START, actions).entries == map[]
  {
    var s := After(START, actions);
    forall i | i in s.entries ensures false {
      TheMapCountsItsUsers(actions, i);
    }
    assert s.entries.Keys == {};
  }

  /**
   Nobody is stuck: a task inside can finish, one that leaves can unregister, and
   one that waits can enter or has a task of its identity inside to wait for.
   */
  lemma NobodyIsStuck(actions: seq<Action>, t: nat)
    requires IsRun(START, actions)
    requires var s := After(START, actions); t in s.tasks && !s.tasks[t].Done?
    ensures var s := After(START, actions);
            match s.tasks[t]
            case Inside(_, _) => Enabled(s, Finish(t))
            case Leaving(_, _) => Enabled(s, Leave(t))
            case Waiting(identity, _) =>
              || Enabled(s, Acquire(t))
              || exists u :: u in s.tasks && s.tasks[u].Inside? && s.tasks[u].identity == identity
  {
    InvAlways(START, actions);
    var s := After(START, actions);
    var e := s.tasks[t].entry;
    assert TaskOk(s, s.tasks[t]) && MapOk(s, s.tasks[t].identity) && EntryOk(s, e);
    if s.objects[e].holder.Some? {
      var u := s.objects[e].holder.value;
      assert TaskOk(s, s.tasks[u]) && MapOk(s, s.tasks[u].identity);
    }
  }
}
