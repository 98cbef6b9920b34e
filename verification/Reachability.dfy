/** The import graph walk: a worklist that computes exactly what a chain of imports reaches. */
module Reachability {
  import opened Basics

  // ---- Package ancestors ----

  predicate HasDot(name: string) {
    exists i | 0 <= i < |name| :: name[i] == '.'
  }

  function LastDot(name: string): (i: nat)
    requires HasDot(name)
    ensures i < |name| && name[i] == '.' && forall j | i < j < |name| :: name[j] != '.'
  {
    var last := |name| - 1;
    if name[last] == '.' then last
    else
      assert HasDot(name[..last]) by {
        var i :| 0 <= i < |name| && name[i] == '.';
        assert name[..last][i] == '.';
      }
      LastDot(name[..last])
  }

  /** `name.split(".")` */
  function Split(name: string): (parts: seq<string>)
    ensures |parts| >= 1
    decreases |name|
  {
    if !HasDot(name) then [name] else Split(name[..LastDot(name)]) + [name[LastDot(name) + 1..]]
  }

  /** `".".join(parts)` */
  function Join(parts: seq<string>): string
    requires |parts| >= 1
  {
    var last := |parts| - 1;
    if last == 0 then parts[0] else Join(parts[..last]) + "." + parts[last]
  }

  lemma JoinSnoc(parts: seq<string>, last: string)
    requires |parts| >= 1
    ensures Join(parts + [last]) == Join(parts) + "." + last
  {
    assert (parts + [last])[..|parts|] == parts;
  }

  lemma {:induction false} JoinSplit(name: string)
    ensures Join(Split(name)) == name
    decreases |name|
  {
    if HasDot(name) {
      var before, after := name[..LastDot(name)], name[LastDot(name) + 1..];
      JoinSplit(before);
      JoinSnoc(Split(before), after);
      assert name == before + "." + after;
    }
  }

  /** The package ancestors of a dotted name, nearest first. */
  function Ancestors(name: string): seq<string>
    decreases |name|
  {
    if !HasDot(name) then [] else [name[..LastDot(name)]] + Ancestors(name[..LastDot(name)])
  }

  /** They are exactly its prefixes that stop in front of a dot. */
  lemma {:induction false} AncestorsAreDottedPrefixes(name: string, p: string)
    ensures p in Ancestors(name) <==> exists i | 0 <= i < |name| :: name[i] == '.' && p == name[..i]
    decreases |name|
  {
    if HasDot(name) {
      var last := LastDot(name);
      var parent := name[..last];
      AncestorsAreDottedPrefixes(parent, p);
      if p in Ancestors(parent) {
        var i :| 0 <= i < |parent| && parent[i] == '.' && p == parent[..i];
        assert name[i] == '.' && p == name[..i];
      }
      forall i | 0 <= i < |name| && name[i] == '.' && p == name[..i] ensures p in Ancestors(name) {
        if i < last {
          assert parent[i] == '.' && p == parent[..i];
        }
      }
    }
  }

  method AncestorsOf(name: string) returns (names: seq<string>)
    ensures names == Ancestors(name)
  {
    var parts := Split(name);
    names := [];
    ghost var at := name;
    var stop := |parts| - 1;
    while stop > 0
      invariant 0 <= stop < |parts| && parts[..stop + 1] == Split(at)
      invariant names + Ancestors(at) == Ancestors(name)
    {
      assert HasDot(at);
      ghost var parent := at[..LastDot(at)];
      assert parts[..stop] == Split(at)[..stop] == Split(parent);
      JoinSplit(parent);
      assert names + Ancestors(at) == names + [parent] + Ancestors(parent);
      names := names + [Join(parts[..stop])];
      at := parent;
      stop := stop - 1;
    }
    assert !HasDot(at);
  }

  // ---- Reachability ----

  type Edges = map<string, seq<string>>

  function Targets(edges: Edges, name: string): seq<string> {
    if name in edges then edges[name] else []
  }

  /** Importing `a` runs what it imports and the packages it lies in. */
  predicate Steps(edges: Edges, a: string, b: string) {
    b in Targets(edges, a) || b in Ancestors(a)
  }

  /** A chain of shipped modules from a root, each step an edge or a package ancestor. */
  predicate IsChain(roots: seq<string>, edges: Edges, known: set<string>, chain: seq<string>) {
    && chain != [] && chain[0] in roots
    && (forall i | 0 <= i < |chain| :: chain[i] in known)
    && (forall i | 0 < i < |chain| :: Steps(edges, chain[i - 1], chain[i]))
  }

  ghost predicate Reachable(roots: seq<string>, edges: Edges, known: set<string>, name: string) {
    exists chain :: IsChain(roots, edges, known, chain) && chain[|chain| - 1] == name
  }

  lemma ChainExtends(roots: seq<string>, edges: Edges, known: set<string>, a: string, b: string)
    requires Reachable(roots, edges, known, a) && Steps(edges, a, b) && b in known
    ensures Reachable(roots, edges, known, b)
  {
    var chain :| IsChain(roots, edges, known, chain) && chain[|chain| - 1] == a;
    assert IsChain(roots, edges, known, chain + [b]);
  }

  lemma RootIsReachable(roots: seq<string>, edges: Edges, known: set<string>, name: string)
    requires name in roots && name in known
    ensures Reachable(roots, edges, known, name)
  {
    assert IsChain(roots, edges, known, [name]);
  }

  /** A set that holds the known roots and is closed under steps holds everything reachable. */
  lemma {:induction false} ClosedHoldsTheChain(roots: seq<string>, edges: Edges, known: set<string>, seen: set<string>,
                                               chain: seq<string>, i: nat)
    requires IsChain(roots, edges, known, chain) && i < |chain|
    requires forall r | r in roots && r in known :: r in seen
    requires forall a, b | a in seen && b in known && Steps(edges, a, b) :: b in seen
    ensures chain[i] in seen
  {
    if i > 0 {
      ClosedHoldsTheChain(roots, edges, known, seen, chain, i - 1);
      assert Steps(edges, chain[i - 1], chain[i]);
    }
  }

  /** Still to be visited. */
  predicate Pending(queue: seq<string>, seen: set<string>, name: string) {
    name in seen || name in queue
  }

  /** Everything marked or queued is reachable, and everything one step away is marked or queued. */
  ghost predicate Frontier(roots: seq<string>, edges: Edges, known: set<string>, seen: set<string>, queue: seq<string>) {
    && (forall n | n in known && Pending(queue, seen, n) :: Reachable(roots, edges, known, n))
    && (forall r | r in roots && r in known :: Pending(queue, seen, r))
    && (forall a, b | a in seen && b in known && Steps(edges, a, b) :: Pending(queue, seen, b))
  }

  lemma FrontierStarts(roots: seq<string>, edges: Edges, known: set<string>)
    ensures Frontier(roots, edges, known, {}, roots)
  {
    forall r | r in roots && r in known ensures Reachable(roots, edges, known, r) {
      RootIsReachable(roots, edges, known, r);
    }
  }

  lemma SkipKeepsFrontier(roots: seq<string>, edges: Edges, known: set<string>, seen: set<string>, queue: seq<string>)
    requires queue != [] && Frontier(roots, edges, known, seen, queue) && (queue[0] in seen || queue[0] !in known)
    ensures Frontier(roots, edges, known, seen, queue[1..])
  {
    forall n | n in known ensures Pending(queue, seen, n) <==> Pending(queue[1..], seen, n) {
      assert n in queue <==> n == queue[0] || n in queue[1..];
    }
  }

  lemma VisitKeepsFrontier(roots: seq<string>, edges: Edges, known: set<string>, seen: set<string>, queue: seq<string>,
                           queue': seq<string>)
    requires queue != [] && Frontier(roots, edges, known, seen, queue) && queue[0] in known
    requires IsExtended(queue[1..], edges, known, queue[0], queue')
    ensures Frontier(roots, edges, known, seen + {queue[0]}, queue')
  {
    var name, seen' := queue[0], seen + {queue[0]};
    assert Pending(queue, seen, name);
    forall n | n in known && Pending(queue', seen', n) ensures Reachable(roots, edges, known, n) {
      if n in queue' && n !in queue[1..] {
        ChainExtends(roots, edges, known, name, n);
      } else {
        assert Pending(queue, seen, n);
      }
    }
    forall n | n in known && Pending(queue, seen, n) ensures Pending(queue', seen', n) {
      assert n in queue <==> n == queue[0] || n in queue[1..];
    }
  }

  lemma EmptyFrontierIsTheClosure(roots: seq<string>, edges: Edges, known: set<string>, seen: set<string>)
    requires seen <= known && Frontier(roots, edges, known, seen, [])
    ensures forall name :: name in seen <==> Reachable(roots, edges, known, name)
  {
    forall name ensures name in seen <==> Reachable(roots, edges, known, name) {
      if name in seen {
        assert Pending([], seen, name);
      }
      if Reachable(roots, edges, known, name) {
        var chain :| IsChain(roots, edges, known, chain) && chain[|chain| - 1] == name;
        ClosedHoldsTheChain(roots, edges, known, seen, chain, |chain| - 1);
      }
    }
  }

  method ReachableClosure(roots: seq<string>, edges: Edges, known: set<string>) returns (seen: set<string>)
    ensures forall name :: name in seen <==> Reachable(roots, edges, known, name)
  {
    seen := {};
    var queue := roots;
    FrontierStarts(roots, edges, known);
    while queue != []
      invariant seen <= known && Frontier(roots, edges, known, seen, queue)
      decreases |known - seen|, |queue|
    {
      var name := queue[0];
      if name in seen || name !in known {
        SkipKeepsFrontier(roots, edges, known, seen, queue);
        queue := queue[1..];
        continue;
      }
      var next := Extended(queue[1..], edges, known, name);
      VisitKeepsFrontier(roots, edges, known, seen, queue, next);
      FewerLeft(known, seen, name);
      seen, queue := seen + {name}, next;
    }
    EmptyFrontierIsTheClosure(roots, edges, known, seen);
  }

  lemma FewerLeft(known: set<string>, seen: set<string>, name: string)
    requires name in known && name !in seen
    ensures |known - (seen + {name})| < |known - seen|
  {
    assert known - (seen + {name}) == (known - seen) - {name};
  }

  /** Nothing but what the module leads to is added, and all of it that is known. */
  ghost predicate IsExtended(queue: seq<string>, edges: Edges, known: set<string>, name: string, queue': seq<string>) {
    && (forall n | n in queue' :: n in queue || Steps(edges, name, n))
    && (forall n | n in queue || (n in known && Steps(edges, name, n)) :: n in queue')
  }

  /** The queue with a module's edges and known ancestors added to it. */
  method Extended(queue: seq<string>, edges: Edges, known: set<string>, name: string) returns (queue': seq<string>)
    ensures IsExtended(queue, edges, known, name, queue')
  {
    queue' := queue + Targets(edges, name);
    var ancestors := AncestorsOf(name);
    for i := 0 to |ancestors|
      invariant forall n :: n in queue' ==> n in queue || Steps(edges, name, n)
      invariant forall n | n in queue || n in Targets(edges, name) :: n in queue'
      invariant forall j | 0 <= j < i && ancestors[j] in known :: ancestors[j] in queue'
    {
      if ancestors[i] in known {
        queue' := queue' + [ancestors[i]];
      }
    }
  }

  ghost predicate Within(edges: Edges, more: Edges) {
    forall a, b | b in Targets(edges, a) :: b in Targets(more, a)
  }

  /** More edges never reach less. */
  lemma ReachIsMonotone(roots: seq<string>, edges: Edges, more: Edges, known: set<string>, name: string)
    requires Within(edges, more) && Reachable(roots, edges, known, name)
    ensures Reachable(roots, more, known, name)
  {
    var chain :| IsChain(roots, edges, known, chain) && chain[|chain| - 1] == name;
    assert IsChain(roots, more, known, chain);
  }

  // ---- Classification ----

  datatype Module = Module(isTest: bool, runtime: seq<string>, typeOnly: seq<string>)

  datatype Reach = Runtime | TypeOnly | Unreachable

  ghost function RuntimeEdges(shipped: map<string, Module>): Edges {
    Mapped(shipped, (m: Module) => m.runtime)
  }

  ghost function CombinedEdges(shipped: map<string, Module>): Edges {
    Mapped(shipped, (m: Module) => m.runtime + m.typeOnly)
  }

  method EdgeMaps(shipped: map<string, Module>) returns (runtime: Edges, combined: Edges)
    ensures runtime == RuntimeEdges(shipped) && combined == CombinedEdges(shipped)
  {
    runtime, combined := map[], map[];
    var rest := shipped.Keys;
    while rest != {}
      invariant rest <= shipped.Keys && runtime.Keys <= shipped.Keys && combined.Keys <= shipped.Keys
      invariant forall n | n in shipped && n !in rest :: n in runtime && runtime[n] == shipped[n].runtime
      invariant forall n | n in shipped && n !in rest ::
                  n in combined && combined[n] == shipped[n].runtime + shipped[n].typeOnly
      decreases |rest|
    {
      var n :| n in rest;
      rest := rest - {n};
      runtime := runtime[n := shipped[n].runtime];
      combined := combined[n := shipped[n].runtime + shipped[n].typeOnly];
    }
  }

  /**
   Exactly the shipped non-test modules are classified: as runtime when a chain
   of runtime edges reaches them, as type-only when only a chain that also uses
   type-only edges does, as unreachable when neither does.
   */
  method ClassifyModules(shipped: map<string, Module>, roots: seq<string>) returns (reach: map<string, Reach>)
    ensures forall n :: n in reach <==> n in shipped && !shipped[n].isTest
    ensures forall n | n in reach ::
              && (reach[n].Runtime? <==> Reachable(roots, RuntimeEdges(shipped), shipped.Keys, n))
              && (reach[n].Unreachable? <==> !Reachable(roots, CombinedEdges(shipped), shipped.Keys, n))
  {
    var runtime, combined := EdgeMaps(shipped);
    var atRuntime := ReachableClosure(roots, runtime, shipped.Keys);
    var atAny := ReachableClosure(roots, combined, shipped.Keys);
    RuntimeIsWithinCombined(shipped, roots);
    reach := Classified(shipped, atRuntime, atAny);
  }

  method Classified(shipped: map<string, Module>, atRuntime: set<string>, atAny: set<string>)
      returns (reach: map<string, Reach>)
    ensures forall n :: n in reach <==> n in shipped && !shipped[n].isTest
    ensures forall n | n in reach ::
              reach[n] == if n in atRuntime then Runtime else if n in atAny then TypeOnly else Unreachable
  {
    reach := map[];
    var rest := shipped.Keys;
    while rest != {}
      invariant rest <= shipped.Keys
      invariant forall n :: n in reach <==> n in shipped && n !in rest && !shipped[n].isTest
      invariant forall n | n in reach ::
                  reach[n] == if n in atRuntime then Runtime else if n in atAny then TypeOnly else Unreachable
      decreases |rest|
    {
      var n :| n in rest;
      rest := rest - {n};
      if shipped[n].isTest { continue; }
      reach := reach[n := if n in atRuntime then Runtime else if n in atAny then TypeOnly else Unreachable];
    }
  }

  /** What runtime edges reach, combined edges reach too. */
  lemma RuntimeIsWithinCombined(shipped: map<string, Module>, roots: seq<string>)
    ensures forall n :: Reachable(roots, RuntimeEdges(shipped), shipped.Keys, n) ==>
                          Reachable(roots, CombinedEdges(shipped), shipped.Keys, n)
  {
    forall n | Reachable(roots, RuntimeEdges(shipped), shipped.Keys, n)
      ensures Reachable(roots, CombinedEdges(shipped), shipped.Keys, n)
    {
      ReachIsMonotone(roots, RuntimeEdges(shipped), CombinedEdges(shipped), shipped.Keys, n);
    }
  }
}
