/** The advisory verdict: hits are merged under aliases, matched with suppressions, and summed up in one exit code. */
module DependencyAudit {
  import opened Basics

  datatype Coordinate = Coordinate(ecosystem: string, name: string, version: string, surface: string)

  /** `expires` is a day number. */
  datatype Suppression = Suppression(id: string, reason: string, expires: int)

  datatype Finding = Finding(id: string, aliases: seq<string>, affected: set<Coordinate>, suppressedBy: Option<Suppression>)

  datatype Report = Report(findings: seq<Finding>, expired: seq<Suppression>, stale: set<Suppression>)

  type Hits = map<string, set<Coordinate>>

  predicate Expired(s: Suppression, today: int) {
    today > s.expires
  }

  /** The ids an advisory goes by. */
  function Keys(f: Finding): seq<string> {
    [f.id] + f.aliases
  }

  function HitsOf(hits: Hits, key: string): set<Coordinate> {
    if key in hits then hits[key] else {}
  }

  function Blocking(report: Report): seq<Finding> {
    Uncovered(report.findings)
  }

  function Uncovered(findings: seq<Finding>): (r: seq<Finding>)
    ensures r == [] <==> forall f | f in findings :: f.suppressedBy.Some?
  {
    if findings == [] then []
    else
      var last := findings[|findings| - 1];
      assert findings == findings[..|findings| - 1] + [last];
      Uncovered(findings[..|findings| - 1]) + if last.suppressedBy.None? then [last] else []
  }

  function ExitCode(report: Report): nat {
    if Blocking(report) != [] || report.expired != [] then 1 else 0
  }

  // ---- Suppressions ----

  /** Unexpired suppressions by id; of two under one id the later counts. */
  function LiveOf(suppressions: seq<Suppression>, today: int): map<string, Suppression> {
    if suppressions == [] then map[]
    else
      var live, last := LiveOf(suppressions[..|suppressions| - 1], today), suppressions[|suppressions| - 1];
      if Expired(last, today) then live else live[last.id := last]
  }

  function ExpiredOf(suppressions: seq<Suppression>, today: int): seq<Suppression> {
    if suppressions == [] then []
    else
      var last := suppressions[|suppressions| - 1];
      ExpiredOf(suppressions[..|suppressions| - 1], today) + if Expired(last, today) then [last] else []
  }

  method SplitSuppressions(suppressions: seq<Suppression>, today: int)
      returns (live: map<string, Suppression>, expired: seq<Suppression>)
    ensures live == LiveOf(suppressions, today) && expired == ExpiredOf(suppressions, today)
  {
    live, expired := map[], [];
    for i := 0 to |suppressions|
      invariant live == LiveOf(suppressions[..i], today) && expired == ExpiredOf(suppressions[..i], today)
    {
      var s := suppressions[i];
      assert suppressions[..i + 1][..i] == suppressions[..i];
      if Expired(s, today) {
        expired := expired + [s];
      } else {
        live := live[s.id := s];
      }
    }
    assert suppressions[..|suppressions|] == suppressions;
  }

  /** Index `i` holds the last unexpired suppression under its id. */
  predicate LastLive(suppressions: seq<Suppression>, today: int, i: nat)
    requires i < |suppressions|
  {
    !Expired(suppressions[i], today)
    && forall j | i < j < |suppressions| && suppressions[j].id == suppressions[i].id :: Expired(suppressions[j], today)
  }

  /** A suppression is in force under its id exactly when it is the last unexpired one there. */
  lemma {:induction false} InForceExactlyWhenLast(suppressions: seq<Suppression>, today: int, id: string, s: Suppression)
    ensures id in LiveOf(suppressions, today) && LiveOf(suppressions, today)[id] == s <==>
            exists i | 0 <= i < |suppressions| ::
              suppressions[i] == s && s.id == id && LastLive(suppressions, today, i)
    decreases |suppressions|
  {
    if suppressions != [] {
      var n := |suppressions| - 1;
      var init, last := suppressions[..n], suppressions[n];
      InForceExactlyWhenLast(init, today, id, s);
      forall i | 0 <= i < n && init[i].id == id && (Expired(last, today) || last.id != id)
        ensures LastLive(init, today, i) <==> LastLive(suppressions, today, i)
      {
      }
      if !Expired(last, today) && last.id == id {
        assert LastLive(suppressions, today, n);
      }
    }
  }

  lemma {:induction false} ExpiredAreListed(suppressions: seq<Suppression>, today: int, s: Suppression)
    ensures s in ExpiredOf(suppressions, today) <==> s in suppressions && Expired(s, today)
    decreases |suppressions|
  {
    if suppressions != [] {
      var n := |suppressions| - 1;
      ExpiredAreListed(suppressions[..n], today, s);
      assert suppressions == suppressions[..n] + [suppressions[n]];
    }
  }

  /** Some unexpired suppression stands under the id exactly when one is in force there. */
  lemma {:induction false} InForceExactlyWhenAny(suppressions: seq<Suppression>, today: int, id: string)
    ensures id in LiveOf(suppressions, today) <==>
            exists s | s in suppressions :: !Expired(s, today) && s.id == id
    ensures id in LiveOf(suppressions, today) ==>
            var s := LiveOf(suppressions, today)[id]; s in suppressions && !Expired(s, today) && s.id == id
    decreases |suppressions|
  {
    if suppressions != [] {
      var n := |suppressions| - 1;
      InForceExactlyWhenAny(suppressions[..n], today, id);
      assert suppressions == suppressions[..n] + [suppressions[n]];
    }
  }

  // ---- One advisory ----

  predicate Covers(live: map<string, Suppression>, keys: seq<string>, covering: Option<Suppression>) {
    match covering
    case None => forall key | key in keys :: key !in live
    case Some(s) => exists i | 0 <= i < |keys| :: FirstLive(live, keys, i) && live[keys[i]] == s
  }

  predicate FirstLive(live: map<string, Suppression>, keys: seq<string>, i: nat)
    requires i < |keys|
  {
    keys[i] in live && forall j | 0 <= j < i :: keys[j] !in live
  }

  /** The suppression under the first of the keys that has one. */
  method FindCovering(live: map<string, Suppression>, keys: seq<string>) returns (covering: Option<Suppression>)
    ensures Covers(live, keys, covering)
  {
    for i := 0 to |keys|
      invariant forall j | 0 <= j < i :: keys[j] !in live
    {
      if keys[i] in live {
        assert FirstLive(live, keys, i);
        return Some(live[keys[i]]);
      }
    }
    return None;
  }

  /** A coordinate is hit under one of the keys. */
  predicate HitUnder(hits: Hits, keys: seq<string>, c: Coordinate) {
    exists i | 0 <= i < |keys| :: c in HitsOf(hits, keys[i])
  }

  ghost predicate IsMerged(hits: Hits, keys: seq<string>, merged: set<Coordinate>) {
    forall c :: c in merged <==> HitUnder(hits, keys, c)
  }

  method Merge(hits: Hits, keys: seq<string>) returns (merged: set<Coordinate>)
    ensures IsMerged(hits, keys, merged)
  {
    merged := {};
    for i := 0 to |keys|
      invariant forall j, c | 0 <= j < i && c in HitsOf(hits, keys[j]) :: c in merged
      invariant forall c | c in merged :: HitUnder(hits, keys, c)
    {
      merged := merged + HitsOf(hits, keys[i]);
    }
  }

  /** What an id is also known as; an id the source describes without aliases has none. */
  type Aliases = map<string, seq<string>>

  function AliasesOf(aliases: Aliases, id: string): seq<string> {
    if id in aliases then aliases[id] else []
  }

  /** The finding of one advisory: its aliases, all that is hit under any of its keys, and the suppression that covers it. */
  ghost predicate FindingOk(hits: Hits, aliases: Aliases, live: map<string, Suppression>, f: Finding) {
    && f.id in hits && f.aliases == AliasesOf(aliases, f.id)
    && IsMerged(hits, Keys(f), f.affected)
    && Covers(live, Keys(f), f.suppressedBy)
  }

  method Advise(identifier: string, hits: Hits, aliases: Aliases, live: map<string, Suppression>) returns (f: Finding)
    requires identifier in hits
    ensures f.id == identifier && FindingOk(hits, aliases, live, f)
  {
    var others := AliasesOf(aliases, identifier);
    var covering := FindCovering(live, [identifier] + others);
    var affected := Merge(hits, [identifier] + others);
    return Finding(identifier, others, affected, covering);
  }

  // ---- The report ----

  ghost predicate AllOk(hits: Hits, aliases: Aliases, live: map<string, Suppression>, findings: seq<Finding>) {
    forall f | f in findings :: FindingOk(hits, aliases, live, f)
  }

  predicate Distinct(findings: seq<Finding>) {
    forall i, j | 0 <= i < j < |findings| :: findings[i].id != findings[j].id
  }

  /** Some finding goes by the key. */
  predicate Named(findings: seq<Finding>, key: string) {
    exists f | f in findings :: key in Keys(f)
  }

  // -- Which ids lead a finding --

  /** The ids under which an advisory met as `id` is known. */
  function Group(aliases: Aliases, id: string): seq<string> {
    [id] + AliasesOf(aliases, id)
  }

  predicate Led(leaders: seq<string>, aliases: Aliases, id: string) {
    exists l | l in leaders :: id in Group(aliases, l)
  }

  /** The ids, in the order they are met, that no earlier one of them goes by. */
  function Leaders(identifiers: seq<string>, aliases: Aliases): seq<string> {
    if identifiers == [] then []
    else
      var leaders, last := Leaders(identifiers[..|identifiers| - 1], aliases), identifiers[|identifiers| - 1];
      if Led(leaders, aliases, last) then leaders else leaders + [last]
  }

  predicate LedBy(findings: seq<Finding>, leaders: seq<string>) {
    |findings| == |leaders| && forall i | 0 <= i < |leaders| :: findings[i].id == leaders[i]
  }

  lemma NamedSnoc(findings: seq<Finding>, f: Finding, key: string)
    ensures Named(findings + [f], key) <==> Named(findings, key) || key in Keys(f)
  {
    if Named(findings, key) {
      var g :| g in findings && key in Keys(g);
      assert g in findings + [f];
    }
    if key in Keys(f) {
      assert f in findings + [f];
    }
  }

  /** The first `n` hits have been walked: `seen` are the ids of the findings, and every one walked is among them. */
  ghost predicate Walked(identifiers: seq<string>, n: nat, hits: Hits, aliases: Aliases, live: map<string, Suppression>,
                         findings: seq<Finding>, seen: set<string>)
  {
    && n <= |identifiers| && AllOk(hits, aliases, live, findings) && Distinct(findings)
    && LedBy(findings, Leaders(identifiers[..n], aliases))
    && (forall key :: key in seen <==> Named(findings, key))
    && (forall m | 0 <= m < n :: identifiers[m] in seen)
  }

  /** Walks the hits in the given order; every order gives findings of this kind. */
  method FindAll(identifiers: seq<string>, hits: Hits, aliases: Aliases, live: map<string, Suppression>)
      returns (findings: seq<Finding>)
    requires forall key :: key in identifiers <==> key in hits
    ensures AllOk(hits, aliases, live, findings) && Distinct(findings)
    ensures forall key | key in hits :: Named(findings, key)
    ensures LedBy(findings, Leaders(identifiers, aliases))
  {
    findings := [];
    var seen: set<string> := {};
    for n := 0 to |identifiers|
      invariant Walked(identifiers, n, hits, aliases, live, findings, seen)
    {
      if identifiers[n] in seen {
        WalkedOn(identifiers, n, hits, aliases, live, findings, seen);
        continue;
      }
      assert identifiers[n] in hits;
      var f := Advise(identifiers[n], hits, aliases, live);
      WalkedTo(identifiers, n, hits, aliases, live, findings, seen, f);
      seen := seen + set key | key in Keys(f);
      findings := findings + [f];
    }
    assert identifiers[..|identifiers|] == identifiers;
  }

  lemma WalkedOn(identifiers: seq<string>, n: nat, hits: Hits, aliases: Aliases, live: map<string, Suppression>,
                 findings: seq<Finding>, seen: set<string>)
    requires n < |identifiers| && Walked(identifiers, n, hits, aliases, live, findings, seen) && identifiers[n] in seen
    ensures Walked(identifiers, n + 1, hits, aliases, live, findings, seen)
  {
    LeadersStep(identifiers, aliases, n);
    LedExactlyWhenNamed(hits, aliases, live, findings, Leaders(identifiers[..n], aliases), identifiers[n]);
  }

  lemma WalkedTo(identifiers: seq<string>, n: nat, hits: Hits, aliases: Aliases, live: map<string, Suppression>,
                 findings: seq<Finding>, seen: set<string>, f: Finding)
    requires n < |identifiers| && Walked(identifiers, n, hits, aliases, live, findings, seen) && identifiers[n] !in seen
    requires f.id == identifiers[n] && FindingOk(hits, aliases, live, f)
    ensures Walked(identifiers, n + 1, hits, aliases, live, findings + [f], seen + set key | key in Keys(f))
  {
    NewFinding(findings, f);
    LeaderAdded(identifiers, n, hits, aliases, live, findings, f);
    SeenAdded(findings, seen, f);
  }

  lemma LeaderAdded(identifiers: seq<string>, n: nat, hits: Hits, aliases: Aliases, live: map<string, Suppression>,
                    findings: seq<Finding>, f: Finding)
    requires n < |identifiers| && f.id == identifiers[n] && !Named(findings, f.id)
    requires AllOk(hits, aliases, live, findings) && LedBy(findings, Leaders(identifiers[..n], aliases))
    ensures LedBy(findings + [f], Leaders(identifiers[..n + 1], aliases))
  {
    LeadersStep(identifiers, aliases, n);
    LedExactlyWhenNamed(hits, aliases, live, findings, Leaders(identifiers[..n], aliases), f.id);
  }

  lemma SeenAdded(findings: seq<Finding>, seen: set<string>, f: Finding)
    requires forall key :: key in seen <==> Named(findings, key)
    ensures var seen' := seen + set key | key in Keys(f);
            f.id in seen' && forall key :: key in seen' <==> Named(findings + [f], key)
  {
    assert f.id in Keys(f);
    forall key ensures key in seen + (set k | k in Keys(f)) <==> Named(findings + [f], key) {
      NamedSnoc(findings, f, key);
    }
  }

  lemma LeadersStep(identifiers: seq<string>, aliases: Aliases, n: nat)
    requires n < |identifiers|
    ensures var leaders := Leaders(identifiers[..n], aliases);
            Leaders(identifiers[..n + 1], aliases)
            == if Led(leaders, aliases, identifiers[n]) then leaders else leaders + [identifiers[n]]
  {
    assert identifiers[..n + 1][..n] == identifiers[..n];
  }

  lemma LedExactlyWhenNamed(hits: Hits, aliases: Aliases, live: map<string, Suppression>, findings: seq<Finding>,
                            leaders: seq<string>, id: string)
    requires AllOk(hits, aliases, live, findings) && LedBy(findings, leaders)
    ensures Named(findings, id) <==> Led(leaders, aliases, id)
  {
    forall f | f in findings ensures f.id in leaders && Keys(f) == Group(aliases, f.id) {
      assert FindingOk(hits, aliases, live, f);
      var i :| 0 <= i < |findings| && findings[i] == f;
    }
    forall l | l in leaders && id in Group(aliases, l) ensures Named(findings, id) {
      var i :| 0 <= i < |leaders| && leaders[i] == l;
      assert findings[i] in findings && id in Keys(findings[i]);
    }
  }

  lemma NewFinding(findings: seq<Finding>, f: Finding)
    requires Distinct(findings) && !Named(findings, f.id)
    ensures Distinct(findings + [f])
    ensures forall key :: Named(findings + [f], key) <==> Named(findings, key) || key in Keys(f)
  {
    forall i | 0 <= i < |findings| ensures findings[i].id != f.id {
      assert findings[i].id in Keys(findings[i]);
    }
    forall key ensures Named(findings + [f], key) <==> Named(findings, key) || key in Keys(f) {
      NamedSnoc(findings, f, key);
    }
  }

  predicate IsUsed(findings: seq<Finding>, s: Suppression) {
    exists f | f in findings :: f.suppressedBy == Some(s)
  }

  /** Some unexpired suppression stands under the finding's id or one of its aliases. */
  predicate Accepted(suppressions: seq<Suppression>, today: int, f: Finding) {
    exists s | s in suppressions :: !Expired(s, today) && s.id in Keys(f)
  }

  /** The hit on a coordinate under an id shows up in a finding that goes by that id. */
  predicate Reported(findings: seq<Finding>, key: string, c: Coordinate) {
    exists f | f in findings :: key in Keys(f) && c in f.affected
  }

  /**
   Merging under any alias table, in any order of the hits, loses no hit and
   invents none; the findings are those of the leading ids, and no id belongs to
   two of them exactly when the leading ids share no id; a finding is covered exactly when an unexpired
   suppression stands under one of its ids; the expired are listed, and a
   suppression in force is stale exactly when it covers nothing.
   */
  method BuildReport(identifiers: seq<string>, hits: Hits, suppressions: seq<Suppression>, today: int, aliases: Aliases)
      returns (report: Report)
    requires forall key :: key in identifiers <==> key in hits
    ensures forall key, c | key in hits && c in hits[key] :: Reported(report.findings, key, c)
    ensures forall f, c | f in report.findings && c in f.affected :: HitUnder(hits, Keys(f), c)
    ensures forall f | f in report.findings :: f.id in hits && f.aliases == AliasesOf(aliases, f.id)
    ensures Distinct(report.findings) && LedBy(report.findings, Leaders(identifiers, aliases))
    ensures ReportedOnce(report.findings) <==> Apart(Leaders(identifiers, aliases), aliases)
    ensures forall f | f in report.findings :: f.suppressedBy.Some? <==> Accepted(suppressions, today, f)
    ensures forall f | f in report.findings :: Covers(LiveOf(suppressions, today), Keys(f), f.suppressedBy)
    ensures forall s :: s in report.expired <==> s in suppressions && Expired(s, today)
    ensures forall s :: s in report.stale <==>
                        s in LiveOf(suppressions, today).Values && !IsUsed(report.findings, s)
  {
    var live, expired := SplitSuppressions(suppressions, today);
    var findings := FindAll(identifiers, hits, aliases, live);
    var stale := set s | s in live.Values && !IsUsed(findings, s);
    report := Report(findings, expired, stale);
    AllReported(findings, hits, aliases, live);
    NothingInvented(findings, hits, aliases, live);
    AllJudged(findings, hits, aliases, suppressions, today);
    OnceExactlyWhenApart(findings, hits, aliases, live, Leaders(identifiers, aliases));
    forall s ensures s in expired <==> s in suppressions && Expired(s, today) {
      ExpiredAreListed(suppressions, today, s);
    }
  }

  // ---- Each advisory once ----

  predicate Share(a: seq<string>, b: seq<string>) {
    exists key | key in a :: key in b
  }

  /** No id belongs to two findings. */
  predicate ReportedOnce(findings: seq<Finding>) {
    forall i, j | 0 <= i < j < |findings| :: !Share(Keys(findings[i]), Keys(findings[j]))
  }

  predicate Apart(leaders: seq<string>, aliases: Aliases) {
    forall i, j | 0 <= i < j < |leaders| :: !Share(Group(aliases, leaders[i]), Group(aliases, leaders[j]))
  }

  lemma OnceExactlyWhenApart(findings: seq<Finding>, hits: Hits, aliases: Aliases, live: map<string, Suppression>,
                             leaders: seq<string>)
    requires AllOk(hits, aliases, live, findings) && LedBy(findings, leaders)
    ensures ReportedOnce(findings) <==> Apart(leaders, aliases)
  {
    forall i | 0 <= i < |findings| ensures Keys(findings[i]) == Group(aliases, leaders[i]) {
      assert FindingOk(hits, aliases, live, findings[i]);
    }
  }

  predicate Sorted(ids: seq<string>) {
    forall i, j | 0 <= i < j < |ids| :: Precedes(ids[i], ids[j])
  }

  /** Of two ids of one advisory, the entry of the one that sorts first names the other. */
  ghost predicate FirstNamesTheOther(aliases: Aliases) {
    forall a, b | Precedes(a, b) && Share(Group(aliases, a), Group(aliases, b)) :: b in Group(aliases, a)
  }

  /**
   Each advisory is reported once whatever is hit, the hits being walked in
   sorted order, exactly when in the alias table the first of two ids that have
   an id in common always names the other.
   */
  lemma ReportsOnceExactlyWhen(aliases: Aliases)
    ensures FirstNamesTheOther(aliases) <==> forall ids | Sorted(ids) :: Apart(Leaders(ids, aliases), aliases)
  {
    if FirstNamesTheOther(aliases) {
      forall ids | Sorted(ids) ensures Apart(Leaders(ids, aliases), aliases) {
        LeadersAreApart(ids, aliases);
      }
    } else {
      var ids := SomeAreNotApart(aliases);
    }
  }

  lemma SomeAreNotApart(aliases: Aliases) returns (ids: seq<string>)
    requires !FirstNamesTheOther(aliases)
    ensures Sorted(ids) && !Apart(Leaders(ids, aliases), aliases)
  {
    var a, b :| Precedes(a, b) && Share(Group(aliases, a), Group(aliases, b)) && b !in Group(aliases, a);
    TwoLead(aliases, a, b);
    ids := [a, b];
  }

  /** Leading ids are among those met, in the same order, and none goes by an earlier one. */
  lemma {:induction false} LeadersAreApart(ids: seq<string>, aliases: Aliases)
    requires FirstNamesTheOther(aliases) && Sorted(ids)
    ensures Apart(Leaders(ids, aliases), aliases)
    ensures forall l | l in Leaders(ids, aliases) :: l in ids
    decreases |ids|
  {
    if ids != [] {
      var init, last := ids[..|ids| - 1], ids[|ids| - 1];
      LeadersAreApart(init, aliases);
      var leaders := Leaders(init, aliases);
      if !Led(leaders, aliases, last) {
        forall l | l in leaders ensures !Share(Group(aliases, l), Group(aliases, last)) {
          var i :| 0 <= i < |init| && init[i] == l;
          assert Precedes(ids[i], ids[|ids| - 1]);
        }
      }
    }
  }

  /** Two such ids met one after the other both lead a finding, and the findings have an id in common. */
  lemma TwoLead(aliases: Aliases, a: string, b: string)
    requires b !in Group(aliases, a) && Share(Group(aliases, a), Group(aliases, b))
    ensures Leaders([a, b], aliases) == [a, b] && !Apart(Leaders([a, b], aliases), aliases)
  {
    assert [a, b][..1] == [a] && [a][..0] == [];
    assert Leaders([a], aliases) == [a];
  }

  lemma HitIsUnder(hits: Hits, keys: seq<string>, key: string, c: Coordinate)
    requires key in keys && c in HitsOf(hits, key)
    ensures HitUnder(hits, keys, c)
  {
    var i :| 0 <= i < |keys| && keys[i] == key;
  }

  lemma ReportedUnder(findings: seq<Finding>, hits: Hits, aliases: Aliases, live: map<string, Suppression>,
                      key: string, c: Coordinate)
    requires AllOk(hits, aliases, live, findings) && Named(findings, key) && c in HitsOf(hits, key)
    ensures Reported(findings, key, c)
  {
    var f :| f in findings && key in Keys(f);
    HitIsUnder(hits, Keys(f), key, c);
    assert FindingOk(hits, aliases, live, f);
  }

  lemma AllReported(findings: seq<Finding>, hits: Hits, aliases: Aliases, live: map<string, Suppression>)
    requires AllOk(hits, aliases, live, findings) && forall key | key in hits :: Named(findings, key)
    ensures forall key, c | key in hits && c in hits[key] :: Reported(findings, key, c)
  {
    forall key, c | key in hits && c in hits[key] ensures Reported(findings, key, c) {
      ReportedUnder(findings, hits, aliases, live, key, c);
    }
  }

  lemma NothingInvented(findings: seq<Finding>, hits: Hits, aliases: Aliases, live: map<string, Suppression>)
    requires AllOk(hits, aliases, live, findings)
    ensures forall f, c | f in findings && c in f.affected :: HitUnder(hits, Keys(f), c)
    ensures forall f | f in findings :: f.id in hits && f.aliases == AliasesOf(aliases, f.id)
  {
    forall f | f in findings
      ensures f.id in hits && f.aliases == AliasesOf(aliases, f.id) && IsMerged(hits, Keys(f), f.affected)
    {
      assert FindingOk(hits, aliases, live, f);
    }
  }

  lemma AllJudged(findings: seq<Finding>, hits: Hits, aliases: Aliases, suppressions: seq<Suppression>, today: int)
    requires AllOk(hits, aliases, LiveOf(suppressions, today), findings)
    ensures forall f | f in findings :: f.suppressedBy.Some? <==> Accepted(suppressions, today, f)
    ensures forall f | f in findings :: Covers(LiveOf(suppressions, today), Keys(f), f.suppressedBy)
  {
    forall f | f in findings
      ensures f.suppressedBy.Some? <==> Accepted(suppressions, today, f)
      ensures Covers(LiveOf(suppressions, today), Keys(f), f.suppressedBy)
    {
      assert FindingOk(hits, aliases, LiveOf(suppressions, today), f);
      SuppressedExactlyWhen(suppressions, today, f);
    }
  }

  lemma SuppressedExactlyWhen(suppressions: seq<Suppression>, today: int, f: Finding)
    requires Covers(LiveOf(suppressions, today), Keys(f), f.suppressedBy)
    ensures f.suppressedBy.Some? <==> Accepted(suppressions, today, f)
  {
    var live := LiveOf(suppressions, today);
    if f.suppressedBy.Some? {
      var i :| 0 <= i < |Keys(f)| && FirstLive(live, Keys(f), i) && live[Keys(f)[i]] == f.suppressedBy.value;
      InForceExactlyWhenAny(suppressions, today, Keys(f)[i]);
    }
    if Accepted(suppressions, today, f) {
      var s :| s in suppressions && !Expired(s, today) && s.id in Keys(f);
      InForceExactlyWhenAny(suppressions, today, s.id);
    }
  }

  // ---- The verdict ----

  /**
   The verdict is 0 exactly when no suppression has expired and every finding
   has an unexpired suppression under its id or an alias.
   */
  method Verdict(identifiers: seq<string>, hits: Hits, suppressions: seq<Suppression>, today: int, aliases: Aliases)
      returns (report: Report, code: nat)
    requires forall key :: key in identifiers <==> key in hits
    ensures code == 0 <==>
            && (forall s | s in suppressions :: !Expired(s, today))
            && (forall f | f in report.findings :: Accepted(suppressions, today, f))
    ensures forall key, c | key in hits && c in hits[key] :: Reported(report.findings, key, c)
  {
    report := BuildReport(identifiers, hits, suppressions, today, aliases);
    code := ExitCode(report);
    assert report.expired != [] ==> report.expired[0] in report.expired;
  }
}
