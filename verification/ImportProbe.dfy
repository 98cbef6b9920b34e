/** The import probe: a worker that announces each import on its own line, and the parser that reads what is left of it. */
module ImportProbe {
  import opened Basics

  const TAB := '\t'

  // ---- Lines of text ----

  /** Where `str.splitlines` breaks. */
  predicate IsBoundary(c: char) {
    c in {'\n', '\r', '\U{000b}', '\U{000c}', '\U{001c}', '\U{001d}', '\U{001e}', '\U{0085}', '\U{2028}', '\U{2029}'}
  }

  predicate OneLine(text: string) {
    forall i | 0 <= i < |text| :: !IsBoundary(text[i])
  }

  function FirstBoundary(text: string): (i: nat)
    ensures i <= |text| && (forall j | 0 <= j < i :: !IsBoundary(text[j])) && (i < |text| ==> IsBoundary(text[i]))
  {
    if text == "" || IsBoundary(text[0]) then 0
    else
      var rest := FirstBoundary(text[1..]);
      assert forall j | 0 < j < |text| :: text[j] == text[1..][j - 1];
      rest + 1
  }

  /** `text.splitlines()` */
  function SplitLines(text: string): seq<string>
    decreases |text|
  {
    if text == "" then []
    else
      var i := FirstBoundary(text);
      if i == |text| then [text]
      else
        var width := if text[i] == '\r' && i + 1 < |text| && text[i + 1] == '\n' then 2 else 1;
        [text[..i]] + SplitLines(text[i + width..])
  }

  /** One line after the other, each ended by a newline. */
  function Render(lines: seq<string>): string {
    if lines == [] then "" else lines[0] + "\n" + Render(lines[1..])
  }

  lemma {:induction false} SplitLinesAreLines(text: string)
    ensures forall line | line in SplitLines(text) :: OneLine(line)
    decreases |text|
  {
    if text != "" {
      var i := FirstBoundary(text);
      if i < |text| {
        var width := if text[i] == '\r' && i + 1 < |text| && text[i + 1] == '\n' then 2 else 1;
        SplitLinesAreLines(text[i + width..]);
      } else {
        assert text[..i] == text;
      }
    }
  }

  /** A boundary character ends a line, whatever follows; only "\r\n" counts as one. */
  lemma SplitAt(line: string, end: char, rest: string)
    requires OneLine(line) && IsBoundary(end) && !(end == '\r' && rest != "" && rest[0] == '\n')
    ensures SplitLines(line + [end] + rest) == [line] + SplitLines(rest)
  {
    var text := line + [end] + rest;
    assert IsBoundary(text[|line|]);
    assert forall j | 0 <= j < |line| :: text[j] == line[j] && !IsBoundary(text[j]);
    assert FirstBoundary(text) == |line|;
    assert text[..|line|] == line && text[|line| + 1..] == rest;
  }

  lemma {:induction false} CleanLinesComeBack(lines: seq<string>)
    requires forall line | line in lines :: OneLine(line)
    ensures SplitLines(Render(lines)) == lines
    decreases |lines|
  {
    if lines != [] {
      SplitAt(lines[0], '\n', Render(lines[1..]));
      assert lines[0] + ['\n'] + Render(lines[1..]) == Render(lines);
      CleanLinesComeBack(lines[1..]);
    }
  }

  /** The written lines are read back as they are exactly when none of them holds a boundary character. */
  lemma LinesComeBackExactlyWhenClean(lines: seq<string>)
    ensures SplitLines(Render(lines)) == lines <==> forall line | line in lines :: OneLine(line)
  {
    SplitLinesAreLines(Render(lines));
    if forall line | line in lines :: OneLine(line) {
      CleanLinesComeBack(lines);
    }
  }

  // ---- The worker ----

  datatype Outcome = Loads | Raises(summary: string)

  datatype Event = Event(status: string, name: string, detail: string)

  /** `detail.replace("\n", " ")` */
  function Flattened(detail: string): (r: string)
    ensures |r| == |detail| && '\n' !in r
  {
    if detail == "" then "" else [if detail[0] == '\n' then ' ' else detail[0]] + Flattened(detail[1..])
  }

  function Text(e: Event): string {
    e.status + [TAB] + e.name + [TAB] + e.detail
  }

  function Announced(name: string): Event {
    Event("start", name, "")
  }

  function Concluded(name: string, outcome: Outcome): Event {
    match outcome
    case Loads => Event("ok", name, "")
    case Raises(summary) => Event("fail", name, Flattened(summary))
  }

  /** The j-th line of a worker that is never stopped: an announcement, then its outcome. */
  function EventAt(modules: seq<string>, outcomes: seq<Outcome>, j: nat): Event
    requires |outcomes| == |modules| && j < 2 * |modules|
  {
    var i := j / 2;
    if j % 2 == 0 then Announced(modules[i]) else Concluded(modules[i], outcomes[i])
  }

  /** What it has written after k lines. */
  function Trace(modules: seq<string>, outcomes: seq<Outcome>, k: nat): (trace: seq<Event>)
    requires |outcomes| == |modules| && k <= 2 * |modules|
    ensures |trace| == k
  {
    if k == 0 then [] else Trace(modules, outcomes, k - 1) + [EventAt(modules, outcomes, k - 1)]
  }

  function Texts(events: seq<Event>): (lines: seq<string>)
    ensures |lines| == |events|
  {
    if events == [] then [] else Texts(events[..|events| - 1]) + [Text(events[|events| - 1])]
  }

  /** The worker's loop; `stop` is how many lines it writes before the process dies. */
  method Work(modules: seq<string>, outcomes: seq<Outcome>, stop: nat) returns (lines: seq<string>)
    requires |outcomes| == |modules|
    ensures lines == Texts(Trace(modules, outcomes, if stop < 2 * |modules| then stop else 2 * |modules|))
  {
    lines := [];
    for i := 0 to |modules|
      invariant 2 * i <= stop && lines == Texts(Trace(modules, outcomes, 2 * i))
    {
      TwoLines(modules, outcomes, i);
      if stop == 2 * i { return; }
      lines := lines + [Text(Announced(modules[i]))];
      if stop == 2 * i + 1 { return; }
      // The import itself happens here.
      lines := lines + [Text(Concluded(modules[i], outcomes[i]))];
    }
  }

  lemma TwoLines(modules: seq<string>, outcomes: seq<Outcome>, i: nat)
    requires |outcomes| == |modules| && i < |modules|
    ensures Texts(Trace(modules, outcomes, 2 * i + 1))
            == Texts(Trace(modules, outcomes, 2 * i)) + [Text(Announced(modules[i]))]
    ensures Texts(Trace(modules, outcomes, 2 * i + 2))
            == Texts(Trace(modules, outcomes, 2 * i + 1)) + [Text(Concluded(modules[i], outcomes[i]))]
  {
    OneMoreLine(modules, outcomes, 2 * i);
    OneMoreLine(modules, outcomes, 2 * i + 1);
    LinesOf(modules, outcomes, i);
  }

  lemma OneMoreLine(modules: seq<string>, outcomes: seq<Outcome>, j: nat)
    requires |outcomes| == |modules| && j < 2 * |modules|
    ensures Texts(Trace(modules, outcomes, j + 1))
            == Texts(Trace(modules, outcomes, j)) + [Text(EventAt(modules, outcomes, j))]
  {
    TextsSnoc(Trace(modules, outcomes, j), EventAt(modules, outcomes, j));
  }

  lemma LinesOf(modules: seq<string>, outcomes: seq<Outcome>, i: nat)
    requires |outcomes| == |modules| && i < |modules|
    ensures EventAt(modules, outcomes, 2 * i) == Announced(modules[i])
    ensures EventAt(modules, outcomes, 2 * i + 1) == Concluded(modules[i], outcomes[i])
  {
  }

  lemma TextsSnoc(events: seq<Event>, e: Event)
    ensures Texts(events + [e]) == Texts(events) + [Text(e)]
  {
    assert (events + [e])[..|events|] == events;
  }

  // ---- Reading a line ----

  function UpToTab(text: string): (i: nat)
    ensures i <= |text| && (forall j | 0 <= j < i :: text[j] != TAB) && (i < |text| ==> text[i] == TAB)
  {
    if text == "" || text[0] == TAB then 0
    else
      var rest := UpToTab(text[1..]);
      assert forall j | 0 < j < |text| :: text[j] == text[1..][j - 1];
      rest + 1
  }

  /** `text.partition("\t")`, its first and last part. */
  function Partition(text: string): (string, string) {
    var i := UpToTab(text);
    if i == |text| then (text, "") else (text[..i], text[i + 1..])
  }

  function ParseLine(line: string): Event {
    var (status, rest) := Partition(line);
    var (name, detail) := Partition(rest);
    Event(status, name, detail)
  }

  lemma PartitionAtTheFirstTab(a: string, b: string)
    requires TAB !in a
    ensures Partition(a + [TAB] + b) == (a, b)
  {
    var text := a + [TAB] + b;
    assert text[|a|] == TAB;
    assert forall j | 0 <= j < |a| :: text[j] == a[j];
    assert text[..|a|] == a && text[|a| + 1..] == b;
  }

  /** A detail may hold tabs of its own. */
  lemma LineRoundTrip(e: Event)
    requires TAB !in e.status && TAB !in e.name
    ensures ParseLine(Text(e)) == e
  {
    assert Text(e) == e.status + [TAB] + (e.name + [TAB] + e.detail);
    PartitionAtTheFirstTab(e.status, e.name + [TAB] + e.detail);
    PartitionAtTheFirstTab(e.name, e.detail);
  }

  function ParseLines(lines: seq<string>): (events: seq<Event>)
    ensures |events| == |lines|
  {
    if lines == [] then [] else ParseLines(lines[..|lines| - 1]) + [ParseLine(lines[|lines| - 1])]
  }

  lemma {:induction false} TextsRoundTrip(events: seq<Event>)
    requires forall e | e in events :: TAB !in e.status && TAB !in e.name
    ensures ParseLines(Texts(events)) == events
    decreases |events|
  {
    if events != [] {
      var init, last := events[..|events| - 1], events[|events| - 1];
      assert events == init + [last];
      TextsRoundTrip(init);
      LineRoundTrip(last);
      assert Texts(events)[..|events| - 1] == Texts(init);
    }
  }

  // ---- The parser ----

  /** What is said of a module that did not load: its own summary, or one of three fixed sentences. */
  datatype Detail = Told(summary: string) | NoDetail | DiedDuringImport | NeverAttempted

  datatype LoadFailure = LoadFailure(name: string, detail: Detail)

  function DetailOf(text: string): Detail {
    if text == "" then NoDetail else Told(text)
  }

  function LoadedIn(events: seq<Event>): set<string> {
    set i | 0 <= i < |events| && events[i].status == "ok" :: events[i].name
  }

  function StartedIn(events: seq<Event>): seq<string> {
    if events == [] then []
    else
      var last := events[|events| - 1];
      StartedIn(events[..|events| - 1]) + if last.status == "start" then [last.name] else []
  }

  function FailedIn(events: seq<Event>): seq<LoadFailure> {
    if events == [] then []
    else
      var last := events[|events| - 1];
      FailedIn(events[..|events| - 1])
      + if last.status == "fail" then [LoadFailure(last.name, DetailOf(last.detail))] else []
  }

  function NamesOf(failures: seq<LoadFailure>): set<string> {
    set i | 0 <= i < |failures| :: failures[i].name
  }

  /** The names outside `resolved`, each reported with the same detail. */
  function Reported(names: seq<string>, resolved: set<string>, detail: Detail): seq<LoadFailure> {
    if names == [] then []
    else
      var last := names[|names| - 1];
      Reported(names[..|names| - 1], resolved, detail) + if last in resolved then [] else [LoadFailure(last, detail)]
  }

  function FailuresOf(events: seq<Event>, attempted: seq<string>): seq<LoadFailure> {
    var resolved := LoadedIn(events) + NamesOf(FailedIn(events));
    var started := set name | name in StartedIn(events);
    FailedIn(events) + Reported(StartedIn(events), resolved, DiedDuringImport) + Reported(attempted, resolved + started, NeverAttempted)
  }

  method Report(names: seq<string>, resolved: set<string>, detail: Detail) returns (failures: seq<LoadFailure>)
    ensures failures == Reported(names, resolved, detail)
  {
    failures := [];
    for i := 0 to |names|
      invariant failures == Reported(names[..i], resolved, detail)
    {
      assert names[..i + 1][..i] == names[..i];
      if names[i] !in resolved {
        failures := failures + [LoadFailure(names[i], detail)];
      }
    }
    assert names[..|names|] == names;
  }

  // ---- Sorting ----

  function TextOf(detail: Detail): string {
    match detail
    case Told(summary) => summary
    case NoDetail => "no detail reported"
    case DiedDuringImport => "the interpreter died during this import; no exception was raised"
    case NeverAttempted => "never attempted; the probe stopped before reaching it"
  }

  /** Failures sort by module, then by the text of their detail. */
  predicate Less(f: LoadFailure, g: LoadFailure) {
    Precedes(f.name, g.name) || (f.name == g.name && Precedes(TextOf(f.detail), TextOf(g.detail)))
  }

  predicate IsSorted(failures: seq<LoadFailure>) {
    forall i, j | 0 <= i < j < |failures| :: !Less(failures[j], failures[i])
  }

  lemma LessIsTransitive(f: LoadFailure, g: LoadFailure, h: LoadFailure)
    requires Less(f, g) && Less(g, h)
    ensures Less(f, h)
  {
    if Precedes(f.name, g.name) && Precedes(g.name, h.name) {
      PrecedesIsTransitive(f.name, g.name, h.name);
    }
    if Precedes(TextOf(f.detail), TextOf(g.detail)) && Precedes(TextOf(g.detail), TextOf(h.detail)) {
      PrecedesIsTransitive(TextOf(f.detail), TextOf(g.detail), TextOf(h.detail));
    }
  }

  lemma InsertKeepsSorted(failures: seq<LoadFailure>, f: LoadFailure, k: nat)
    requires IsSorted(failures) && k <= |failures|
    requires forall i | 0 <= i < k :: !Less(f, failures[i])
    requires k < |failures| ==> Less(f, failures[k])
    ensures IsSorted(failures[..k] + [f] + failures[k..])
  {
    forall i | k <= i < |failures| ensures !Less(failures[i], f) {
      if Less(failures[i], f) {
        LessIsTransitive(failures[i], f, failures[k]);
        LessIsIrreflexive(failures[k]);
      }
    }
  }

  lemma LessIsIrreflexive(f: LoadFailure)
    ensures !Less(f, f)
  {
    PrecedesIsIrreflexive(f.name);
    PrecedesIsIrreflexive(TextOf(f.detail));
  }

  method Insert(failures: seq<LoadFailure>, f: LoadFailure) returns (longer: seq<LoadFailure>)
    requires IsSorted(failures)
    ensures IsSorted(longer) && multiset(longer) == multiset(failures) + multiset{f}
  {
    var k := 0;
    while k < |failures| && !Less(f, failures[k])
      invariant k <= |failures| && forall i | 0 <= i < k :: !Less(f, failures[i])
    {
      k := k + 1;
    }
    InsertKeepsSorted(failures, f, k);
    longer := failures[..k] + [f] + failures[k..];
    assert failures == failures[..k] + failures[k..];
  }

  method Sort(failures: seq<LoadFailure>) returns (sorted: seq<LoadFailure>)
    ensures IsSorted(sorted) && multiset(sorted) == multiset(failures)
  {
    sorted := [];
    for i := 0 to |failures|
      invariant IsSorted(sorted) && multiset(sorted) == multiset(failures[..i])
    {
      assert failures[..i + 1] == failures[..i] + [failures[i]];
      sorted := Insert(sorted, failures[i]);
    }
    assert failures[..|failures|] == failures;
  }

  method ParseWorkerOutput(stdout: string, attempted: seq<string>) returns (loaded: nat, failures: seq<LoadFailure>)
    ensures var events := ParseLines(SplitLines(stdout));
            && loaded == |LoadedIn(events)|
            && IsSorted(failures) && multiset(failures) == multiset(FailuresOf(events, attempted))
  {
    var lines := SplitLines(stdout);
    var names: set<string> := {};
    var started: seq<string> := [];
    var found: seq<LoadFailure> := [];
    for i := 0 to |lines|
      invariant names == LoadedIn(ParseLines(lines[..i]))
      invariant started == StartedIn(ParseLines(lines[..i]))
      invariant found == FailedIn(ParseLines(lines[..i]))
    {
      var e := ParseLine(lines[i]);
      ParsedSnoc(lines, i);
      if e.status == "start" {
        started := started + [e.name];
      } else if e.status == "ok" {
        names := names + {e.name};
      } else if e.status == "fail" {
        found := found + [LoadFailure(e.name, DetailOf(e.detail))];
      }
    }
    assert lines[..|lines|] == lines;
    var resolved := names + NamesOf(found);
    var unresolved := Report(started, resolved, DiedDuringImport);
    var never := Report(attempted, resolved + (set name | name in started), NeverAttempted);
    loaded := |names|;
    failures := Sort(found + unresolved + never);
  }

  lemma ParsedSnoc(lines: seq<string>, i: nat)
    requires i < |lines|
    ensures var before, e := ParseLines(lines[..i]), ParseLine(lines[i]);
            ParseLines(lines[..i + 1]) == before + [e]
            && LoadedIn(before + [e]) == (if e.status == "ok" then LoadedIn(before) + {e.name} else LoadedIn(before))
  {
    assert lines[..i + 1][..i] == lines[..i];
    LoadedSnoc(ParseLines(lines[..i]), ParseLine(lines[i]));
  }

  lemma LoadedSnoc(events: seq<Event>, e: Event)
    ensures LoadedIn(events + [e]) == if e.status == "ok" then LoadedIn(events) + {e.name} else LoadedIn(events)
  {
    var all := events + [e];
    forall name ensures name in LoadedIn(all) <==> name in LoadedIn(events) || (e.status == "ok" && name == e.name) {
      if name in LoadedIn(events) {
        var i :| 0 <= i < |events| && events[i].status == "ok" && events[i].name == name;
        assert all[i] == events[i];
      }
      if e.status == "ok" && name == e.name {
        assert all[|events|] == e;
      }
    }
  }
}
