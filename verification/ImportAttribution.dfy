/** Wherever the worker stops, the parser says of every module what became of it. */
module ImportAttribution {
  import opened ImportProbe

  predicate Distinct(modules: seq<string>) {
    forall i, j | 0 <= i < j < |modules| :: modules[i] != modules[j]
  }

  function Names(modules: seq<string>): set<string> {
    set name | name in modules
  }

  function FailureOf(name: string, summary: string): LoadFailure {
    LoadFailure(name, DetailOf(Flattened(summary)))
  }

  /** The modules among the first i that loaded. */
  function LoadedFirst(modules: seq<string>, outcomes: seq<Outcome>, i: nat): set<string>
    requires |outcomes| == |modules| && i <= |modules|
  {
    if i == 0 then {}
    else LoadedFirst(modules, outcomes, i - 1) + if outcomes[i - 1].Loads? then {modules[i - 1]} else {}
  }

  /** The failures of the modules among the first i that raised, in order. */
  function FailedFirst(modules: seq<string>, outcomes: seq<Outcome>, i: nat): seq<LoadFailure>
    requires |outcomes| == |modules| && i <= |modules|
  {
    if i == 0 then []
    else
      FailedFirst(modules, outcomes, i - 1)
      + match outcomes[i - 1]
        case Loads => []
        case Raises(summary) => [FailureOf(modules[i - 1], summary)]
  }

  /** The modules from index j on, reported as never attempted. */
  function NeverFrom(modules: seq<string>, j: nat): seq<LoadFailure>
    requires j <= |modules|
    decreases |modules|
  {
    if |modules| == j then []
    else NeverFrom(modules[..|modules| - 1], j) + [LoadFailure(modules[|modules| - 1], NeverAttempted)]
  }

  function DiedAt(modules: seq<string>, k: nat): seq<LoadFailure>
    requires k <= 2 * |modules|
  {
    if k % 2 == 0 then [] else [LoadFailure(modules[k / 2], DiedDuringImport)]
  }

  // ---- What a prefix of the trace holds ----

  /** Reading off one more event. */
  lemma ReadSnoc(events: seq<Event>, e: Event)
    ensures StartedIn(events + [e]) == StartedIn(events) + if e.status == "start" then [e.name] else []
    ensures FailedIn(events + [e]) == FailedIn(events)
              + if e.status == "fail" then [LoadFailure(e.name, DetailOf(e.detail))] else []
    ensures LoadedIn(events + [e]) == LoadedIn(events) + if e.status == "ok" then {e.name} else {}
  {
    assert (events + [e])[..|events|] == events;
    LoadedSnoc(events, e);
  }

  lemma AnnouncedReads(events: seq<Event>, name: string)
    ensures var after := events + [Announced(name)];
            StartedIn(after) == StartedIn(events) + [name] && FailedIn(after) == FailedIn(events)
            && LoadedIn(after) == LoadedIn(events)
  {
    ReadSnoc(events, Announced(name));
  }

  lemma ConcludedReads(events: seq<Event>, name: string, outcome: Outcome)
    ensures var after := events + [Concluded(name, outcome)];
            && StartedIn(after) == StartedIn(events)
            && FailedIn(after) == FailedIn(events) + (match outcome
                                                      case Loads => []
                                                      case Raises(summary) => [FailureOf(name, summary)])
            && LoadedIn(after) == LoadedIn(events) + if outcome.Loads? then {name} else {}
  {
    ReadSnoc(events, Concluded(name, outcome));
  }

  predicate ReadsAs(events: seq<Event>, started: seq<string>, loaded: set<string>, failed: seq<LoadFailure>) {
    StartedIn(events) == started && LoadedIn(events) == loaded && FailedIn(events) == failed
  }

  lemma AnnounceStep(modules: seq<string>, outcomes: seq<Outcome>, i: nat, loaded: set<string>, failed: seq<LoadFailure>)
    requires |outcomes| == |modules| && i < |modules|
    requires ReadsAs(Trace(modules, outcomes, 2 * i), modules[..i], loaded, failed)
    ensures ReadsAs(Trace(modules, outcomes, 2 * i + 1), modules[..i + 1], loaded, failed)
  {
    LinesOf(modules, outcomes, i);
    AnnouncedReads(Trace(modules, outcomes, 2 * i), modules[i]);
    assert modules[..i + 1] == modules[..i] + [modules[i]];
  }

  lemma ConcludeStep(modules: seq<string>, outcomes: seq<Outcome>, i: nat)
    requires |outcomes| == |modules| && i < |modules|
    requires ReadsAs(Trace(modules, outcomes, 2 * i + 1), modules[..i + 1],
                     LoadedFirst(modules, outcomes, i), FailedFirst(modules, outcomes, i))
    ensures ReadsAs(Trace(modules, outcomes, 2 * i + 2), modules[..i + 1],
                    LoadedFirst(modules, outcomes, i + 1), FailedFirst(modules, outcomes, i + 1))
  {
    LinesOf(modules, outcomes, i);
    ConcludedReads(Trace(modules, outcomes, 2 * i + 1), modules[i], outcomes[i]);
  }

  /** The first i modules, announced and concluded, read as they ended. */
  predicate ReadsThrough(modules: seq<string>, outcomes: seq<Outcome>, i: nat)
    requires |outcomes| == |modules| && i <= |modules|
  {
    ReadsAs(Trace(modules, outcomes, 2 * i), modules[..i],
            LoadedFirst(modules, outcomes, i), FailedFirst(modules, outcomes, i))
  }

  lemma NextReads(modules: seq<string>, outcomes: seq<Outcome>, i: nat)
    requires |outcomes| == |modules| && i < |modules| && ReadsThrough(modules, outcomes, i)
    ensures ReadsThrough(modules, outcomes, i + 1)
  {
    AnnounceStep(modules, outcomes, i, LoadedFirst(modules, outcomes, i), FailedFirst(modules, outcomes, i));
    ConcludeStep(modules, outcomes, i);
  }

  lemma NothingReads(modules: seq<string>, outcomes: seq<Outcome>)
    requires |outcomes| == |modules|
    ensures ReadsThrough(modules, outcomes, 0)
  {
    assert Trace(modules, outcomes, 0) == [] && modules[..0] == [];
  }

  lemma {:induction false} TraceReads(modules: seq<string>, outcomes: seq<Outcome>, i: nat)
    requires |outcomes| == |modules| && i <= |modules|
    ensures ReadsThrough(modules, outcomes, i)
  {
    if i == 0 {
      NothingReads(modules, outcomes);
    } else {
      TraceReads(modules, outcomes, i - 1);
      NextReads(modules, outcomes, i - 1);
    }
  }

  lemma NamesGrow(modules: seq<string>, i: nat)
    requires i < |modules|
    ensures Names(modules[..i + 1]) == Names(modules[..i]) + {modules[i]}
  {
    assert modules[..i + 1] == modules[..i] + [modules[i]];
  }

  lemma {:induction false} FirstAreResolved(modules: seq<string>, outcomes: seq<Outcome>, i: nat)
    requires |outcomes| == |modules| && i <= |modules|
    ensures LoadedFirst(modules, outcomes, i) + NamesOf(FailedFirst(modules, outcomes, i)) == Names(modules[..i])
  {
    if i > 0 {
      var failed := FailedFirst(modules, outcomes, i - 1);
      FirstAreResolved(modules, outcomes, i - 1);
      NamesGrow(modules, i - 1);
      if outcomes[i - 1].Raises? {
        NamesSnoc(failed, FailureOf(modules[i - 1], outcomes[i - 1].summary));
      } else {
        assert FailedFirst(modules, outcomes, i) == failed;
      }
    }
  }

  predicate Counted(modules: seq<string>, outcomes: seq<Outcome>, i: nat)
    requires |outcomes| == |modules| && i <= |modules|
  {
    |LoadedFirst(modules, outcomes, i)| + |FailedFirst(modules, outcomes, i)| == i
  }

  lemma {:induction false} FirstAreCounted(modules: seq<string>, outcomes: seq<Outcome>, i: nat)
    requires |outcomes| == |modules| && i <= |modules| && Distinct(modules)
    ensures Counted(modules, outcomes, i)
  {
    if i > 0 {
      FirstAreCounted(modules, outcomes, i - 1);
      NextIsCounted(modules, outcomes, i - 1);
    }
  }

  lemma NextIsCounted(modules: seq<string>, outcomes: seq<Outcome>, i: nat)
    requires |outcomes| == |modules| && i < |modules| && Distinct(modules) && Counted(modules, outcomes, i)
    ensures Counted(modules, outcomes, i + 1)
  {
    LoadedBefore(modules, outcomes, i);
    var loaded, failed := LoadedFirst(modules, outcomes, i), FailedFirst(modules, outcomes, i);
    if outcomes[i].Loads? {
      assert LoadedFirst(modules, outcomes, i + 1) == loaded + {modules[i]};
      assert FailedFirst(modules, outcomes, i + 1) == failed;
    } else {
      assert LoadedFirst(modules, outcomes, i + 1) == loaded;
    }
  }

  lemma LoadedBefore(modules: seq<string>, outcomes: seq<Outcome>, i: nat)
    requires |outcomes| == |modules| && i < |modules| && Distinct(modules)
    ensures modules[i] !in LoadedFirst(modules, outcomes, i)
  {
    FirstAreResolved(modules, outcomes, i);
    assert modules[i] !in Names(modules[..i]);
  }

  lemma NamesSnoc(failures: seq<LoadFailure>, f: LoadFailure)
    ensures NamesOf(failures + [f]) == NamesOf(failures) + {f.name}
  {
    var all := failures + [f];
    forall name | name in NamesOf(failures) + {f.name} ensures name in NamesOf(all) {
      if name in NamesOf(failures) {
        var i :| 0 <= i < |failures| && failures[i].name == name;
        assert all[i].name == name;
      } else {
        assert all[|failures|].name == name;
      }
    }
  }

  // ---- What is reported for the rest ----

  lemma {:induction false} ResolvedAreNotReported(names: seq<string>, resolved: set<string>, detail: Detail)
    requires forall name | name in names :: name in resolved
    ensures Reported(names, resolved, detail) == []
    decreases |names|
  {
    if names != [] {
      assert names == names[..|names| - 1] + [names[|names| - 1]];
      ResolvedAreNotReported(names[..|names| - 1], resolved, detail);
    }
  }

  lemma {:induction false} TheRestIsReported(modules: seq<string>, j: nat)
    requires j <= |modules| && Distinct(modules)
    ensures Reported(modules, Names(modules[..j]), NeverAttempted) == NeverFrom(modules, j)
    decreases |modules|
  {
    if |modules| == j {
      assert modules[..j] == modules;
      ResolvedAreNotReported(modules, Names(modules), NeverAttempted);
    } else {
      var last := |modules| - 1;
      TheRestIsReported(modules[..last], j);
      assert modules[..last][..j] == modules[..j];
      assert modules[last] !in Names(modules[..j]);
    }
  }

  lemma StartedIsReported(modules: seq<string>, i: nat)
    requires i < |modules| && Distinct(modules)
    ensures Reported(modules[..i + 1], Names(modules[..i]), DiedDuringImport) == [LoadFailure(modules[i], DiedDuringImport)]
  {
    assert modules[..i + 1][..i] == modules[..i] && modules[i] !in Names(modules[..i]);
    ResolvedAreNotReported(modules[..i], Names(modules[..i]), DiedDuringImport);
  }

  lemma {:induction false} NeverNames(modules: seq<string>, j: nat)
    requires j <= |modules|
    ensures |NeverFrom(modules, j)| == |modules| - j
    ensures NamesOf(NeverFrom(modules, j)) == Names(modules[j..])
    decreases |modules|
  {
    if |modules| > j {
      var last := |modules| - 1;
      NeverNames(modules[..last], j);
      NamesSnoc(NeverFrom(modules[..last], j), LoadFailure(modules[last], NeverAttempted));
      assert modules[j..] == modules[..last][j..] + [modules[last]];
    }
  }

  // ---- Main results ----

  predicate AttributedAs(events: seq<Event>, modules: seq<string>, loaded: set<string>, failures: seq<LoadFailure>) {
    LoadedIn(events) == loaded && FailuresOf(events, modules) == failures
  }

  lemma StoppedBetween(modules: seq<string>, outcomes: seq<Outcome>, k: nat, i: nat)
    requires |outcomes| == |modules| && k == 2 * i && i <= |modules| && Distinct(modules)
    ensures AttributedAs(Trace(modules, outcomes, k), modules, LoadedFirst(modules, outcomes, i),
                         FailedFirst(modules, outcomes, i) + [] + NeverFrom(modules, i))
  {
    TraceReads(modules, outcomes, i);
    FirstAreResolved(modules, outcomes, i);
    var resolved := Names(modules[..i]);
    ResolvedAreNotReported(modules[..i], resolved, DiedDuringImport);
    TheRestIsReported(modules, i);
    assert resolved + resolved == resolved;
  }

  lemma StoppedInside(modules: seq<string>, outcomes: seq<Outcome>, k: nat, i: nat)
    requires |outcomes| == |modules| && k == 2 * i + 1 && i < |modules| && Distinct(modules)
    ensures AttributedAs(Trace(modules, outcomes, k), modules, LoadedFirst(modules, outcomes, i),
                         FailedFirst(modules, outcomes, i) + [LoadFailure(modules[i], DiedDuringImport)]
                         + NeverFrom(modules, i + 1))
  {
    TraceReads(modules, outcomes, i);
    AnnounceStep(modules, outcomes, i, LoadedFirst(modules, outcomes, i), FailedFirst(modules, outcomes, i));
    FirstAreResolved(modules, outcomes, i);
    StartedIsReported(modules, i);
    TheRestIsReported(modules, i + 1);
    assert Names(modules[..i]) + Names(modules[..i + 1]) == Names(modules[..i + 1]);
  }

  /**
   For every point the worker can stop at, over distinct modules: the failures
   are those that raised, with their own summaries, then the one the interpreter
   died in, then those never reached; the rest of those resolved have loaded.
   */
  lemma EveryModuleIsAttributed(modules: seq<string>, outcomes: seq<Outcome>, k: nat)
    requires |outcomes| == |modules| && k <= 2 * |modules| && Distinct(modules)
    ensures AttributedAs(Trace(modules, outcomes, k), modules, LoadedFirst(modules, outcomes, k / 2),
                         FailedFirst(modules, outcomes, k / 2) + DiedAt(modules, k) + NeverFrom(modules, (k + 1) / 2))
  {
    var i := k / 2;
    if k % 2 == 0 {
      assert (k + 1) / 2 == i && DiedAt(modules, k) == [];
      StoppedBetween(modules, outcomes, k, i);
    } else {
      assert (k + 1) / 2 == i + 1 && DiedAt(modules, k) == [LoadFailure(modules[i], DiedDuringImport)];
      StoppedInside(modules, outcomes, k, i);
    }
  }

  lemma Parts(modules: seq<string>, k: nat)
    requires k <= 2 * |modules|
    ensures |DiedAt(modules, k)| + |modules| - (k + 1) / 2 == |modules| - k / 2
    ensures Names(modules[..k / 2]) + NamesOf(DiedAt(modules, k)) + Names(modules[(k + 1) / 2..]) == Names(modules)
  {
    var i, j := k / 2, (k + 1) / 2;
    if k % 2 == 0 {
      assert modules == modules[..i] + modules[i..];
    } else {
      NamesSnoc([], LoadFailure(modules[i], DiedDuringImport));
      assert [] + [LoadFailure(modules[i], DiedDuringImport)] == DiedAt(modules, k);
      assert modules == modules[..i] + [modules[i]] + modules[j..];
    }
  }

  /** Loaded and failed modules together are the attempted ones, none of them twice. */
  lemma TheCountsAddUp(modules: seq<string>, outcomes: seq<Outcome>, k: nat)
    requires |outcomes| == |modules| && k <= 2 * |modules| && Distinct(modules)
    ensures var events := Trace(modules, outcomes, k);
            var failures := FailuresOf(events, modules);
            && |LoadedIn(events)| + |failures| == |modules|
            && LoadedIn(events) + NamesOf(failures) == Names(modules)
  {
    var i, j := k / 2, (k + 1) / 2;
    EveryModuleIsAttributed(modules, outcomes, k);
    FirstAreResolved(modules, outcomes, i);
    FirstAreCounted(modules, outcomes, i);
    NeverNames(modules, j);
    Parts(modules, k);
    NamesJoin(FailedFirst(modules, outcomes, i), DiedAt(modules, k));
    NamesJoin(FailedFirst(modules, outcomes, i) + DiedAt(modules, k), NeverFrom(modules, j));
  }

  lemma {:induction false} NamesJoin(a: seq<LoadFailure>, b: seq<LoadFailure>)
    ensures NamesOf(a + b) == NamesOf(a) + NamesOf(b)
    decreases |b|
  {
    if b == [] {
      assert a + b == a;
    } else {
      var init, last := b[..|b| - 1], b[|b| - 1];
      NamesJoin(a, init);
      assert a + b == (a + init) + [last] && b == init + [last];
      NamesSnoc(a + init, last);
      NamesSnoc(init, last);
    }
  }

  // ---- From text ----

  /** Module names hold neither tabs nor line boundaries. */
  predicate PlainNames(modules: seq<string>) {
    forall i | 0 <= i < |modules| :: TAB !in modules[i] && OneLine(modules[i])
  }

  predicate PlainDetails(events: seq<Event>) {
    forall i | 0 <= i < |events| :: OneLine(events[i].detail)
  }

  /** Status and name are single fields of a single line. */
  predicate PlainHead(e: Event) {
    TAB !in e.status && TAB !in e.name && OneLine(e.status) && OneLine(e.name)
  }

  lemma TextIsOneLine(e: Event)
    requires PlainHead(e) && OneLine(e.detail)
    ensures OneLine(Text(e))
  {
  }

  lemma {:induction false} EventsArePlain(modules: seq<string>, outcomes: seq<Outcome>, k: nat)
    requires |outcomes| == |modules| && k <= 2 * |modules| && PlainNames(modules)
    ensures forall e | e in Trace(modules, outcomes, k) :: PlainHead(e)
  {
    if k > 0 {
      EventsArePlain(modules, outcomes, k - 1);
      EventIsPlain(modules[(k - 1) / 2], outcomes[(k - 1) / 2]);
    }
  }

  lemma EventIsPlain(name: string, outcome: Outcome)
    requires TAB !in name && OneLine(name)
    ensures PlainHead(Announced(name)) && PlainHead(Concluded(name, outcome))
  {
  }

  lemma {:induction false} TextsAreLines(events: seq<Event>)
    requires (forall e | e in events :: PlainHead(e)) && PlainDetails(events)
    ensures forall line | line in Texts(events) :: OneLine(line)
    decreases |events|
  {
    if events != [] {
      var init, last := events[..|events| - 1], events[|events| - 1];
      assert events == init + [last];
      TextsAreLines(init);
      TextIsOneLine(last);
    }
  }

  lemma ReadBackExactlyWhen(events: seq<Event>)
    requires forall e | e in events :: PlainHead(e)
    ensures ParseLines(SplitLines(Render(Texts(events)))) == events <==> PlainDetails(events)
  {
    if PlainDetails(events) {
      TextsAreLines(events);
      CleanLinesComeBack(Texts(events));
      TextsRoundTrip(events);
    }
    SplitLinesAreLines(Render(Texts(events)));
    ParsedDetailsArePlain(SplitLines(Render(Texts(events))));
  }

  lemma {:induction false} ParsedDetailsArePlain(lines: seq<string>)
    requires forall line | line in lines :: OneLine(line)
    ensures PlainDetails(ParseLines(lines))
    decreases |lines|
  {
    if lines != [] {
      var init, last := lines[..|lines| - 1], lines[|lines| - 1];
      assert lines == init + [last];
      ParsedDetailsArePlain(init);
      DetailIsPartOfItsLine(last);
    }
  }

  lemma DetailIsPartOfItsLine(line: string)
    requires OneLine(line)
    ensures OneLine(ParseLine(line).detail)
  {
    var (_, rest) := Partition(line);
    assert OneLine(rest);
  }

  /**
   The parser recovers exactly what the worker wrote before it stopped if and
   only if no reported summary holds a line boundary other than the newlines
   that were flattened out of it.
   */
  lemma TheTraceIsReadBackExactlyWhen(modules: seq<string>, outcomes: seq<Outcome>, k: nat)
    requires |outcomes| == |modules| && k <= 2 * |modules| && PlainNames(modules)
    ensures var events := Trace(modules, outcomes, k);
            ParseLines(SplitLines(Render(Texts(events)))) == events <==> PlainDetails(events)
  {
    EventsArePlain(modules, outcomes, k);
    ReadBackExactlyWhen(Trace(modules, outcomes, k));
  }

  /**
   From what is left of the worker's output to the verdict: over distinct modules
   and summaries without line boundaries, wherever the worker stopped, the parser
   attributes every module correctly.
   */
  lemma OutputIsAttributed(modules: seq<string>, outcomes: seq<Outcome>, k: nat)
    requires |outcomes| == |modules| && k <= 2 * |modules| && Distinct(modules) && PlainNames(modules)
    requires PlainDetails(Trace(modules, outcomes, k))
    ensures var stdout := Render(Texts(Trace(modules, outcomes, k)));
            AttributedAs(ParseLines(SplitLines(stdout)), modules, LoadedFirst(modules, outcomes, k / 2),
                         FailedFirst(modules, outcomes, k / 2) + DiedAt(modules, k) + NeverFrom(modules, (k + 1) / 2))
  {
    TheTraceIsReadBackExactlyWhen(modules, outcomes, k);
    EveryModuleIsAttributed(modules, outcomes, k);
  }

  lemma {:induction false} NothingToFlatten(detail: string)
    requires '\n' !in detail
    ensures Flattened(detail) == detail
    decreases |detail|
  {
    if detail != "" {
      NothingToFlatten(detail[1..]);
    }
  }

  /**
   Otherwise a summary can forge a line: after a carriage return, whatever event
   it spells out is read as the worker's own, say that some module loaded.
   */
  lemma ACarriageReturnForgesALine(name: string, summary: string, forged: Event)
    requires TAB !in name && OneLine(name) && OneLine(summary)
    requires OneLine(Text(forged)) && TAB !in forged.status && TAB !in forged.name
    ensures var raised := Raises(summary + "\r" + Text(forged));
            ParseLines(SplitLines(Render([Text(Concluded(name, raised))]))) == [Event("fail", name, summary), forged]
  {
    var told := Event("fail", name, summary);
    RaisedText(name, summary, Text(forged));
    EventIsPlain(name, Raises(""));
    TextIsOneLine(told);
    TwoLinesOfOne(Text(told), Text(forged));
    LineRoundTrip(told);
    LineRoundTrip(forged);
    TwoParsed(Text(told), Text(forged));
  }

  lemma RaisedText(name: string, summary: string, rest: string)
    requires OneLine(summary) && OneLine(rest)
    ensures Text(Concluded(name, Raises(summary + "\r" + rest))) == Text(Event("fail", name, summary)) + "\r" + rest
  {
    NothingToFlatten(summary + "\r" + rest);
  }

  lemma TwoParsed(a: string, b: string)
    ensures ParseLines([a, b]) == [ParseLine(a), ParseLine(b)]
  {
    assert [a, b][..1] == [a] && [a][..0] == [];
  }

  lemma TwoLinesOfOne(a: string, b: string)
    requires OneLine(a) && OneLine(b) && b != ""
    ensures SplitLines(Render([a + "\r" + b])) == [a, b]
  {
    assert Render([a + "\r" + b]) == a + ['\r'] + (b + ['\n'] + "");
    SplitAt(b, '\n', "");
    SplitAt(a, '\r', b + ['\n'] + "");
  }
}
