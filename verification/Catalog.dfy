/**
 The served agent-tool catalog: reading it from the engine's payload and writing
 it back, resolving a call's command, and the proposal fields the dispatcher owns.
 */
module Catalog {
  import opened Basics
  import opened Json
  import Journal

  const SCHEMA_VERSION := "authoring.semantic_tools.v1"

  datatype AgentTool = AgentTool(
    name: string,
    description: string,
    inputSchema: map<string, Value>,
    riskTier: string,
    permission: string,
    idempotencyRequired: bool,
    commands: seq<string>)

  datatype Snapshot = Snapshot(schemaVersion: string, tools: seq<AgentTool>)

  datatype ParseError = SchemaMismatch | NoToolsList | EntryNotObject | MissingName

  datatype Parsed<+T> = Ok(value: T) | Err(error: ParseError) {
    predicate IsFailure() { Err? }

    function PropagateFailure<U>(): Parsed<U>
      requires Err?
    {
      Err(error)
    }

    function Extract(): T
      requires Ok?
    {
      value
    }
  }

  type Payload = map<string, Value>

  // ---- Reading a payload ----

  /** `str(value)`; the text of anything but a string is the interpreter's own, `show`. */
  function Text(value: Value, show: Value -> string): string {
    if value.Str? then value.s else show(value)
  }

  function TextField(entry: Payload, field: string, show: Value -> string): string {
    if field in entry then Text(entry[field], show) else ""
  }

  /** Python truth of a JSON value; a number is false when no digit of its mantissa is above zero. */
  predicate Truthy(value: Value) {
    match value
    case Null => false
    case Bool(b) => b
    case Number(literal) => !IsZero(literal)
    case Str(s) => s != ""
    case Arr(items) => items != []
    case Obj(fields) => fields != map[]
  }

  predicate IsZero(literal: string) {
    literal == "" || literal[0] in "eE" || (literal[0] in "-0." && IsZero(literal[1..]))
  }

  function Texts(items: seq<Value>, show: Value -> string): seq<string> {
    seq(|items|, i requires 0 <= i < |items| => Text(items[i], show))
  }

  function ParseTool(entry: Value, show: Value -> string): Parsed<AgentTool> {
    if !entry.Obj? then Err(EntryNotObject)
    else
      var fields := entry.fields;
      if "name" !in fields || !fields["name"].Str? || fields["name"].s == "" then Err(MissingName)
      else
        Ok(AgentTool(
             fields["name"].s,
             TextField(fields, "description", show),
             if "input_schema" in fields && fields["input_schema"].Obj? then fields["input_schema"].fields else map[],
             TextField(fields, "risk_tier", show),
             TextField(fields, "permission_requirement", show),
             "idempotency_required" in fields && Truthy(fields["idempotency_required"]),
             if "commands" in fields && fields["commands"].Arr? then Texts(fields["commands"].items, show) else []))
  }

  /** Every entry, or the first failure. */
  function ParseTools(entries: seq<Value>, show: Value -> string): Parsed<seq<AgentTool>> {
    if entries == [] then Ok([])
    else
      var last := |entries| - 1;
      var tools :- ParseTools(entries[..last], show);
      var tool :- ParseTool(entries[last], show);
      Ok(tools + [tool])
  }

  function Parse(data: Payload, show: Value -> string): Parsed<Snapshot> {
    if "schema_version" !in data || data["schema_version"] != Str(SCHEMA_VERSION) then Err(SchemaMismatch)
    else if "tools" !in data || !data["tools"].Arr? then Err(NoToolsList)
    else
      var tools :- ParseTools(data["tools"].items, show);
      Ok(Snapshot(SCHEMA_VERSION, tools))
  }

  lemma ParseOneMore(entries: seq<Value>, entry: Value, show: Value -> string)
    requires ParseTools(entries, show).Ok? && ParseTool(entry, show).Ok?
    ensures ParseTools(entries + [entry], show)
         == Ok(ParseTools(entries, show).value + [ParseTool(entry, show).value])
  {
    var more := entries + [entry];
    assert more[..|more| - 1] == entries && more[|more| - 1] == entry;
  }

  /** The first failure is final, whatever entries follow it. */
  lemma {:induction false} FailureIsFinal(entries: seq<Value>, n: nat, show: Value -> string)
    requires n <= |entries| && ParseTools(entries[..n], show).Err?
    ensures ParseTools(entries, show) == ParseTools(entries[..n], show)
  {
    if n == |entries| {
      assert entries[..n] == entries;
    } else {
      var shorter := entries[..|entries| - 1];
      assert shorter[..n] == entries[..n];
      FailureIsFinal(shorter, n, show);
    }
  }

  /** The validating loop of `parse_catalog`. */
  method ParseCatalog(data: Payload, show: Value -> string) returns (parsed: Parsed<Snapshot>)
    ensures parsed == Parse(data, show)
  {
    if "schema_version" !in data || data["schema_version"] != Str(SCHEMA_VERSION) { return Err(SchemaMismatch); }
    if "tools" !in data || !data["tools"].Arr? { return Err(NoToolsList); }
    var entries := data["tools"].items;
    var tools: seq<AgentTool> := [];
    for i := 0 to |entries|
      invariant ParseTools(entries[..i], show) == Ok(tools)
    {
      assert entries[..i + 1][..i] == entries[..i];
      if ParseTool(entries[i], show).Err? {
        FailureIsFinal(entries, i + 1, show);
      }
      var tool :- ParseTool(entries[i], show);
      tools := tools + [tool];
    }
    assert entries[..|entries|] == entries;
    return Ok(Snapshot(SCHEMA_VERSION, tools));
  }

  // ---- Writing it back ----

  function PrintTool(tool: AgentTool): Value {
    Obj(map["name" := Str(tool.name),
            "description" := Str(tool.description),
            "input_schema" := Obj(tool.inputSchema),
            "risk_tier" := Str(tool.riskTier),
            "permission_requirement" := Str(tool.permission),
            "idempotency_required" := Bool(tool.idempotencyRequired),
            "commands" := Arr(seq(|tool.commands|, i requires 0 <= i < |tool.commands| => Str(tool.commands[i])))])
  }

  function PrintTools(tools: seq<AgentTool>): seq<Value> {
    if tools == [] then [] else PrintTools(tools[..|tools| - 1]) + [PrintTool(tools[|tools| - 1])]
  }

  function Print(snapshot: Snapshot): Payload {
    map["schema_version" := Str(snapshot.schemaVersion), "tools" := Arr(PrintTools(snapshot.tools))]
  }

  lemma ToolRoundTrip(tool: AgentTool, show: Value -> string)
    ensures ParseTool(PrintTool(tool), show) == if tool.name == "" then Err(MissingName) else Ok(tool)
  {
    var fields := PrintTool(tool).fields;
    assert Texts(fields["commands"].items, show) == tool.commands;
  }

  lemma {:induction false} ToolsRoundTrip(tools: seq<AgentTool>, show: Value -> string)
    requires forall t | t in tools :: t.name != ""
    ensures ParseTools(PrintTools(tools), show) == Ok(tools)
  {
    if tools != [] {
      var init, last := tools[..|tools| - 1], tools[|tools| - 1];
      assert tools == init + [last] && last.name != "";
      ToolsRoundTrip(init, show);
      RoundTripOneMore(init, last, show);
    }
  }

  lemma PrintOneMore(tools: seq<AgentTool>, tool: AgentTool)
    ensures PrintTools(tools + [tool]) == PrintTools(tools) + [PrintTool(tool)]
  {
    assert (tools + [tool])[..|tools|] == tools;
  }

  lemma RoundTripOneMore(tools: seq<AgentTool>, tool: AgentTool, show: Value -> string)
    requires ParseTools(PrintTools(tools), show) == Ok(tools) && tool.name != ""
    ensures ParseTools(PrintTools(tools + [tool]), show) == Ok(tools + [tool])
  {
    ToolRoundTrip(tool, show);
    PrintOneMore(tools, tool);
    ParseOneMore(PrintTools(tools), PrintTool(tool), show);
  }

  /** The printed payload reads back as the same snapshot exactly when every tool has a name and the version is current. */
  lemma PrintThenParse(snapshot: Snapshot, show: Value -> string)
    ensures Parse(Print(snapshot), show) == Ok(snapshot)
            <==> snapshot.schemaVersion == SCHEMA_VERSION && forall t | t in snapshot.tools :: t.name != ""
  {
    assert Print(snapshot)["tools"].items == PrintTools(snapshot.tools);
    if snapshot.schemaVersion == SCHEMA_VERSION {
      if forall t | t in snapshot.tools :: t.name != "" {
        ToolsRoundTrip(snapshot.tools, show);
      } else if Parse(Print(snapshot), show).Ok? {
        ParsedToolsAreNamed(PrintTools(snapshot.tools), show);
      }
    }
  }

  lemma {:induction false} ParsedToolsAreNamed(entries: seq<Value>, show: Value -> string)
    requires ParseTools(entries, show).Ok?
    ensures forall t | t in ParseTools(entries, show).value :: t.name != ""
  {
    if entries != [] {
      ParsedToolsAreNamed(entries[..|entries| - 1], show);
    }
  }

  /** Whatever payload parses, printing and parsing again changes nothing. */
  lemma ParsePrintParse(data: Payload, show: Value -> string)
    requires Parse(data, show).Ok?
    ensures Parse(Print(Parse(data, show).value), show) == Parse(data, show)
  {
    ParsedToolsAreNamed(data["tools"].items, show);
    PrintThenParse(Parse(data, show).value, show);
  }

  // ---- Resolving the command ----

  predicate OccursAt(text: string, part: string, i: int) {
    0 <= i <= |text| - |part| && text[i..i + |part|] == part
  }

  predicate Contains(text: string, part: string) {
    exists i | 0 <= i <= |text| - |part| :: OccursAt(text, part, i)
  }

  /** `arguments.get("operation") or arguments.get("target")`, where that is a string. */
  function Discriminator(arguments: Payload): Option<string> {
    var chosen := if "operation" in arguments && Truthy(arguments["operation"]) then arguments["operation"]
                  else if "target" in arguments then arguments["target"] else Null;
    if chosen.Str? then Some(chosen.s) else None
  }

  /**
   The first declared command the discriminator occurs in; the only or the first
   command, or the tool's own name, where nothing discriminates.
   */
  method ResolveCommand(tool: AgentTool, arguments: Payload) returns (command: string)
    ensures tool.commands == [] ==> command == tool.name
    ensures tool.commands != [] ==> command in tool.commands
    ensures |tool.commands| > 1 ==>
              var d := Discriminator(arguments);
              if d.Some? && exists c | c in tool.commands :: Contains(c, d.value)
              then exists k | 0 <= k < |tool.commands| ::
                     command == tool.commands[k] && Contains(command, d.value)
                     && forall j | 0 <= j < k :: !Contains(tool.commands[j], d.value)
              else command == tool.commands[0]
  {
    if |tool.commands| == 1 { return tool.commands[0]; }
    if tool.commands == [] { return tool.name; }
    var d := Discriminator(arguments);
    if d.Some? {
      for k := 0 to |tool.commands|
        invariant forall j | 0 <= j < k :: !Contains(tool.commands[j], d.value)
      {
        if Contains(tool.commands[k], d.value) { return tool.commands[k]; }
      }
    }
    return tool.commands[0];
  }

  // ---- The fields the dispatcher owns ----

  function OwnedFields(command: string): seq<string> {
    if command == "create_proposal" then ["session_id", "changeset_id"]
    else if IsDraftCommand(command) then ["changeset_id", "expected_revision", "session_id"]
    else if command == "request_apply" then ["changeset_id", "approval_id"]
    else []
  }

  predicate IsDraftCommand(command: string) {
    command in ["append_draft", "replace_draft", "validate_proposal", "submit_for_review", "cancel_proposal"]
  }

  /** Strip the field, then set the owned value unless it is not known yet. */
  function WithField(arguments: Payload, field: string, value: Option<string>): Payload {
    if value.None? then arguments - {field} else arguments[field := Str(value.value)]
  }

  function AsValue(value: Option<string>): Value {
    if value.Some? then Str(value.value) else Null
  }

  function Known(fields: Journal.Refs): Journal.Refs {
    fields - (set f | f in fields && fields[f].None?)
  }

  /** Every owned field of `fields` overwritten, and no other field touched. */
  ghost function Inject(arguments: Payload, fields: Journal.Refs): Payload {
    (arguments - fields.Keys) + Mapped(Known(fields), AsValue)
  }

  /** `_inject_owned_fields`: one field at a time, in whatever order they come. */
  method InjectOwnedFields(arguments: Payload, order: seq<string>, fields: Journal.Refs) returns (injected: Payload)
    requires forall f :: f in order <==> f in fields
    ensures injected == Inject(arguments, fields)
  {
    injected := arguments;
    for i := 0 to |order|
      invariant injected == Inject(arguments, Only(fields, order[..i]))
    {
      var f := order[i];
      injected := WithField(injected, f, fields[f]);
      InjectOneMore(arguments, fields, order, i);
    }
    assert order[..|order|] == order;
    assert Only(fields, order) == fields;
  }

  function Only(fields: Journal.Refs, names: seq<string>): Journal.Refs {
    fields - (set f | f in fields && f !in names)
  }

  lemma InjectOneMore(arguments: Payload, fields: Journal.Refs, order: seq<string>, i: nat)
    requires i < |order| && order[i] in fields
    ensures WithField(Inject(arguments, Only(fields, order[..i])), order[i], fields[order[i]])
         == Inject(arguments, Only(fields, order[..i + 1]))
  {
    var before, after := Only(fields, order[..i]), Only(fields, order[..i + 1]);
    assert order[..i + 1] == order[..i] + [order[i]];
    var one, all := WithField(Inject(arguments, before), order[i], fields[order[i]]), Inject(arguments, after);
    forall f ensures (f in one <==> f in all) && (f in one ==> one[f] == all[f]) {
      InjectAt(arguments, before, f);
      InjectAt(arguments, after, f);
    }
  }

  lemma InjectAt(arguments: Payload, fields: Journal.Refs, f: string)
    ensures var injected := Inject(arguments, fields);
            && (f in injected <==> if f in fields then fields[f].Some? else f in arguments)
            && (f in injected ==> injected[f] == if f in fields then Str(fields[f].value) else arguments[f])
  {
  }

  function Ref(refs: Journal.Refs, name: string): Option<string> {
    if name in refs then refs[name] else None
  }

  /** The references after a `create_proposal` has made sure there is a changeset id. */
  function WithChangeset(command: string, refs: Journal.Refs, minted: string): Journal.Refs {
    if command == "create_proposal" && Ref(refs, "changeset_id").None? then refs["changeset_id" := Some(minted)]
    else refs
  }

  /** What `_apply_injection` sets for each command, from the run's session and references. */
  function InjectedFields(command: string, session: string, refs: Journal.Refs): Journal.Refs {
    if command == "create_proposal" then
      map["session_id" := Some(session), "changeset_id" := Ref(refs, "changeset_id")]
    else if IsDraftCommand(command) then
      map["changeset_id" := Ref(refs, "changeset_id"), "expected_revision" := Ref(refs, "revision"),
          "session_id" := None]
    else if command == "request_apply" then
      map["changeset_id" := Ref(refs, "changeset_id"), "approval_id" := Ref(refs, "approval_id")]
    else map[]
  }

  /** `{field: arguments.get(field)}` over the command's owned fields. */
  function OwnedOf(command: string, arguments: Payload): Journal.Refs {
    TextsOf(OwnedFields(command), arguments)
  }

  function TextsOf(names: seq<string>, arguments: Payload): (texts: Journal.Refs)
    ensures forall f :: f in texts <==> f in names
    ensures forall f | f in names :: texts[f] == TextOf(arguments, f)
  {
    if names == [] then map[]
    else TextsOf(names[1..], arguments)[names[0] := TextOf(arguments, names[0])]
  }

  function TextOf(arguments: Payload, name: string): Option<string> {
    if name in arguments && arguments[name].Str? then Some(arguments[name].s) else None
  }

  /** The two tables of a command name the same fields: what is injected is exactly what is retained. */
  lemma TablesAgree(command: string, session: string, refs: Journal.Refs)
    ensures forall f :: f in InjectedFields(command, session, refs) <==> f in OwnedFields(command)
  {
  }

  /** Reading the owned fields back from injected arguments gives what was injected. */
  lemma OwnedFieldsAreWhatWasInjected(command: string, arguments: Payload, session: string, refs: Journal.Refs)
    ensures OwnedOf(command, Inject(arguments, InjectedFields(command, session, refs)))
         == InjectedFields(command, session, refs)
  {
    TablesAgree(command, session, refs);
    var fields := InjectedFields(command, session, refs);
    var owned := OwnedOf(command, Inject(arguments, fields));
    assert owned.Keys == fields.Keys;
    forall f | f in owned ensures owned[f] == fields[f] {
      assert f in fields;
    }
  }

  /**
   The first delivery injects into arguments that were already injected while
   building; a retry injects the retained fields into the caller's own.  Both
   send the same input.
   */
  lemma RetryInputEqualsFirstInput(command: string, arguments: Payload, session: string, refs: Journal.Refs)
    ensures var built := Inject(arguments, InjectedFields(command, session, refs));
            var owned := OwnedOf(command, built);
            Inject(built, owned) == Inject(arguments, owned) == built
  {
    OwnedFieldsAreWhatWasInjected(command, arguments, session, refs);
  }

  /** No owned field of the input comes from the caller: arguments that differ only there give one input. */
  lemma CallerCannotSupplyOwnedFields(command: string, owned: Journal.Refs, arguments: Payload, forged: Payload)
    requires forall f :: f in owned <==> f in OwnedFields(command)
    requires forall f | f !in OwnedFields(command) ::
               (f in arguments <==> f in forged) && (f in arguments ==> arguments[f] == forged[f])
    ensures Inject(arguments, owned) == Inject(forged, owned)
    ensures forall f | f in OwnedFields(command) ::
              if owned[f].Some? then f in Inject(forged, owned) && Inject(forged, owned)[f] == Str(owned[f].value)
              else f !in Inject(forged, owned)
  {
    assert Inject(arguments, owned).Keys == Inject(forged, owned).Keys;
  }
}
