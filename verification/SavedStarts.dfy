/** The saved Work start: what is written before the first request, and what is read back after a reload. */
module SavedStarts {
  import opened Text
  import opened Json
  import opened SavedRecords

  datatype Input = Input(
    taskId: Units, route: Units, sources: seq<Units>, consent: bool,
    instruction: Option<Units>, threadId: Option<Units>, fault: bool)

  datatype Pending = Pending(commandId: Units, projectId: Units, taskId: Units, input: Input)

  datatype Failure = Invalid

  // --- names and constants ------------------------------------------------------------------------

  const TASK_ID: Units := Ascii("taskId")
  const ROUTE: Units := Ascii("route")
  const SOURCES: Units := Ascii("sources")
  const CONSENT: Units := Ascii("consent")
  const INSTRUCTION: Units := Ascii("instruction")
  const THREAD_ID: Units := Ascii("threadId")
  const DEMO: Units := Ascii("demo")
  const FAULT: Units := Ascii("fault")
  const COMMAND_ID: Units := Ascii("commandId")
  const PROJECT_ID: Units := Ascii("projectId")
  const INPUT: Units := Ascii("input")

  const ROUTES: seq<string> := [
    "sample", "codex", "claude-code", "opencode", "oh-my-pi", "cursor", "devin",
    "aws-bedrock", "azure-openai", "openrouter", "google-vertex", "nectovia", "bonsai"]

  const INPUT_NAMES: set<Units> := {TASK_ID, ROUTE, SOURCES, CONSENT, INSTRUCTION, THREAD_ID, DEMO}
  const PENDING_NAMES: set<Units> := {COMMAND_ID, PROJECT_ID, TASK_ID, INPUT}

  const MAX_RECORD: nat := 160_000

  predicate IsRoute(s: Units) {
    exists i :: 0 <= i < |ROUTES| && Spells(s, ROUTES[i])
  }

  // --- the record as JSON -----------------------------------------------------------------------------

  function Optional(name: Units, v: Option<Units>): seq<Field> {
    if v.Some? then [Field(name, String(v.value))] else []
  }

  function SourceValues(sources: seq<Units>): (r: seq<Value>)
    ensures |r| == |sources| && forall i :: 0 <= i < |r| ==> r[i] == String(sources[i])
  {
    seq(|sources|, i requires 0 <= i < |sources| => String(sources[i]))
  }

  function Required(i: Input): seq<Field> {
    [Field(TASK_ID, String(i.taskId)), Field(ROUTE, String(i.route)),
     Field(SOURCES, Array(SourceValues(i.sources))), Field(CONSENT, Bool(i.consent))]
  }

  function InputFields(i: Input): seq<Field> {
    Required(i) + Optional(INSTRUCTION, i.instruction) + Optional(THREAD_ID, i.threadId)
    + Optional(DEMO, if i.fault then Some(FAULT) else None)
  }

  function PendingFields(p: Pending): seq<Field> {
    [Field(COMMAND_ID, String(p.commandId)), Field(PROJECT_ID, String(p.projectId)),
     Field(TASK_ID, String(p.taskId)), Field(INPUT, Object(InputFields(p.input)))]
  }

  /** What is written to session storage. */
  function Saved(p: Pending): Units {
    Print(Object(PendingFields(p)))
  }

  // --- reading ---------------------------------------------------------------------------------------

  function ReadSources(items: seq<Value>): Option<seq<Units>> {
    if items == [] then Some([])
    else if !TextOf(Some(items[0]), 1000) then None
    else
      match ReadSources(items[1..])
      case None => None
      case Some(rest) => Some([items[0].s] + rest)
  }

  /** An optional text: absent, or present and trimmed; anything else is refused. */
  function ReadOptional(v: Option<Value>, max: nat): Result<Option<Units>, Failure> {
    if v.None? then Ok(None)
    else if !TextOf(v, max) then Err(Invalid)
    else Ok(Some(Trimmed(v.value.s)))
  }

  /** One validator for caller input and for browser-stored input. */
  function Normalize(v: Value): Result<Input, Failure> {
    if !v.Object? || !OnlyNames(v.fields, INPUT_NAMES) then Err(Invalid)
    else
      var taskId, route := Lookup(v.fields, TASK_ID), Lookup(v.fields, ROUTE);
      var sources, consent := Lookup(v.fields, SOURCES), Lookup(v.fields, CONSENT);
      var demo := Lookup(v.fields, DEMO);
      if !TextOf(taskId, 100) || route.None? || !route.value.String? || !IsRoute(route.value.s)
         || sources.None? || !sources.value.Array? || |sources.value.items| > 8
         || consent.None? || !consent.value.Bool?
      then Err(Invalid)
      else
        var paths := ReadSources(sources.value.items);
        var instruction := ReadOptional(Lookup(v.fields, INSTRUCTION), 16_000);
        var threadId := ReadOptional(Lookup(v.fields, THREAD_ID), 100);
        if paths.None? || instruction.Err? || threadId.Err? || (demo.Some? && demo.value != String(FAULT)) then Err(Invalid)
        else Ok(Input(Trimmed(taskId.value.s), route.value.s, paths.value, consent.value.b, instruction.value, threadId.value, demo.Some?))
  }

  /** The pending start saved for this task: none, a valid record, or a damaged one. */
  function ReadPending(raw: Option<Units>, projectId: Units, taskId: Units): Result<Option<Pending>, Failure> {
    if raw.None? then Ok(None)
    else if |raw.value| > MAX_RECORD then Err(Invalid)
    else
      match Parse(raw.value)
      case None => Err(Invalid)
      case Some(v) =>
        if !v.Object? || !OnlyNames(v.fields, PENDING_NAMES) then Err(Invalid)
        else
          var commandId, input := Lookup(v.fields, COMMAND_ID), Lookup(v.fields, INPUT);
          if commandId.None? || !commandId.value.String? || !IsCommandId(commandId.value.s)
             || Lookup(v.fields, PROJECT_ID) != Some(String(projectId)) || Lookup(v.fields, TASK_ID) != Some(String(taskId))
             || input.None?
          then Err(Invalid)
          else
            match Normalize(input.value)
            case Err(why) => Err(why)
            case Ok(i) => if i.taskId != taskId then Err(Invalid) else Ok(Some(Pending(commandId.value.s, projectId, taskId, i)))
  }

  // --- what a normalized input satisfies ----------------------------------------------------------------

  predicate FilledAndTrimmed(s: Units, max: nat) {
    Filled(s, max) && Trimmed(s) == s
  }

  /** Exactly the inputs `startWork` can save. */
  predicate Normal(i: Input) {
    && FilledAndTrimmed(i.taskId, 100) && IsRoute(i.route)
    && |i.sources| <= 8 && (forall k :: 0 <= k < |i.sources| ==> Filled(i.sources[k], 1000))
    && (i.instruction.Some? ==> FilledAndTrimmed(i.instruction.value, 16_000))
    && (i.threadId.Some? ==> FilledAndTrimmed(i.threadId.value, 100))
  }

  predicate ValidPending(p: Pending) {
    && IsCommandId(p.commandId) && Filled(p.projectId, 100) && Normal(p.input) && p.taskId == p.input.taskId
  }

  lemma {:induction false} SourcesFilled(items: seq<Value>)
    ensures ReadSources(items).Some? ==>
              |ReadSources(items).value| == |items|
              && forall k :: 0 <= k < |items| ==> items[k] == String(ReadSources(items).value[k]) && Filled(ReadSources(items).value[k], 1000)
  {
    hide Trimmed;
    if items != [] { SourcesFilled(items[1..]); }
  }

  lemma TextIsNormal(v: Option<Value>, max: nat)
    requires TextOf(v, max)
    ensures v.Some? && v.value.String? && FilledAndTrimmed(Trimmed(v.value.s), max)
  {
    hide Trimmed;
    TrimmedOnce(v.value.s);
  }

  lemma OptionalIsNormal(v: Option<Value>, max: nat)
    ensures ReadOptional(v, max).Ok? && ReadOptional(v, max).value.Some? ==> FilledAndTrimmed(ReadOptional(v, max).value.value, max)
  {
    hide TextOf, FilledAndTrimmed;
    if TextOf(v, max) { TextIsNormal(v, max); }
  }

  /** Whatever the validator lets through is normal. */
  lemma NormalizedIsNormal(v: Value)
    requires Normalize(v).Ok?
    ensures Normal(Normalize(v).value)
  {
    hide TextOf, ReadOptional, FilledAndTrimmed, Filled, IsRoute, Lookup, OnlyNames, ReadSources, Ascii;
    SourcesFilled(Lookup(v.fields, SOURCES).value.items);
    TextIsNormal(Lookup(v.fields, TASK_ID), 100);
    OptionalIsNormal(Lookup(v.fields, INSTRUCTION), 16_000);
    OptionalIsNormal(Lookup(v.fields, THREAD_ID), 100);
  }

  // --- reading back what was saved -----------------------------------------------------------------------

  lemma NamesDiffer()
    ensures TASK_ID != ROUTE && TASK_ID != SOURCES && TASK_ID != CONSENT && TASK_ID != INSTRUCTION && TASK_ID != THREAD_ID && TASK_ID != DEMO
    ensures ROUTE != SOURCES && ROUTE != CONSENT && ROUTE != INSTRUCTION && ROUTE != THREAD_ID && ROUTE != DEMO
    ensures SOURCES != CONSENT && SOURCES != INSTRUCTION && SOURCES != THREAD_ID && SOURCES != DEMO
    ensures CONSENT != INSTRUCTION && CONSENT != THREAD_ID && CONSENT != DEMO
    ensures INSTRUCTION != THREAD_ID && INSTRUCTION != DEMO && THREAD_ID != DEMO
    ensures COMMAND_ID != PROJECT_ID && COMMAND_ID != TASK_ID && COMMAND_ID != INPUT
    ensures PROJECT_ID != TASK_ID && PROJECT_ID != INPUT && TASK_ID != INPUT
  {
    assert SOURCES[0] == 115 && CONSENT[0] == 99;
    assert COMMAND_ID[0] == 99 && PROJECT_ID[0] == 112;
  }

  lemma LookupOptional(a: seq<Field>, added: Units, v: Option<Units>, name: Units)
    ensures Lookup(a + Optional(added, v), name) == if added == name && v.Some? then Some(String(v.value)) else Lookup(a, name)
  {
    if v.Some? {
      LookupLast(a, Field(added, String(v.value)), name);
    } else {
      assert a + Optional(added, v) == a;
    }
  }

  lemma LookupInput(i: Input, name: Units)
    ensures Lookup(InputFields(i), name) ==
              if name == DEMO && i.fault then Some(String(FAULT))
              else if name == THREAD_ID && i.threadId.Some? then Some(String(i.threadId.value))
              else if name == INSTRUCTION && i.instruction.Some? then Some(String(i.instruction.value))
              else Lookup(Required(i), name)
  {
    hide Required, Lookup, Ascii, Optional;
    var a := Required(i) + Optional(INSTRUCTION, i.instruction);
    var b := a + Optional(THREAD_ID, i.threadId);
    LookupOptional(Required(i), INSTRUCTION, i.instruction, name);
    LookupOptional(a, THREAD_ID, i.threadId, name);
    LookupOptional(b, DEMO, if i.fault then Some(FAULT) else None, name);
  }

  lemma {:induction false} SourcesBack(sources: seq<Units>)
    requires forall k :: 0 <= k < |sources| ==> Filled(sources[k], 1000)
    ensures ReadSources(SourceValues(sources)) == Some(sources)
  {
    hide Trimmed;
    if sources != [] {
      SourcesBack(sources[1..]);
      assert SourceValues(sources)[1..] == SourceValues(sources[1..]);
      assert [sources[0]] + sources[1..] == sources;
    }
  }

  lemma InputNames(i: Input)
    ensures OnlyNames(InputFields(i), INPUT_NAMES)
  {
    hide Ascii;
  }

  lemma RequiredBack(i: Input)
    ensures Lookup(Required(i), TASK_ID) == Some(String(i.taskId)) && Lookup(Required(i), ROUTE) == Some(String(i.route))
    ensures Lookup(Required(i), SOURCES) == Some(Array(SourceValues(i.sources))) && Lookup(Required(i), CONSENT) == Some(Bool(i.consent))
    ensures Lookup(Required(i), INSTRUCTION).None? && Lookup(Required(i), THREAD_ID).None? && Lookup(Required(i), DEMO).None?
  {
    hide Lookup, Ascii;
    NamesDiffer();
    var a, b := Field(TASK_ID, String(i.taskId)), Field(ROUTE, String(i.route));
    var c, d := Field(SOURCES, Array(SourceValues(i.sources))), Field(CONSENT, Bool(i.consent));
    LookupFour(a, b, c, d, TASK_ID);
    LookupFour(a, b, c, d, ROUTE);
    LookupFour(a, b, c, d, SOURCES);
    LookupFour(a, b, c, d, CONSENT);
    LookupFour(a, b, c, d, INSTRUCTION);
    LookupFour(a, b, c, d, THREAD_ID);
    LookupFour(a, b, c, d, DEMO);
  }

  /** Normalizing a normal input again changes nothing. */
  lemma NormalizedBack(i: Input)
    requires Normal(i)
    ensures Normalize(Object(InputFields(i))) == Ok(i)
  {
    hide Lookup, Ascii, InputFields, Required, Trimmed, IsRoute, OnlyNames, ReadSources;
    NamesDiffer();
    InputNames(i);
    RequiredBack(i);
    SourcesBack(i.sources);
    LookupInput(i, TASK_ID);
    LookupInput(i, ROUTE);
    LookupInput(i, SOURCES);
    LookupInput(i, CONSENT);
    LookupInput(i, INSTRUCTION);
    LookupInput(i, THREAD_ID);
    LookupInput(i, DEMO);
  }

  lemma PendingBack(p: Pending)
    ensures OnlyNames(PendingFields(p), PENDING_NAMES)
    ensures Lookup(PendingFields(p), COMMAND_ID) == Some(String(p.commandId))
    ensures Lookup(PendingFields(p), PROJECT_ID) == Some(String(p.projectId))
    ensures Lookup(PendingFields(p), TASK_ID) == Some(String(p.taskId))
    ensures Lookup(PendingFields(p), INPUT) == Some(Object(InputFields(p.input)))
  {
    hide Lookup, Ascii, InputFields;
    NamesDiffer();
    var a, b := Field(COMMAND_ID, String(p.commandId)), Field(PROJECT_ID, String(p.projectId));
    var c, d := Field(TASK_ID, String(p.taskId)), Field(INPUT, Object(InputFields(p.input)));
    LookupFour(a, b, c, d, COMMAND_ID);
    LookupFour(a, b, c, d, PROJECT_ID);
    LookupFour(a, b, c, d, TASK_ID);
    LookupFour(a, b, c, d, INPUT);
  }

  // --- how long the record can be -------------------------------------------------------------------------

  lemma OptionalLength(name: Units, v: Option<Units>, max: nat)
    requires v.Some? ==> |v.value| <= max
    ensures Total(Optional(name, v)) <= 6 * |name| + 6 * max + 6
  {
    hide PrintField, Total;
    if v.Some? {
      StringField(name, v.value);
      TotalOne(Field(name, String(v.value)));
    } else {
      NoneTotal();
    }
  }

  lemma NoneTotal()
    ensures Total([]) == 0
  {
  }

  lemma SourcesLength(sources: seq<Units>)
    requires |sources| <= 8 && forall k :: 0 <= k < |sources| ==> |sources[k]| <= 1000
    ensures |PrintField(Field(SOURCES, Array(SourceValues(sources))))| <= 48_100
  {
    hide Escape, PrintItems;
    forall i | 0 <= i < |sources| ensures |Print(SourceValues(sources)[i])| <= 6002 {
      EscapeLength(sources[i]);
    }
    ItemsLength(SourceValues(sources), 6002);
    EscapeLength(SOURCES);
    assert |sources| * 6003 <= 8 * 6003;
  }

  lemma RouteLength(route: Units)
    requires IsRoute(route)
    ensures |route| <= 13
  {
  }

  lemma ConsentLength(consent: bool)
    ensures |PrintField(Field(CONSENT, Bool(consent)))| <= 50
  {
    hide Escape;
    EscapeLength(CONSENT);
  }

  lemma RequiredLength(i: Input)
    requires Normal(i)
    ensures Total(Required(i)) <= 49_100
  {
    hide PrintField, Total, Trimmed, IsRoute;
    RouteLength(i.route);
    StringField(TASK_ID, i.taskId);
    StringField(ROUTE, i.route);
    SourcesLength(i.sources);
    ConsentLength(i.consent);
    TotalFour(Field(TASK_ID, String(i.taskId)), Field(ROUTE, String(i.route)),
              Field(SOURCES, Array(SourceValues(i.sources))), Field(CONSENT, Bool(i.consent)));
  }

  lemma InputLength(i: Input)
    requires Normal(i)
    ensures |Print(Object(InputFields(i)))| <= 146_000
  {
    hide PrintFields, Total, Required, Trimmed, IsRoute, Optional, Print;
    RequiredLength(i);
    OptionalLength(INSTRUCTION, i.instruction, 16_000);
    OptionalLength(THREAD_ID, i.threadId, 100);
    OptionalLength(DEMO, if i.fault then Some(FAULT) else None, 5);
    var a := Required(i) + Optional(INSTRUCTION, i.instruction);
    var b := a + Optional(THREAD_ID, i.threadId);
    TotalConcat(Required(i), Optional(INSTRUCTION, i.instruction));
    TotalConcat(a, Optional(THREAD_ID, i.threadId));
    TotalConcat(b, Optional(DEMO, if i.fault then Some(FAULT) else None));
    ObjectLength(InputFields(i));
  }

  /** The saved record of any valid start fits the cap it is read back under. */
  lemma SavedFits(p: Pending)
    requires ValidPending(p)
    ensures |Saved(p)| <= MAX_RECORD
  {
    hide PrintField, Total, InputFields, Print, Trimmed, Normal, PrintFields;
    InputLength(p.input);
    TaskLength(p);
    StringField(COMMAND_ID, p.commandId);
    StringField(PROJECT_ID, p.projectId);
    StringField(TASK_ID, p.taskId);
    ObjectField(INPUT, InputFields(p.input));
    TotalFour(Field(COMMAND_ID, String(p.commandId)), Field(PROJECT_ID, String(p.projectId)),
              Field(TASK_ID, String(p.taskId)), Field(INPUT, Object(InputFields(p.input))));
    ObjectLength(PendingFields(p));
  }

  lemma TaskLength(p: Pending)
    requires ValidPending(p)
    ensures |p.taskId| <= 100
  {
    hide Trimmed, IsRoute;
  }

  /** And it is read back as the same record, command, body and all. */
  lemma SavedReadsBack(p: Pending)
    requires ValidPending(p)
    ensures ReadPending(Some(Saved(p)), p.projectId, p.taskId) == Ok(Some(p))
  {
    hide Lookup, PendingFields, InputFields, Print, Parse, Normalize, Normal, Filled, OnlyNames, IsCommandId, Ascii;
    SavedFits(p);
    DocumentBack(Object(PendingFields(p)));
    PendingBack(p);
    NormalizedBack(p.input);
  }

  // --- what is accepted at all ------------------------------------------------------------------------------

  /** The member is a text of at most `max` units that says something, and trims to `s`. */
  ghost predicate Gives(fields: seq<Field>, name: Units, s: Units, max: nat) {
    exists raw :: Lookup(fields, name) == Some(String(raw)) && Filled(raw, max) && Trimmed(raw) == s
  }

  ghost predicate GivesOptional(fields: seq<Field>, name: Units, v: Option<Units>, max: nat) {
    if v.Some? then Gives(fields, name, v.value, max) else Lookup(fields, name).None?
  }

  /**
   * Input is accepted, as `i`, if and only if it is an object of the known members alone and each gives what `i`
   * has: the identities and the instruction up to outer space, the paths as they are, the rest exactly.
   */
  lemma NormalizedIff(v: Value, i: Input)
    ensures Normalize(v) == Ok(i) <==>
              && v.Object? && OnlyNames(v.fields, INPUT_NAMES)
              && Gives(v.fields, TASK_ID, i.taskId, 100)
              && Lookup(v.fields, ROUTE) == Some(String(i.route)) && IsRoute(i.route)
              && Lookup(v.fields, SOURCES) == Some(Array(SourceValues(i.sources)))
              && |i.sources| <= 8 && (forall k :: 0 <= k < |i.sources| ==> Filled(i.sources[k], 1000))
              && Lookup(v.fields, CONSENT) == Some(Bool(i.consent))
              && GivesOptional(v.fields, INSTRUCTION, i.instruction, 16_000)
              && GivesOptional(v.fields, THREAD_ID, i.threadId, 100)
              && Lookup(v.fields, DEMO) == (if i.fault then Some(String(FAULT)) else None)
  {
    hide OnlyNames, Lookup, IsRoute, Trimmed, ReadSources, Ascii;
    if v.Object? {
      var sources := Lookup(v.fields, SOURCES);
      if sources.Some? && sources.value.Array? {
        SourcesFilled(sources.value.items);
        if ReadSources(sources.value.items).Some? { SourcesAre(sources.value.items); }
      }
      if |i.sources| <= 8 && (forall k :: 0 <= k < |i.sources| ==> Filled(i.sources[k], 1000)) { SourcesBack(i.sources); }
    }
  }

  lemma SourcesAre(items: seq<Value>)
    requires ReadSources(items).Some?
    ensures items == SourceValues(ReadSources(items).value)
  {
    SourcesFilled(items);
  }

  /** What is read back was saved for this very project and task, passes every check, and fits the cap. */
  lemma ReadIsValid(raw: Units, projectId: Units, taskId: Units)
    ensures ReadPending(Some(raw), projectId, taskId).Ok? ==>
              && |raw| <= 160_000 && ReadPending(Some(raw), projectId, taskId).value.Some?
              && var p := ReadPending(Some(raw), projectId, taskId).value.value;
                 && p.projectId == projectId && p.taskId == taskId && p.input.taskId == taskId && IsCommandId(p.commandId) && Normal(p.input)
                 && Parse(raw).Some? && Parse(raw).value.Object? && OnlyNames(Parse(raw).value.fields, PENDING_NAMES)
                 && Lookup(Parse(raw).value.fields, COMMAND_ID) == Some(String(p.commandId))
  {
    hide Parse, Lookup, OnlyNames, Normalize, Normal, IsCommandId, Ascii;
    if ReadPending(Some(raw), projectId, taskId).Ok? {
      NormalizedIsNormal(Lookup(Parse(raw).value.fields, INPUT).value);
    }
  }
}
