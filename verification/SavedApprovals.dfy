/** The saved approval decision, under its much smaller cap. */
module SavedApprovals {
  import opened Text
  import opened Json
  import opened SavedRecords

  datatype Resolution = GoAhead | Declined

  datatype Command = Command(commandId: Units, resolution: Resolution, proposalDigest: Units, actionDigest: Units, baseDigest: Units)

  datatype Pending = Pending(projectId: Units, needId: Units, taskId: Units, sessionId: Units, command: Command)

  datatype Failure = Invalid

  const PROJECT_ID: Units := Ascii("projectId")
  const NEED_ID: Units := Ascii("needId")
  const TASK_ID: Units := Ascii("taskId")
  const SESSION_ID: Units := Ascii("sessionId")
  const COMMAND: Units := Ascii("command")
  const PROTOCOL_VERSION: Units := Ascii("protocolVersion")
  const COMMAND_ID: Units := Ascii("commandId")
  const RESOLUTION: Units := Ascii("resolution")
  const PROPOSAL_DIGEST: Units := Ascii("proposalDigest")
  const ACTION_DIGEST: Units := Ascii("actionDigest")
  const BASE_DIGEST: Units := Ascii("baseDigest")
  const GO_AHEAD: Units := Ascii("go-ahead")
  const DECLINED: Units := Ascii("declined")
  const SHA: Units := Ascii("sha256:")

  const PENDING_NAMES: set<Units> := {PROJECT_ID, NEED_ID, TASK_ID, SESSION_ID, COMMAND}
  const COMMAND_NAMES: set<Units> := {PROTOCOL_VERSION, COMMAND_ID, RESOLUTION, PROPOSAL_DIGEST, ACTION_DIGEST, BASE_DIGEST}

  const MAX_RECORD: nat := 4096

  // --- checks ---------------------------------------------------------------------------------------

  predicate LowerHex(u: Unit) { 48 <= u <= 57 || 97 <= u <= 102 }

  /** 64 lower-case hexadecimal digits. */
  predicate IsIntent(s: Units) {
    |s| == 64 && forall i :: 0 <= i < |s| ==> LowerHex(s[i])
  }

  predicate IsDigest(s: Units) {
    |s| == 71 && s[..7] == SHA && IsIntent(s[7..])
  }

  function ResolutionText(r: Resolution): Units {
    match r case GoAhead => GO_AHEAD case Declined => DECLINED
  }

  function ReadResolution(v: Option<Value>): Option<Resolution> {
    if v == Some(String(GO_AHEAD)) then Some(GoAhead) else if v == Some(String(DECLINED)) then Some(Declined) else None
  }

  predicate DigestIn(v: Option<Value>) {
    v.Some? && v.value.String? && IsDigest(v.value.s)
  }

  predicate ActionIn(v: Option<Value>) {
    v.Some? && v.value.String? && (IsDigest(v.value.s) || IsIntent(v.value.s))
  }

  predicate ValidCommand(c: Command) {
    IsCommandId(c.commandId) && IsDigest(c.proposalDigest) && (IsDigest(c.actionDigest) || IsIntent(c.actionDigest)) && IsDigest(c.baseDigest)
  }

  /** Exactly the decisions that can be saved. */
  predicate ValidPending(p: Pending) {
    Filled(p.projectId, 100) && Filled(p.needId, 100) && Filled(p.taskId, 100) && Filled(p.sessionId, 100) && ValidCommand(p.command)
  }

  // --- the record as JSON ------------------------------------------------------------------------------

  function CommandFields(c: Command): seq<Field> {
    [Field(PROTOCOL_VERSION, Number(1)), Field(COMMAND_ID, String(c.commandId)), Field(RESOLUTION, String(ResolutionText(c.resolution))),
     Field(PROPOSAL_DIGEST, String(c.proposalDigest))]
    + [Field(ACTION_DIGEST, String(c.actionDigest))] + [Field(BASE_DIGEST, String(c.baseDigest))]
  }

  function PendingFields(p: Pending): seq<Field> {
    [Field(PROJECT_ID, String(p.projectId)), Field(NEED_ID, String(p.needId)), Field(TASK_ID, String(p.taskId)), Field(SESSION_ID, String(p.sessionId))]
    + [Field(COMMAND, Object(CommandFields(p.command)))]
  }

  function Saved(p: Pending): Units {
    Print(Object(PendingFields(p)))
  }

  function ReadCommand(v: Value): Result<Command, Failure> {
    if !v.Object? || !OnlyNames(v.fields, COMMAND_NAMES) then Err(Invalid)
    else
      var commandId, resolution := Lookup(v.fields, COMMAND_ID), ReadResolution(Lookup(v.fields, RESOLUTION));
      var proposal, action, base := Lookup(v.fields, PROPOSAL_DIGEST), Lookup(v.fields, ACTION_DIGEST), Lookup(v.fields, BASE_DIGEST);
      if Lookup(v.fields, PROTOCOL_VERSION) != Some(Number(1))
         || commandId.None? || !commandId.value.String? || !IsCommandId(commandId.value.s)
         || resolution.None? || !DigestIn(proposal) || !ActionIn(action) || !DigestIn(base)
      then Err(Invalid)
      else Ok(Command(commandId.value.s, resolution.value, proposal.value.s, action.value.s, base.value.s))
  }

  /** The pending decision saved for this need: none, a valid record, or a damaged one. */
  function ReadPending(raw: Option<Units>, projectId: Units, needId: Units): Result<Option<Pending>, Failure> {
    if raw.None? then Ok(None)
    else if |raw.value| > MAX_RECORD then Err(Invalid)
    else
      match Parse(raw.value)
      case None => Err(Invalid)
      case Some(v) =>
        if !v.Object? || !OnlyNames(v.fields, PENDING_NAMES) then Err(Invalid)
        else
          var taskId, sessionId, command := Lookup(v.fields, TASK_ID), Lookup(v.fields, SESSION_ID), Lookup(v.fields, COMMAND);
          if !TextOf(Lookup(v.fields, PROJECT_ID), 100) || !TextOf(Lookup(v.fields, NEED_ID), 100)
             || !TextOf(taskId, 100) || !TextOf(sessionId, 100)
             || Lookup(v.fields, PROJECT_ID) != Some(String(projectId)) || Lookup(v.fields, NEED_ID) != Some(String(needId))
             || command.None?
          then Err(Invalid)
          else
            match ReadCommand(command.value)
            case Err(why) => Err(why)
            case Ok(c) => Ok(Some(Pending(projectId, needId, taskId.value.s, sessionId.value.s, c)))
  }

  // --- reading back what was saved -------------------------------------------------------------------------

  lemma CommandNamesDiffer()
    ensures PROTOCOL_VERSION != COMMAND_ID && PROTOCOL_VERSION != RESOLUTION && PROTOCOL_VERSION != PROPOSAL_DIGEST
    ensures PROTOCOL_VERSION != ACTION_DIGEST && PROTOCOL_VERSION != BASE_DIGEST
    ensures COMMAND_ID != RESOLUTION && COMMAND_ID != PROPOSAL_DIGEST && COMMAND_ID != ACTION_DIGEST && COMMAND_ID != BASE_DIGEST
    ensures RESOLUTION != PROPOSAL_DIGEST && RESOLUTION != ACTION_DIGEST && RESOLUTION != BASE_DIGEST
    ensures PROPOSAL_DIGEST != ACTION_DIGEST && PROPOSAL_DIGEST != BASE_DIGEST && ACTION_DIGEST != BASE_DIGEST
    ensures GO_AHEAD != DECLINED
  {
    assert RESOLUTION[0] == 114 && BASE_DIGEST[0] == 98;
    assert GO_AHEAD[0] == 103 && DECLINED[0] == 100;
  }

  lemma PendingNamesDiffer()
    ensures PROJECT_ID != NEED_ID && PROJECT_ID != TASK_ID && PROJECT_ID != SESSION_ID && PROJECT_ID != COMMAND
    ensures NEED_ID != TASK_ID && NEED_ID != SESSION_ID && NEED_ID != COMMAND
    ensures TASK_ID != SESSION_ID && TASK_ID != COMMAND && SESSION_ID != COMMAND
  {
    assert PROJECT_ID[0] == 112 && SESSION_ID[0] == 115;
    assert NEED_ID[0] == 110 && TASK_ID[0] == 116;
  }

  lemma LookupCommand(c: Command, name: Units)
    ensures Lookup(CommandFields(c), name) ==
              if name == BASE_DIGEST then Some(String(c.baseDigest))
              else if name == ACTION_DIGEST then Some(String(c.actionDigest))
              else if name == PROPOSAL_DIGEST then Some(String(c.proposalDigest))
              else if name == RESOLUTION then Some(String(ResolutionText(c.resolution)))
              else if name == COMMAND_ID then Some(String(c.commandId))
              else if name == PROTOCOL_VERSION then Some(Number(1)) else None
  {
    hide Lookup, Ascii, ResolutionText;
    var a, b := Field(PROTOCOL_VERSION, Number(1)), Field(COMMAND_ID, String(c.commandId));
    var d, e := Field(RESOLUTION, String(ResolutionText(c.resolution))), Field(PROPOSAL_DIGEST, String(c.proposalDigest));
    LookupFour(a, b, d, e, name);
    LookupLast([a, b, d, e], Field(ACTION_DIGEST, String(c.actionDigest)), name);
    LookupLast([a, b, d, e] + [Field(ACTION_DIGEST, String(c.actionDigest))], Field(BASE_DIGEST, String(c.baseDigest)), name);
  }

  lemma CommandBack(c: Command)
    requires ValidCommand(c)
    ensures ReadCommand(Object(CommandFields(c))) == Ok(c)
  {
    hide Lookup, Ascii, CommandFields, IsDigest, IsIntent, IsCommandId, OnlyNames;
    CommandNamesDiffer();
    CommandNames(c);
    LookupCommand(c, PROTOCOL_VERSION);
    LookupCommand(c, COMMAND_ID);
    LookupCommand(c, RESOLUTION);
    LookupCommand(c, PROPOSAL_DIGEST);
    LookupCommand(c, ACTION_DIGEST);
    LookupCommand(c, BASE_DIGEST);
  }

  lemma CommandNames(c: Command)
    ensures OnlyNames(CommandFields(c), COMMAND_NAMES)
  {
    hide Ascii;
  }

  lemma LookupPending(p: Pending, name: Units)
    ensures Lookup(PendingFields(p), name) ==
              if name == COMMAND then Some(Object(CommandFields(p.command)))
              else if name == SESSION_ID then Some(String(p.sessionId))
              else if name == TASK_ID then Some(String(p.taskId))
              else if name == NEED_ID then Some(String(p.needId))
              else if name == PROJECT_ID then Some(String(p.projectId)) else None
  {
    hide Lookup, Ascii, CommandFields;
    var a, b := Field(PROJECT_ID, String(p.projectId)), Field(NEED_ID, String(p.needId));
    var d, e := Field(TASK_ID, String(p.taskId)), Field(SESSION_ID, String(p.sessionId));
    LookupFour(a, b, d, e, name);
    LookupLast([a, b, d, e], Field(COMMAND, Object(CommandFields(p.command))), name);
  }

  lemma PendingNames(p: Pending)
    ensures OnlyNames(PendingFields(p), PENDING_NAMES)
  {
    hide Ascii, CommandFields;
  }

  // --- how long the record can be -----------------------------------------------------------------------------

  lemma DigestIsPlain(s: Units)
    requires IsDigest(s) || IsIntent(s)
    ensures Plain(s) && |s| <= 71
  {
    if IsDigest(s) {
      forall i | 0 <= i < |s| ensures 32 <= s[i] < 127 && s[i] != QUOTE && s[i] != BACKSLASH {
        if i < 7 { assert s[i] == s[..7][i] == SHA[i]; ShaIsPlain(); } else { assert s[i] == s[7..][i - 7]; }
      }
    }
  }

  lemma ShaIsPlain()
    ensures Plain(SHA)
  {
  }

  lemma VersionField()
    ensures |PrintField(Field(PROTOCOL_VERSION, Number(1)))| <= 100
  {
    hide Escape, PrintNat;
    EscapeLength(PROTOCOL_VERSION);
    OneDigit();
  }

  lemma OneDigit()
    ensures |PrintNat(1)| == 1
  {
  }

  /** The members that name the command, and those that bind it to what was proposed. */
  lemma NamingLength(c: Command)
    requires ValidCommand(c)
    ensures |PrintField(Field(COMMAND_ID, String(c.commandId)))| <= 190
    ensures |PrintField(Field(RESOLUTION, String(ResolutionText(c.resolution))))| <= 120
  {
    hide PrintField, IsDigest, IsIntent, IsCommandId, Plain;
    CommandIdIsPlain(c.commandId);
    CommandIdLength(c.commandId);
    PlainField(COMMAND_ID, c.commandId);
    StringField(RESOLUTION, ResolutionText(c.resolution));
  }

  lemma DigestLength(name: Units, digest: Units)
    requires |name| <= 14 && (IsDigest(digest) || IsIntent(digest))
    ensures |PrintField(Field(name, String(digest)))| <= 160
  {
    hide PrintField, IsDigest, IsIntent, Plain;
    DigestIsPlain(digest);
    PlainField(name, digest);
  }

  lemma CommandLength(c: Command)
    requires ValidCommand(c)
    ensures |Print(Object(CommandFields(c)))| <= 900
  {
    hide PrintField, Total, IsDigest, IsIntent, IsCommandId, Print, PrintFields;
    VersionField();
    NamingLength(c);
    DigestLength(PROPOSAL_DIGEST, c.proposalDigest);
    DigestLength(ACTION_DIGEST, c.actionDigest);
    DigestLength(BASE_DIGEST, c.baseDigest);
    var a, b := Field(PROTOCOL_VERSION, Number(1)), Field(COMMAND_ID, String(c.commandId));
    var d, e := Field(RESOLUTION, String(ResolutionText(c.resolution))), Field(PROPOSAL_DIGEST, String(c.proposalDigest));
    var f, g := Field(ACTION_DIGEST, String(c.actionDigest)), Field(BASE_DIGEST, String(c.baseDigest));
    TotalFour(a, b, d, e);
    TotalOne(f);
    TotalOne(g);
    TotalConcat([a, b, d, e], [f]);
    TotalConcat([a, b, d, e] + [f], [g]);
    ObjectLength(CommandFields(c));
  }

  lemma CommandIdLength(s: Units)
    requires IsCommandId(s)
    ensures |s| <= 128
  {
  }

  /** The saved record of any valid decision fits the cap, whatever its ids escape to. */
  lemma SavedFits(p: Pending)
    requires ValidPending(p)
    ensures |Saved(p)| <= MAX_RECORD
  {
    hide PrintField, Total, ValidCommand, Trimmed, Print, PrintFields, CommandFields;
    CommandLength(p.command);
    StringField(PROJECT_ID, p.projectId);
    StringField(NEED_ID, p.needId);
    StringField(TASK_ID, p.taskId);
    StringField(SESSION_ID, p.sessionId);
    ObjectField(COMMAND, CommandFields(p.command));
    var a, b := Field(PROJECT_ID, String(p.projectId)), Field(NEED_ID, String(p.needId));
    var d, e := Field(TASK_ID, String(p.taskId)), Field(SESSION_ID, String(p.sessionId));
    var f := Field(COMMAND, Object(CommandFields(p.command)));
    TotalFour(a, b, d, e);
    TotalOne(f);
    TotalConcat([a, b, d, e], [f]);
    ObjectLength(PendingFields(p));
  }

  /** And it is read back as the same decision. */
  lemma SavedReadsBack(p: Pending)
    requires ValidPending(p)
    ensures ReadPending(Some(Saved(p)), p.projectId, p.needId) == Ok(Some(p))
  {
    hide Lookup, PendingFields, CommandFields, Print, Parse, ReadCommand, ValidCommand, Trimmed, OnlyNames, Ascii;
    SavedFits(p);
    DocumentBack(Object(PendingFields(p)));
    PendingNamesDiffer();
    PendingNames(p);
    CommandBack(p.command);
    LookupPending(p, PROJECT_ID);
    LookupPending(p, NEED_ID);
    LookupPending(p, TASK_ID);
    LookupPending(p, SESSION_ID);
    LookupPending(p, COMMAND);
  }

  /** What is read back was saved for this very project and need, passes every check, and fits the cap. */
  lemma ReadIsValid(raw: Units, projectId: Units, needId: Units)
    ensures ReadPending(Some(raw), projectId, needId).Ok? ==>
              && |raw| <= 4096 && ReadPending(Some(raw), projectId, needId).value.Some?
              && var p := ReadPending(Some(raw), projectId, needId).value.value;
                 && p.projectId == projectId && p.needId == needId && ValidPending(p)
                 && Parse(raw).Some? && Parse(raw).value.Object? && OnlyNames(Parse(raw).value.fields, PENDING_NAMES)
                 && var command := Lookup(Parse(raw).value.fields, COMMAND);
                    command.Some? && command.value.Object? && OnlyNames(command.value.fields, COMMAND_NAMES)
                    && Lookup(command.value.fields, PROTOCOL_VERSION) == Some(Number(1))
                    && Lookup(command.value.fields, RESOLUTION) == Some(String(ResolutionText(p.command.resolution)))
  {
    hide Parse, Lookup, OnlyNames, IsCommandId, IsDigest, IsIntent, Ascii, Trimmed;
  }
}
