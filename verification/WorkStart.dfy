/** Starting Work from one tab: saved before it is sent, retried under one identity, cleared once settled. */
module WorkStart {
  import opened Text
  import opened Json
  import opened SavedRecords
  import opened SavedStarts

  /** The storage key of one task's pending start. */
  datatype Key = Key(projectId: Units, taskId: Units)

  function KeyOf(p: Pending): Key {
    Key(p.projectId, p.taskId)
  }

  const MAX_PENDING: nat := 32

  // --- what the server answers -------------------------------------------------------------------

  datatype Receipt = Receipt(
    protocolVersion: nat, commandId: Units, projectId: Units, taskId: Units, route: Units, sessionId: Units, scope: Units, payloadDigest: Units)

  datatype Session = Session(id: Units, taskId: Units, receipt: Option<Receipt>)

  datatype Reply = Answered(session: Session) | HttpError(status: nat) | NoAnswer

  const SCOPE: Units := Ascii("local-prototype")
  const SHA: Units := Ascii("sha256:")

  predicate IsDigest(s: Units) {
    |s| == 71 && s[..7] == SHA && forall i :: 7 <= i < |s| ==> 48 <= s[i] <= 57 || 97 <= s[i] <= 102
  }

  /** The answer is about exactly this command: every identity in the receipt matches. */
  predicate Confirms(s: Session, p: Pending) {
    && Filled(s.id, 100) && s.taskId == p.taskId && s.receipt.Some?
    && var r := s.receipt.value;
       r.protocolVersion == 1 && r.commandId == p.commandId && r.projectId == p.projectId && r.taskId == p.taskId
       && r.route == p.input.route && r.sessionId == s.id && r.scope == SCOPE && IsDigest(r.payloadDigest)
  }

  /** A refusal that is final: a client error, a timeout apart. */
  predicate Final(reply: Reply) {
    reply.HttpError? && 400 <= reply.status < 500 && reply.status != 408
  }

  // --- the tab -----------------------------------------------------------------------------------

  datatype Flight = Flight(pending: Pending, uncertain: bool, attempt: nat)

  /**
   * `posts` (requests sent), `confirmed`, `refused` (ids refused for certain and not sent since) and
   * `bodies` are history.
   */
  datatype Tab = Tab(
    storage: map<Key, Units>, inFlight: map<Key, Flight>, posts: seq<Pending>, confirmed: set<Units>, refused: set<Units>, bodies: map<Units, Pending>)

  predicate Settled(t: Tab, id: Units) {
    id in t.confirmed || id in t.refused
  }

  function Read(t: Tab, k: Key): Result<Option<Pending>, Failure> {
    ReadPending(if k in t.storage then Some(t.storage[k]) else None, k.projectId, k.taskId)
  }

  /** The record under this key is readable and names `p`. */
  predicate Holds(t: Tab, k: Key, p: Pending) {
    Read(t, k) == Ok(Some(p))
  }

  datatype StartResult =
    | Sent(pending: Pending) | Joined | InvalidInput | Damaged | EarlierUnresolved | Unresolved | TooMany | Unavailable

  /** `startWork` up to its first request: one turn, since nothing in it waits. */
  function Start(t: Tab, projectId: Units, v: Value, mint: Units, saves: bool): (Tab, StartResult) {
    var input := Normalize(v);
    if !Filled(projectId, 100) || input.Err? then (t, InvalidInput)
    else
      var k := Key(projectId, input.value.taskId);
      var saved := Read(t, k);
      if saved.Err? then (t, Damaged)
      else if saved.value.Some? && saved.value.value.input != input.value then (t, EarlierUnresolved)
      else if k in t.inFlight then (t, if t.inFlight[k].pending.input != input.value then Unresolved else Joined)
      else if saved.value.Some? then (Resumed(t, k, saved.value.value), Sent(saved.value.value))
      else if |t.storage| >= MAX_PENDING then (t, TooMany)
      else if !saves then (t, Unavailable)
      else
        var p := Pending(mint, projectId, input.value.taskId, input.value);
        (Minted(t, k, p), Sent(p))
  }

  function Posted(t: Tab, p: Pending): Tab {
    t.(posts := t.posts + [p], refused := t.refused - {p.commandId})
  }

  /** A saved start is sent again, as uncertain from the outset. */
  function Resumed(t: Tab, k: Key, p: Pending): Tab {
    Posted(t.(inFlight := t.inFlight[k := Flight(p, true, 0)]), p)
  }

  function Minted(t: Tab, k: Key, p: Pending): Tab {
    Posted(t.(storage := t.storage[k := Saved(p)], inFlight := t.inFlight[k := Flight(p, false, 0)], bodies := t.bodies[p.commandId := p]), p)
  }

  function Landed(t: Tab, k: Key): Tab {
    t.(inFlight := t.inFlight - {k})
  }

  /** The id is settled and its record goes, unless the browser cannot remove it. */
  function Cleared(t: Tab, k: Key, p: Pending, accepted: bool, clears: bool): Tab {
    t.(confirmed := if accepted then t.confirmed + {p.commandId} else t.confirmed,
       refused := if accepted then t.refused else t.refused + {p.commandId},
       storage := if clears then t.storage - {k} else t.storage)
  }

  datatype Outcome = Confirmed | Refused | Unconfirmed | Retrying

  /** One answer: confirmed, finally refused, or uncertain and tried once more. */
  function Settle(t: Tab, k: Key, reply: Reply, clears: bool): (Tab, Outcome)
    requires k in t.inFlight
  {
    var f := t.inFlight[k];
    if reply.Answered? && Confirms(reply.session, f.pending) then (Landed(Cleared(t, k, f.pending, true, clears), k), Confirmed)
    else if Final(reply) then (if f.uncertain then Landed(t, k) else Landed(Cleared(t, k, f.pending, false, clears), k), Refused)
    else if f.attempt >= 1 then (Landed(t, k), Unconfirmed)
    else (Posted(t.(inFlight := t.inFlight[k := Flight(f.pending, true, f.attempt + 1)]), f.pending), Retrying)
  }

  // --- reconciling with a refreshed state -----------------------------------------------------------

  /** The last session listed whose receipt names the command. */
  function SessionFor(sessions: seq<Session>, commandId: Units): Option<Session> {
    if sessions == [] then None
    else
      var last := sessions[|sessions| - 1];
      if last.receipt.Some? && last.receipt.value.commandId == commandId then Some(last)
      else SessionFor(sessions[..|sessions| - 1], commandId)
  }

  /** The record under this key is readable and the listed sessions confirm it. */
  predicate ConfirmedBy(t: Tab, sessions: seq<Session>, k: Key) {
    && Read(t, k).Ok? && Read(t, k).value.Some?
    && var p := Read(t, k).value.value;
       SessionFor(sessions, p.commandId).Some? && Confirms(SessionFor(sessions, p.commandId).value, p)
  }

  function ProjectKeys(t: Tab, projectId: Units): set<Key> {
    set k | k in t.storage && k.projectId == projectId
  }

  /** Nothing when there are too many to check; otherwise exactly the confirmed records go. `stuck` cannot be removed. */
  function Reconciled(t: Tab, projectId: Units, sessions: seq<Session>, stuck: set<Key>): Tab {
    if |ProjectKeys(t, projectId)| > MAX_PENDING then t
    else
      var known := set k | k in t.storage && k.projectId == projectId && ConfirmedBy(t, sessions, k);
      t.(storage := t.storage - (known - stuck),
         confirmed := t.confirmed + (set k | k in known :: Read(t, k).value.value.commandId))
  }

  // --- any number of turns ----------------------------------------------------------------------------

  datatype Event =
    | Press(projectId: Units, input: Value, mint: Units, saves: bool)
    | Answer(key: Key, reply: Reply, clears: bool)
    | Refresh(projectId: Units, sessions: seq<Session>, stuck: set<Key>)
    | Reload

  /** Minted ids are fresh and well formed, and only a request on its way is answered. */
  predicate Enabled(t: Tab, event: Event) {
    match event
    case Press(_, _, mint, _) => IsCommandId(mint) && mint !in t.bodies
    case Answer(key, _, _) => key in t.inFlight
    case Refresh(_, _, _) => true
    case Reload => true
  }

  function Apply(t: Tab, event: Event): Tab {
    match event
    case Press(projectId, input, mint, saves) => Start(t, projectId, input, mint, saves).0
    case Answer(key, reply, clears) => if key in t.inFlight then Settle(t, key, reply, clears).0 else t
    case Refresh(projectId, sessions, stuck) => Reconciled(t, projectId, sessions, stuck)
    case Reload => t.(inFlight := map[])
  }

  predicate ValidRun(t: Tab, events: seq<Event>)
    decreases |events|
  {
    events == [] || (Enabled(t, events[0]) && ValidRun(Apply(t, events[0]), events[1..]))
  }

  function Run(t: Tab, events: seq<Event>): Tab
    decreases |events|
  {
    if events == [] then t else Run(Apply(t, events[0]), events[1..])
  }
}
