/** One identity per Work start, over any sequence of presses, answers, refreshes and reloads of a tab. */
module WorkStartSafety {
  import opened Text
  import opened Json
  import opened SavedRecords
  import opened SavedStarts
  import opened WorkStart

  predicate Bound(t: Tab, p: Pending) {
    p.commandId in t.bodies && t.bodies[p.commandId] == p
  }

  /** Every record still readable was minted here; every request sent carries its id's one body. */
  ghost predicate Bodies(t: Tab) {
    && (forall k, p :: Holds(t, k, p) ==> Bound(t, p))
    && (forall i :: 0 <= i < |t.posts| ==> Bound(t, t.posts[i]))
  }

  /** Every id sent and not settled still has its record in storage. */
  ghost predicate Kept(t: Tab) {
    forall i :: 0 <= i < |t.posts| ==> Settled(t, t.posts[i].commandId) || Holds(t, KeyOf(t.posts[i]), t.posts[i])
  }

  ghost predicate SentOnce(t: Tab, id: Units) {
    forall i, j :: 0 <= i < |t.posts| && 0 <= j < |t.posts| && t.posts[i].commandId == id && t.posts[j].commandId == id ==> i == j
  }

  /** An id counts as refused only while it was sent once. */
  ghost predicate RefusalsStand(t: Tab) {
    forall id :: id in t.refused ==> SentOnce(t, id)
  }

  predicate WasSent(t: Tab, p: Pending) {
    p in t.posts
  }

  ghost predicate FlightInv(t: Tab, k: Key, f: Flight) {
    && Bound(t, f.pending) && KeyOf(f.pending) == k && WasSent(t, f.pending) && f.attempt <= 1
    && (k in t.storage ==> Holds(t, k, f.pending)) && (k !in t.storage ==> f.pending.commandId in t.confirmed)
    && (!f.uncertain ==> f.attempt == 0 && SentOnce(t, f.pending.commandId))
  }

  ghost predicate Inv(t: Tab) {
    && Bodies(t) && Kept(t) && RefusalsStand(t) && |t.storage| <= MAX_PENDING
    && (forall k :: k in t.inFlight ==> FlightInv(t, k, t.inFlight[k]))
  }

  // --- reading ------------------------------------------------------------------------------------

  lemma ReadsItsKey(t: Tab, k: Key, p: Pending)
    requires Holds(t, k, p)
    ensures KeyOf(p) == k && k in t.storage
  {
    hide Lookup, OnlyNames, Normalize, Parse, IsCommandId, Ascii;
  }

  lemma ReadsNothing(t: Tab, k: Key)
    requires Read(t, k) == Ok(None)
    ensures k !in t.storage
  {
    hide Lookup, OnlyNames, Normalize, Parse, IsCommandId, Ascii;
  }

  /** A record is read from its own key alone. */
  lemma SameRecord(t: Tab, u: Tab, k: Key)
    requires if k in t.storage then k in u.storage && u.storage[k] == t.storage[k] else k !in u.storage
    ensures Read(u, k) == Read(t, k)
  {
    hide ReadPending;
  }

  lemma MintedReads(t: Tab, projectId: Units, v: Value, mint: Units)
    requires Normalize(v).Ok? && Filled(projectId, 100) && IsCommandId(mint)
    ensures var i := Normalize(v).value;
            var p := Pending(mint, projectId, i.taskId, i);
            Holds(Minted(t, KeyOf(p), p), KeyOf(p), p)
  {
    hide Normalize, IsCommandId, Filled, ReadPending, Saved;
    NormalizedIsNormal(v);
    NormalIsFilled(v);
    SavedReadsBack(Pending(mint, projectId, Normalize(v).value.taskId, Normalize(v).value));
  }

  lemma NormalIsFilled(v: Value)
    requires Normalize(v).Ok? && Normal(Normalize(v).value)
    ensures Filled(Normalize(v).value.taskId, 100)
  {
    hide Normalize, Trimmed;
  }

  // --- turns ----------------------------------------------------------------------------------------

  lemma ResumedKept(t: Tab, k: Key, p: Pending)
    requires Inv(t) && Holds(t, k, p) && k !in t.inFlight
    ensures Inv(Resumed(t, k, p))
  {
    hide Read, Holds;
    var u := Resumed(t, k, p);
    ReadsItsKey(t, k, p);
    forall j ensures Read(u, j) == Read(t, j) { SameRecord(t, u, j); }
    HoldsSame(t, u);
    assert u.posts[|t.posts|] == p;
    PostStands(t, u, p);
    forall j | j in u.inFlight && j != k ensures FlightInv(u, j, u.inFlight[j]) {
      OtherFlight(t, u, j, p);
    }
  }

  lemma PostStands(t: Tab, u: Tab, p: Pending)
    requires RefusalsStand(t) && u.posts == t.posts + [p] && u.refused == t.refused - {p.commandId}
    ensures RefusalsStand(u)
  {
    forall id | id in u.refused ensures SentOnce(u, id) { assert SentOnce(t, id); }
  }

  lemma HoldsSame(t: Tab, u: Tab)
    requires forall j :: Read(u, j) == Read(t, j)
    ensures forall j, p :: Holds(u, j, p) == Holds(t, j, p)
  {
    hide Read;
  }

  /** One more request, under another id, disturbs no other flight. */
  lemma OtherFlight(t: Tab, u: Tab, j: Key, p: Pending)
    requires Bodies(t) && j in t.inFlight && FlightInv(t, j, t.inFlight[j])
    requires u.posts == t.posts + [p] && KeyOf(p) != j
    requires p.commandId in t.bodies ==> t.bodies[p.commandId] == p
    requires forall id :: id in t.bodies ==> id in u.bodies && u.bodies[id] == t.bodies[id]
    requires (j in u.storage <==> j in t.storage) && t.confirmed <= u.confirmed && forall q :: j in u.storage && Holds(t, j, q) ==> Holds(u, j, q)
    ensures FlightInv(u, j, t.inFlight[j])
  {
    hide Read, Holds;
    var f := t.inFlight[j];
    assert p.commandId != f.pending.commandId;
  }

  lemma MintedKept(t: Tab, k: Key, p: Pending)
    requires Inv(t) && k !in t.inFlight && k !in t.storage && KeyOf(p) == k && p.commandId !in t.bodies
    requires |t.storage| < MAX_PENDING && Holds(Minted(t, k, p), k, p)
    ensures Inv(Minted(t, k, p))
  {
    hide Read, Holds, Saved;
    var u := Minted(t, k, p);
    forall j | j != k ensures Read(u, j) == Read(t, j) { SameRecord(t, u, j); }
    HoldsElsewhere(t, u, k);
    assert u.posts[|t.posts|] == p;
    PostStands(t, u, p);
    assert forall i :: 0 <= i < |t.posts| ==> t.posts[i].commandId != p.commandId;
    forall i | 0 <= i < |t.posts| ensures Settled(t, t.posts[i].commandId) || KeyOf(t.posts[i]) != k {
      if !Settled(t, t.posts[i].commandId) { ReadsItsKey(t, KeyOf(t.posts[i]), t.posts[i]); }
    }
    forall j, q | Holds(u, j, q) ensures Bound(u, q) {
      if j != k { assert Holds(t, j, q); } else { OneReading(u, k, p, q); }
    }
    forall j | j in u.inFlight && j != k ensures FlightInv(u, j, u.inFlight[j]) {
      OtherFlight(t, u, j, p);
    }
    assert SentOnce(u, p.commandId);
  }

  lemma OneReading(t: Tab, k: Key, p: Pending, q: Pending)
    requires Holds(t, k, p) && Holds(t, k, q)
    ensures p == q
  {
    hide Read;
  }

  lemma HoldsElsewhere(t: Tab, u: Tab, k: Key)
    requires forall j :: j != k ==> Read(u, j) == Read(t, j)
    ensures forall j, p :: j != k ==> Holds(u, j, p) == Holds(t, j, p)
  {
    hide Read;
  }

  /** Dropping records whose ids are settled, and landing flights, keeps everything. */
  lemma DroppedKept(t: Tab, u: Tab)
    requires Inv(t)
    requires u.posts == t.posts && u.bodies == t.bodies
    requires forall j :: j in u.storage ==> j in t.storage && u.storage[j] == t.storage[j]
    requires forall j :: j in u.inFlight ==> j in t.inFlight && u.inFlight[j] == t.inFlight[j]
    requires t.confirmed <= u.confirmed && t.refused <= u.refused && forall id :: id in u.refused - t.refused ==> SentOnce(t, id)
    requires forall j, p :: Holds(t, j, p) && j !in u.storage ==> Settled(u, p.commandId) && (j in u.inFlight ==> p.commandId in u.confirmed)
    ensures Inv(u)
  {
    hide Read, Holds;
    forall j | j in u.storage ensures Read(u, j) == Read(t, j) { SameRecord(t, u, j); }
    forall j, p | j in u.storage || Holds(u, j, p) ensures Holds(u, j, p) == Holds(t, j, p) {
      if j !in u.storage { ReadsItsKey(u, j, p); }
      HoldsByRead(t, u, j, p);
    }
    forall i | 0 <= i < |u.posts| ensures Settled(u, u.posts[i].commandId) || Holds(u, KeyOf(u.posts[i]), u.posts[i]) {
      assert Settled(t, t.posts[i].commandId) || Holds(t, KeyOf(t.posts[i]), t.posts[i]);
    }
    forall id | id in u.refused ensures SentOnce(u, id) { assert SentOnce(t, id); }
    SubmapSize(u.storage, t.storage);
  }

  lemma HoldsByRead(t: Tab, u: Tab, k: Key, p: Pending)
    requires Read(u, k) == Read(t, k)
    ensures Holds(u, k, p) == Holds(t, k, p)
  {
    hide Read;
  }

  lemma SubmapSize(a: map<Key, Units>, b: map<Key, Units>)
    requires forall k :: k in a ==> k in b
    ensures |a| <= |b|
  {
    SubsetSize(a.Keys, b.Keys);
    assert |a.Keys| == |a| && |b.Keys| == |b|;
  }

  lemma {:induction false} SubsetSize(a: set<Key>, b: set<Key>)
    requires a <= b
    ensures |a| <= |b|
  {
    if a != {} {
      var k :| k in a;
      SubsetSize(a - {k}, b - {k});
    }
  }

  lemma RetryKept(t: Tab, k: Key)
    requires Inv(t) && k in t.inFlight && t.inFlight[k].attempt == 0
    ensures var f := t.inFlight[k];
            Inv(Posted(t.(inFlight := t.inFlight[k := Flight(f.pending, true, 1)]), f.pending))
  {
    hide Read, Holds;
    var f := t.inFlight[k];
    var u := Posted(t.(inFlight := t.inFlight[k := Flight(f.pending, true, 1)]), f.pending);
    forall j ensures Read(u, j) == Read(t, j) { SameRecord(t, u, j); }
    HoldsSame(t, u);
    var i :| 0 <= i < |t.posts| && t.posts[i] == f.pending;
    assert u.posts[|t.posts|] == f.pending;
    PostStands(t, u, f.pending);
    forall j | j in u.inFlight && j != k ensures FlightInv(u, j, u.inFlight[j]) {
      OtherFlight(t, u, j, f.pending);
    }
  }

  lemma HeldAreStored(t: Tab)
    ensures forall j, p :: Holds(t, j, p) ==> j in t.storage && KeyOf(p) == j
  {
    hide Read, Holds;
    forall j, p | Holds(t, j, p) ensures j in t.storage && KeyOf(p) == j { ReadsItsKey(t, j, p); }
  }

  lemma LandKept(t: Tab, k: Key)
    requires Inv(t)
    ensures Inv(Landed(t, k))
  {
    hide Inv, Holds;
    HeldAreStored(t);
    DroppedKept(t, Landed(t, k));
  }

  lemma ClearKept(t: Tab, k: Key, accepted: bool, clears: bool)
    requires Inv(t) && k in t.inFlight && (accepted || !t.inFlight[k].uncertain)
    ensures Inv(Landed(Cleared(t, k, t.inFlight[k].pending, accepted, clears), k))
  {
    hide Read, Holds;
    HeldAreStored(t);
    forall p | Holds(t, k, p) ensures p == t.inFlight[k].pending {
      OneReading(t, k, p, t.inFlight[k].pending);
    }
    DroppedKept(t, Landed(Cleared(t, k, t.inFlight[k].pending, accepted, clears), k));
  }

  lemma SettleKept(t: Tab, k: Key, reply: Reply, clears: bool)
    requires Inv(t) && k in t.inFlight
    ensures Inv(Settle(t, k, reply, clears).0)
  {
    hide Inv, Confirms, Landed, Cleared, Posted;
    LandKept(t, k);
    ClearKept(t, k, true, clears);
    if !t.inFlight[k].uncertain { ClearKept(t, k, false, clears); }
    AttemptBound(t, k);
    if Settle(t, k, reply, clears).1.Retrying? { RetryKept(t, k); }
  }

  lemma AttemptBound(t: Tab, k: Key)
    requires Inv(t) && k in t.inFlight
    ensures t.inFlight[k].attempt <= 1
  {
    hide Holds, Read;
  }

  lemma ReconcileKept(t: Tab, projectId: Units, sessions: seq<Session>, stuck: set<Key>)
    requires Inv(t)
    ensures Inv(Reconciled(t, projectId, sessions, stuck))
  {
    hide Read, Confirms, SessionFor;
    var u := Reconciled(t, projectId, sessions, stuck);
    HeldAreStored(t);
    DroppedKept(t, u);
  }

  lemma PressKept(t: Tab, projectId: Units, v: Value, mint: Units, saves: bool)
    requires Inv(t) && IsCommandId(mint) && mint !in t.bodies
    ensures Inv(Start(t, projectId, v, mint, saves).0)
  {
    hide Inv, Normalize, Filled, IsCommandId, Read, Minted, Resumed;
    var (u, r) := Start(t, projectId, v, mint, saves);
    if r.Sent? {
      var k := Key(projectId, Normalize(v).value.taskId);
      if Read(t, k).value.Some? {
        ResumedKept(t, k, Read(t, k).value.value);
      } else {
        ReadsNothing(t, k);
        MintedReads(t, projectId, v, mint);
        MintedKept(t, k, r.pending);
      }
    }
  }

  lemma ApplyKeeps(t: Tab, event: Event)
    requires Inv(t) && Enabled(t, event)
    ensures Inv(Apply(t, event))
  {
    hide Inv, Start, Settle, Reconciled, IsCommandId;
    match event
    case Press(projectId, input, mint, saves) => PressKept(t, projectId, input, mint, saves);
    case Answer(key, reply, clears) => SettleKept(t, key, reply, clears);
    case Refresh(projectId, sessions, stuck) => ReconcileKept(t, projectId, sessions, stuck);
    case Reload => ReloadKept(t);
  }

  lemma ReloadKept(t: Tab)
    requires Inv(t)
    ensures Inv(t.(inFlight := map[]))
  {
    hide Inv, Holds;
    HeldAreStored(t);
    DroppedKept(t, t.(inFlight := map[]));
  }

  lemma {:induction false} RunKeeps(t: Tab, events: seq<Event>)
    requires Inv(t) && ValidRun(t, events)
    ensures Inv(Run(t, events))
    decreases |events|
  {
    hide Inv, Enabled, Apply;
    if events != [] {
      ApplyKeeps(t, events[0]);
      RunKeeps(Apply(t, events[0]), events[1..]);
    }
  }

  // --- the promises ---------------------------------------------------------------------------------

  /** A tab before its first press: nothing on its way, and whatever readable records it kept. */
  ghost predicate Opened(t: Tab) {
    t.inFlight == map[] && t.posts == [] && |t.storage| <= MAX_PENDING && (forall k, p :: Holds(t, k, p) ==> Bound(t, p))
  }

  ghost predicate Reachable(t: Tab) {
    exists start: Tab, events: seq<Event> :: Opened(start) && ValidRun(start, events) && t == Run(start, events)
  }

  lemma ReachableInv(t: Tab)
    requires Reachable(t)
    ensures Inv(t)
  {
    hide ValidRun, Run, Holds;
    var start: Tab, events: seq<Event> :| Opened(start) && ValidRun(start, events) && t == Run(start, events);
    RunKeeps(start, events);
  }

  /**
   * A new command is minted for a task only when every earlier one sent for it is confirmed,
   * or refused for certain and not sent since, and only after it is saved; otherwise what is sent is the command already saved, with its saved body.
   */
  lemma NoSecondStart(t: Tab, projectId: Units, v: Value, mint: Units, saves: bool)
    requires Reachable(t) && Enabled(t, Press(projectId, v, mint, saves)) && Start(t, projectId, v, mint, saves).1.Sent?
    ensures var (u, r) := Start(t, projectId, v, mint, saves);
            && Holds(u, KeyOf(r.pending), r.pending) && r.pending.input == Normalize(v).value
            && (if r.pending.commandId == mint
                then forall i :: 0 <= i < |t.posts| && KeyOf(t.posts[i]) == KeyOf(r.pending) ==> Settled(t, t.posts[i].commandId)
                else Holds(t, KeyOf(r.pending), r.pending))
  {
    hide Normalize, Filled, IsCommandId, Read, Saved, FlightInv;
    ReachableInv(t);
    HeldAreStored(t);
    var (u, r) := Start(t, projectId, v, mint, saves);
    var k := Key(projectId, Normalize(v).value.taskId);
    if Read(t, k).value.Some? {
      assert Holds(t, k, Read(t, k).value.value);
      SameRecord(t, u, k);
    } else {
      ReadsNothing(t, k);
      MintedReads(t, projectId, v, mint);
    }
  }

  /** The task a press is for, if its input is one. */
  predicate PressesOn(event: Event, k: Key) {
    event.Press? && Normalize(event.input).Ok? && Key(event.projectId, Normalize(event.input).value.taskId) == k
  }

  lemma StartsOnlyItsKey(t: Tab, projectId: Units, v: Value, mint: Units, saves: bool, k: Key)
    requires k !in t.inFlight && !(Normalize(v).Ok? && Key(projectId, Normalize(v).value.taskId) == k)
    ensures k !in Start(t, projectId, v, mint, saves).0.inFlight
  {
    hide Normalize, Filled, Read, Saved;
  }

  lemma StaysLanded(t: Tab, event: Event, k: Key)
    requires k !in t.inFlight && !PressesOn(event, k)
    ensures k !in Apply(t, event).inFlight
  {
    hide Start, Normalize, Read, Confirms, ConfirmedBy;
    match event
    case Press(projectId, input, mint, saves) => StartsOnlyItsKey(t, projectId, input, mint, saves, k);
    case Answer(_, _, _) =>
    case Refresh(_, _, _) =>
    case Reload =>
  }

  lemma {:induction false} RunLanded(t: Tab, events: seq<Event>, k: Key)
    requires k !in t.inFlight && forall i :: 0 <= i < |events| ==> !PressesOn(events[i], k)
    ensures k !in Run(t, events).inFlight
    decreases |events|
  {
    hide Apply, PressesOn;
    if events != [] {
      StaysLanded(t, events[0], k);
      RunLanded(Apply(t, events[0]), events[1..], k);
    }
  }

  lemma {:induction false} PostsStay(t: Tab, events: seq<Event>)
    ensures |t.posts| <= |Run(t, events).posts| && Run(t, events).posts[..|t.posts|] == t.posts
    decreases |events|
  {
    hide Apply;
    if events != [] {
      EventPosts(t, events[0]);
      PostsStay(Apply(t, events[0]), events[1..]);
    }
  }

  lemma EventPosts(t: Tab, event: Event)
    ensures |t.posts| <= |Apply(t, event).posts| && Apply(t, event).posts[..|t.posts|] == t.posts
  {
    hide Normalize, Filled, Read, Saved, Confirms, ConfirmedBy;
  }

  /**
   * A start that was sent and is not settled survives a reload and whatever other tasks do after it:
   * the next press of its task with the same input sends that very command again, and with any other
   * input sends nothing and changes nothing.
   */
  lemma ReloadResumes(t: Tab, after: seq<Event>, i: nat, v: Value, mint: Units, saves: bool)
    requires Reachable(t) && ValidRun(t, [Reload] + after) && i < |t.posts|
    requires forall j :: 0 <= j < |after| ==> !PressesOn(after[j], KeyOf(t.posts[i]))
    requires !Settled(Run(t, [Reload] + after), t.posts[i].commandId)
    requires Filled(t.posts[i].projectId, 100) && Normalize(v).Ok? && Normalize(v).value.taskId == t.posts[i].taskId
    ensures var p, u := t.posts[i], Run(t, [Reload] + after);
            var (w, r) := Start(u, p.projectId, v, mint, saves);
            if Normalize(v).value == p.input then r == Sent(p) && w.posts == u.posts + [p] && w.storage == u.storage
            else r == EarlierUnresolved && w == u
  {
    hide Inv, Normalize, Filled, ReadPending, ValidRun, Run, PressesOn, Apply, Reachable;
    var p, u := t.posts[i], Run(t, [Reload] + after);
    ReachableInv(t);
    RunKeeps(t, [Reload] + after);
    ReloadFirst(t, after);
    RunLanded(t.(inFlight := map[]), after, KeyOf(p));
    PostsStay(t, [Reload] + after);
    assert u.posts[i] == u.posts[..|t.posts|][i];
    UnsettledIsHeld(u, i);
    NextPress(u, p, v, mint, saves);
  }

  lemma ReloadFirst(t: Tab, after: seq<Event>)
    ensures Run(t, [Reload] + after) == Run(t.(inFlight := map[]), after)
  {
    assert ([Reload] + after)[1..] == after;
  }

  lemma UnsettledIsHeld(t: Tab, i: nat)
    requires Inv(t) && i < |t.posts| && !Settled(t, t.posts[i].commandId)
    ensures Holds(t, KeyOf(t.posts[i]), t.posts[i])
  {
    hide Holds;
  }

  /** With its record kept and nothing on its way, a task's next press resumes that record or is refused. */
  lemma NextPress(t: Tab, p: Pending, v: Value, mint: Units, saves: bool)
    requires Holds(t, KeyOf(p), p) && KeyOf(p) !in t.inFlight && Filled(p.projectId, 100)
    requires Normalize(v).Ok? && Normalize(v).value.taskId == p.taskId
    ensures var (u, r) := Start(t, p.projectId, v, mint, saves);
            if Normalize(v).value == p.input then r == Sent(p) && u.posts == t.posts + [p] && u.storage == t.storage
            else r == EarlierUnresolved && u == t
  {
    hide Normalize, Filled, ReadPending;
  }

  /** All requests sent under one id carry one body. */
  lemma OneBodyPerId(t: Tab, i: nat, j: nat)
    requires Reachable(t) && i < |t.posts| && j < |t.posts| && t.posts[i].commandId == t.posts[j].commandId
    ensures t.posts[i] == t.posts[j]
  {
    hide Holds, FlightInv;
    ReachableInv(t);
  }

  /** A final refusal settles an id, and drops its record, only when that id was sent exactly once. */
  lemma RefusedOnceOnly(t: Tab, k: Key, reply: Reply)
    requires Reachable(t) && k in t.inFlight && Final(reply)
    ensures var (u, outcome) := Settle(t, k, reply, true);
            var id := t.inFlight[k].pending.commandId;
            && outcome == Refused
            && (if t.inFlight[k].uncertain then u.storage == t.storage && u.confirmed == t.confirmed && u.refused == t.refused else SentOnce(t, id) && k !in u.storage)
  {
    hide Holds;
    ReachableInv(t);
  }

  /** And it is settled by that refusal no longer once anything more is sent under it. */
  lemma RefusedIsNotSentAgain(t: Tab, i: nat, j: nat)
    requires Reachable(t) && i < j < |t.posts| && t.posts[i].commandId == t.posts[j].commandId
    ensures t.posts[i].commandId !in t.refused
  {
    hide Holds, FlightInv, Bodies, Kept;
    ReachableInv(t);
  }

  /** A refresh removes exactly the readable records of the project that the listed sessions confirm. */
  lemma ReconcilesExactlyConfirmed(t: Tab, projectId: Units, sessions: seq<Session>, stuck: set<Key>, k: Key)
    requires k in t.storage
    ensures k !in Reconciled(t, projectId, sessions, stuck).storage <==>
              |ProjectKeys(t, projectId)| <= MAX_PENDING && k.projectId == projectId && ConfirmedBy(t, sessions, k) && k !in stuck
  {
    hide ConfirmedBy, Read;
  }

  /** The task's record cannot be read, and the task sends nothing: neither changes by any event. */
  ghost predicate Stopped(t: Tab, k: Key, raw: Units) {
    k in t.storage && t.storage[k] == raw && k !in t.inFlight && Read(t, k).Err?
  }

  lemma DamagedIsGrounded(t: Tab, k: Key)
    requires Inv(t) && Read(t, k).Err?
    ensures k in t.storage && Stopped(t, k, t.storage[k])
  {
    hide Lookup, OnlyNames, Normalize, Parse, IsCommandId, Ascii, Bodies, Kept, SentOnce;
  }

  lemma PressStops(t: Tab, projectId: Units, v: Value, mint: Units, saves: bool, k: Key, raw: Units)
    requires Stopped(t, k, raw)
    ensures var u := Start(t, projectId, v, mint, saves).0;
            Stopped(u, k, raw) && (u.posts == t.posts || (|u.posts| == |t.posts| + 1 && u.posts[..|t.posts|] == t.posts && KeyOf(u.posts[|t.posts|]) != k))
  {
    hide Normalize, Filled, Read, Saved;
    var (u, r) := Start(t, projectId, v, mint, saves);
    if r.Sent? {
      var j := Key(projectId, Normalize(v).value.taskId);
      if Read(t, j).value.Some? {
        assert Holds(t, j, Read(t, j).value.value);
        ReadsItsKey(t, j, Read(t, j).value.value);
      }
      SameRecord(t, u, k);
    }
  }

  lemma AnswerStops(t: Tab, j: Key, reply: Reply, clears: bool, k: Key, raw: Units)
    requires Inv(t) && Stopped(t, k, raw) && j in t.inFlight
    ensures var u := Settle(t, j, reply, clears).0;
            Stopped(u, k, raw) && (u.posts == t.posts || (|u.posts| == |t.posts| + 1 && u.posts[..|t.posts|] == t.posts && KeyOf(u.posts[|t.posts|]) != k))
  {
    hide Read, Confirms, Holds;
    SameRecord(t, Settle(t, j, reply, clears).0, k);
    FlightKey(t, j);
  }

  lemma FlightKey(t: Tab, j: Key)
    requires Inv(t) && j in t.inFlight
    ensures KeyOf(t.inFlight[j].pending) == j
  {
    hide Holds, Read;
  }

  lemma RefreshStops(t: Tab, projectId: Units, sessions: seq<Session>, stuck: set<Key>, k: Key, raw: Units)
    requires Stopped(t, k, raw)
    ensures var u := Reconciled(t, projectId, sessions, stuck); Stopped(u, k, raw) && u.posts == t.posts
  {
    hide Read, Confirms, SessionFor;
    SameRecord(t, Reconciled(t, projectId, sessions, stuck), k);
  }

  lemma EventStops(t: Tab, event: Event, k: Key, raw: Units)
    requires Inv(t) && Enabled(t, event) && Stopped(t, k, raw)
    ensures var u := Apply(t, event);
            Stopped(u, k, raw) && (u.posts == t.posts || (|u.posts| == |t.posts| + 1 && u.posts[..|t.posts|] == t.posts && KeyOf(u.posts[|t.posts|]) != k))
  {
    hide Inv, Stopped, Start, Settle, Reconciled, IsCommandId;
    match event
    case Press(projectId, input, mint, saves) => PressStops(t, projectId, input, mint, saves, k, raw);
    case Answer(key, reply, clears) => AnswerStops(t, key, reply, clears, k, raw);
    case Refresh(projectId, sessions, stuck) => RefreshStops(t, projectId, sessions, stuck, k, raw);
    case Reload => ReloadStops(t, k, raw);
  }

  lemma ReloadStops(t: Tab, k: Key, raw: Units)
    requires Stopped(t, k, raw)
    ensures Stopped(t.(inFlight := map[]), k, raw)
  {
    hide ReadPending;
  }

  lemma {:induction false} RunStops(t: Tab, events: seq<Event>, k: Key, raw: Units)
    requires Inv(t) && ValidRun(t, events) && Stopped(t, k, raw)
    ensures var u := Run(t, events);
            Stopped(u, k, raw) && |t.posts| <= |u.posts| && forall i :: |t.posts| <= i < |u.posts| ==> KeyOf(u.posts[i]) != k
    decreases |events|
  {
    hide Inv, Stopped, Enabled, Apply;
    if events != [] {
      ApplyKeeps(t, events[0]);
      EventStops(t, events[0], k, raw);
      var u := Apply(t, events[0]);
      RunStops(u, events[1..], k, raw);
      PostsStay(u, events[1..]);
      forall i | |t.posts| <= i < |Run(t, events).posts| ensures KeyOf(Run(t, events).posts[i]) != k {
        if i < |u.posts| { assert Run(t, events).posts[i] == Run(t, events).posts[..|u.posts|][i]; }
      }
    }
  }

  /** Over any run, reloads included, a damaged record stays as it is and nothing is ever sent for its task. */
  lemma DamagedIsKept(t: Tab, events: seq<Event>, k: Key)
    requires Reachable(t) && Read(t, k).Err? && ValidRun(t, events)
    ensures var u := Run(t, events);
            && k in t.storage && k in u.storage && u.storage[k] == t.storage[k] && Read(u, k).Err?
            && forall i :: |t.posts| <= i < |u.posts| ==> KeyOf(u.posts[i]) != k
  {
    hide Inv, Read, ValidRun, Run, Reachable;
    ReachableInv(t);
    DamagedIsGrounded(t, k);
    RunStops(t, events, k, t.storage[k]);
  }
}
