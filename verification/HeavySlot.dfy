/** The one heavy slot: taken and given back by any number of processes, one file operation at a time. */
module HeavySlot {
  import opened Text
  import opened Records

  datatype Slot = Slot(id: Id, owner: Owner, purpose: string, node: string)

  datatype SlotRelease = SlotRelease(held: Slot, releasedBy: Owner)

  /** `heavy.json`, and the write-once release records. */
  datatype Files = Files(slot: Option<Slot>, releases: map<Id, SlotRelease>)

  datatype Refused = IncompleteOwner | NotCurrent | NotHolder | AlreadyReleased

  datatype RequestPc = BeginRequest | PublishSlot | ReadHolder | Granted | Denied(heldBy: Option<Slot>) | Incomplete

  datatype ReleasePc = BeginRelease | ReadSlot | PublishRecord(held: Slot) | RemoveFile(held: Slot) | Freed(held: Slot) | Threw(why: Refused)

  datatype Call =
    | Requesting(slot: Slot, requestPc: RequestPc)
    | Releasing(slotId: Id, by_: Owner, releasePc: ReleasePc)

  /** What one file operation leaves. The removal takes whatever file is there. */
  function FilesAfter(f: Files, c: Call): Files {
    match c
    case Requesting(slot, pc) => if pc.PublishSlot? && f.slot.None? then f.(slot := Some(slot)) else f
    case Releasing(_, by_, pc) =>
      (match pc
       case PublishRecord(held) =>
         if held.id in f.releases then f else f.(releases := f.releases[held.id := SlotRelease(held, by_)])
       case RemoveFile(_) => f.(slot := None)
       case _ => f)
  }

  function CallAfter(f: Files, c: Call): Call {
    match c
    case Requesting(slot, pc) =>
      c.(requestPc :=
        match pc
        case BeginRequest => if Complete(slot.owner) then PublishSlot else Incomplete
        case PublishSlot => if f.slot.None? then Granted else ReadHolder
        case ReadHolder => Denied(f.slot)
        case _ => pc)
    case Releasing(slotId, by_, pc) =>
      c.(releasePc :=
        match pc
        case BeginRelease => if Complete(by_) then ReadSlot else Threw(IncompleteOwner)
        case ReadSlot =>
          if f.slot.None? || f.slot.value.id != slotId then Threw(NotCurrent)
          else if !SameOwner(f.slot.value.owner, by_) then Threw(NotHolder)
          else PublishRecord(f.slot.value)
        case PublishRecord(held) => if held.id in f.releases then Threw(AlreadyReleased) else RemoveFile(held)
        case RemoveFile(held) => Freed(held)
        case _ => pc)
  }

  // --- any number of calls, interleaved ----------------------------------------------------

  type Pid = nat

  /** `minted` and `granted` are history: every id a request was given, every slot a request got. */
  datatype State = State(files: Files, calls: map<Pid, Call>, minted: set<Id>, granted: map<Id, Slot>)

  datatype Event = Start(pid: Pid, call: Call) | Advance(pid: Pid) | Crash(pid: Pid)

  predicate Enabled(s: State, event: Event) {
    match event
    case Start(pid, call) =>
      && pid !in s.calls
      && (call.Requesting? ==> call.requestPc.BeginRequest? && call.slot.id !in s.minted)
      && (call.Releasing? ==> call.releasePc.BeginRelease?)
    case Advance(pid) => pid in s.calls
    case Crash(pid) => pid in s.calls
  }

  function Apply(s: State, event: Event): State {
    match event
    case Start(pid, call) =>
      s.(calls := s.calls[pid := call], minted := if call.Requesting? then s.minted + {call.slot.id} else s.minted)
    case Advance(pid) =>
      if pid !in s.calls then s
      else
        var c := s.calls[pid];
        var next := CallAfter(s.files, c);
        var got := c.Requesting? && c.requestPc.PublishSlot? && next.requestPc.Granted?;
        s.(files := FilesAfter(s.files, c), calls := s.calls[pid := next],
           granted := if got then s.granted[c.slot.id := c.slot] else s.granted)
    case Crash(pid) => s.(calls := s.calls - {pid})
  }

  predicate ValidRun(s: State, events: seq<Event>)
    decreases |events|
  {
    events == [] || (Enabled(s, events[0]) && ValidRun(Apply(s, events[0]), events[1..]))
  }

  function Run(s: State, events: seq<Event>): State
    decreases |events|
  {
    if events == [] then s else Run(Apply(s, events[0]), events[1..])
  }

  lemma RunNone(s: State)
    ensures ValidRun(s, []) && Run(s, []) == s
  {
  }

  lemma RunCons(s: State, event: Event, events: seq<Event>)
    requires Enabled(s, event) && ValidRun(Apply(s, event), events)
    ensures ValidRun(s, [event] + events) && Run(s, [event] + events) == Run(Apply(s, event), events)
  {
    hide Enabled, Apply;
    assert ([event] + events)[1..] == events;
  }

  const INITIAL: State := State(Files(None, map[]), map[], {}, map[])

  ghost predicate Reachable(s: State) {
    exists events: seq<Event> :: ValidRun(INITIAL, events) && s == Run(INITIAL, events)
  }

  // --- the invariant --------------------------------------------------------------------------

  predicate Removes(c: Call, id: Id) {
    c.Releasing? && (c.releasePc.RemoveFile? || c.releasePc.Freed?) && c.releasePc.held.id == id
  }

  predicate SameRequest(c: Call, o: Call) {
    c.Requesting? && o.Requesting? && c.slot.id == o.slot.id
  }

  ghost predicate CallInv(s: State, c: Call) {
    match c
    case Requesting(slot, pc) =>
      && slot.id in s.minted
      && (pc.BeginRequest? || pc.PublishSlot? ==> slot.id !in s.granted)
      && (pc.PublishSlot? ==> Complete(slot.owner))
      && (pc.Granted? ==> slot.id in s.granted && s.granted[slot.id] == slot)
    case Releasing(slotId, by_, pc) =>
      && (pc.PublishRecord? ==>
            pc.held.id == slotId && SameOwner(pc.held.owner, by_) && (s.files.slot == Some(pc.held) || slotId in s.files.releases))
      && (pc.RemoveFile? || pc.Freed? ==> pc.held.id == slotId && SameOwner(pc.held.owner, by_) && slotId in s.files.releases)
      && (pc.RemoveFile? ==> s.files.slot == Some(pc.held))
  }

  ghost predicate SlotsInv(s: State) {
    && (s.files.slot.Some? ==> s.files.slot.value.id in s.granted && s.granted[s.files.slot.value.id] == s.files.slot.value)
    && (forall id :: id in s.granted ==> id in s.minted && s.granted[id].id == id && Complete(s.granted[id].owner))
    && (forall id :: id in s.granted ==> id in s.files.releases || s.files.slot == Some(s.granted[id]))
    && (forall id :: id in s.files.releases ==>
          id in s.granted && s.files.releases[id].held == s.granted[id]
          && SameOwner(s.granted[id].owner, s.files.releases[id].releasedBy))
  }

  ghost predicate Inv(s: State) {
    && SlotsInv(s)
    && (forall pid :: pid in s.calls ==> CallInv(s, s.calls[pid]))
    && (forall p, q, id :: p in s.calls && q in s.calls && Removes(s.calls[p], id) && Removes(s.calls[q], id) ==> p == q)
    && (forall p, q :: p in s.calls && q in s.calls && SameRequest(s.calls[p], s.calls[q]) ==> p == q)
  }

  lemma StartKeeps(s: State, pid: Pid, call: Call)
    requires Inv(s) && Enabled(s, Start(pid, call))
    ensures Inv(Apply(s, Start(pid, call)))
  {
    hide SameOwner, Complete, CallInv, SlotsInv;
    var t := Apply(s, Start(pid, call));
    assert forall id :: !Removes(call, id);
    SlotsStarted(s, pid, call);
    forall p | p in s.calls ensures CallInv(t, s.calls[p]) && !SameRequest(s.calls[p], call) && !SameRequest(call, s.calls[p]) {
      CallStarted(s, pid, call, s.calls[p]);
    }
    NewCallStarted(s, pid, call);
  }

  lemma SlotsStarted(s: State, pid: Pid, call: Call)
    requires SlotsInv(s)
    ensures SlotsInv(Apply(s, Start(pid, call)))
  {
    hide SameOwner, Complete;
  }

  lemma CallStarted(s: State, pid: Pid, call: Call, c: Call)
    requires CallInv(s, c) && Enabled(s, Start(pid, call))
    ensures CallInv(Apply(s, Start(pid, call)), c) && !SameRequest(c, call)
  {
    hide SameOwner, Complete;
  }

  lemma NewCallStarted(s: State, pid: Pid, call: Call)
    requires Inv(s) && Enabled(s, Start(pid, call))
    ensures CallInv(Apply(s, Start(pid, call)), call)
  {
    hide SameOwner, Complete;
  }

  lemma CrashKeeps(s: State, pid: Pid)
    requires Inv(s)
    ensures Inv(Apply(s, Crash(pid)))
  {
    hide SameOwner;
  }

  /** Another call's operation cannot disturb what a call relies on. */
  lemma OthersKept(s: State, pid: Pid, other: Pid)
    requires Inv(s) && pid in s.calls && other in s.calls && other != pid
    ensures CallInv(Apply(s, Advance(pid)), s.calls[other])
  {
    hide SameOwner, Complete;
    var c, o := s.calls[pid], s.calls[other];
    assert CallInv(s, c) && CallInv(s, o);
    if c.Releasing? && c.releasePc.RemoveFile? {
      assert Removes(c, c.releasePc.held.id);
      assert Removes(o, c.releasePc.held.id) ==> other == pid;
    }
  }

  lemma MoverKept(s: State, pid: Pid)
    requires Inv(s) && pid in s.calls
    ensures var t := Apply(s, Advance(pid)); CallInv(t, t.calls[pid]) && SlotsInv(t)
  {
    hide SameOwner, Complete;
    assert CallInv(s, s.calls[pid]);
  }

  /** Only the call that published the release record removes. */
  lemma RemoverIsNew(s: State, pid: Pid, id: Id)
    requires Inv(s) && pid in s.calls && Removes(CallAfter(s.files, s.calls[pid]), id)
    ensures Removes(s.calls[pid], id) || id !in s.files.releases
  {
    hide SameOwner, Complete;
    assert CallInv(s, s.calls[pid]);
  }

  lemma AdvanceKeeps(s: State, pid: Pid)
    requires Inv(s) && pid in s.calls
    ensures Inv(Apply(s, Advance(pid)))
  {
    hide SameOwner, Complete, CallInv, SlotsInv, FilesAfter;
    var t := Apply(s, Advance(pid));
    MoverKept(s, pid);
    forall other | other in t.calls ensures CallInv(t, t.calls[other]) {
      if other != pid { OthersKept(s, pid, other); }
    }
    forall p, q, id | p in t.calls && q in t.calls && Removes(t.calls[p], id) && Removes(t.calls[q], id) ensures p == q {
      if p != q {
        var mover, other := if p == pid then p else q, if p == pid then q else p;
        if mover == pid {
          RemoverIsNew(s, pid, id);
          RemoverRecorded(s, other, id);
        }
      }
    }
  }

  lemma RemoverRecorded(s: State, pid: Pid, id: Id)
    requires Inv(s) && pid in s.calls && Removes(s.calls[pid], id)
    ensures id in s.files.releases
  {
    hide SameOwner;
    assert CallInv(s, s.calls[pid]);
  }

  lemma ApplyKeeps(s: State, event: Event)
    requires Inv(s) && Enabled(s, event)
    ensures Inv(Apply(s, event))
  {
    hide Inv, Enabled, Apply;
    match event
    case Start(pid, call) => StartKeeps(s, pid, call);
    case Advance(pid) => AdvancesKept(s, pid);
    case Crash(pid) => CrashKeeps(s, pid);
  }

  lemma AdvancesKept(s: State, pid: Pid)
    requires Inv(s)
    ensures Inv(Apply(s, Advance(pid)))
  {
    hide Inv, FilesAfter, CallAfter;
    if pid in s.calls { AdvanceKeeps(s, pid); }
  }

  lemma {:induction false} RunKeeps(s: State, events: seq<Event>)
    requires Inv(s) && ValidRun(s, events)
    ensures Inv(Run(s, events))
    decreases |events|
  {
    hide Inv, Enabled, Apply;
    if events != [] {
      ApplyKeeps(s, events[0]);
      RunKeeps(Apply(s, events[0]), events[1..]);
    }
  }

  lemma ReachableInv(s: State)
    requires Reachable(s)
    ensures Inv(s)
  {
    hide ValidRun, Run;
    var events :| ValidRun(INITIAL, events) && s == Run(INITIAL, events);
    RunKeeps(INITIAL, events);
  }

  // --- the promises ------------------------------------------------------------------------------

  /** At most one granted slot is not released, and it is the one in the file. */
  lemma OneHolder(s: State, a: Id, b: Id)
    requires Reachable(s)
    requires a in s.granted && b in s.granted && a !in s.files.releases && b !in s.files.releases
    ensures a == b && s.files.slot == Some(s.granted[a])
  {
    hide CallInv;
    ReachableInv(s);
  }

  /** A removal takes exactly the slot its call read, whose release its holder recorded before. */
  lemma RemovesOnlyItsOwn(s: State, pid: Pid)
    requires Reachable(s) && pid in s.calls && s.calls[pid].Releasing? && s.calls[pid].releasePc.RemoveFile?
    ensures var c := s.calls[pid];
            && s.files.slot == Some(c.releasePc.held) && c.releasePc.held.id == c.slotId
            && c.slotId in s.files.releases && SameOwner(c.releasePc.held.owner, s.files.releases[c.slotId].releasedBy)
            && Apply(s, Advance(pid)).files.slot.None?
  {
    hide SameOwner;
    ReachableInv(s);
    assert CallInv(s, s.calls[pid]);
  }

  /** Whatever else runs, a slot stays in the file until its release is recorded, by its holder. */
  lemma HeldUntilReleased(s: State, events: seq<Event>, slot: Slot)
    requires Reachable(s) && ValidRun(s, events) && s.files.slot == Some(slot)
    ensures var t := Run(s, events);
            if slot.id in t.files.releases then SameOwner(slot.owner, t.files.releases[slot.id].releasedBy)
            else t.files.slot == Some(slot)
  {
    hide SameOwner, ValidRun, Run, CallInv;
    ReachableInv(s);
    RunKeeps(s, events);
    GrantsStay(s, events);
  }

  lemma {:induction false} GrantsStay(s: State, events: seq<Event>)
    requires Inv(s) && ValidRun(s, events)
    ensures forall id :: id in s.granted ==> id in Run(s, events).granted && Run(s, events).granted[id] == s.granted[id]
    decreases |events|
  {
    hide Inv, FilesAfter, CallAfter, Enabled;
    if events != [] {
      ApplyKeeps(s, events[0]);
      GrantsStay(Apply(s, events[0]), events[1..]);
      GrantStays(s, events[0]);
    }
  }

  lemma GrantStays(s: State, event: Event)
    requires Inv(s)
    ensures forall id :: id in s.granted ==> id in Apply(s, event).granted && Apply(s, event).granted[id] == s.granted[id]
  {
    hide SlotsInv, FilesAfter, CallAfter;
    if event.Advance? && event.pid in s.calls {
      assert CallInv(s, s.calls[event.pid]);
    }
  }

  /** Of all the calls that release one slot, at most one ever succeeds. */
  lemma ReleasedOnce(s: State, p: Pid, q: Pid)
    requires Reachable(s) && p in s.calls && q in s.calls
    requires s.calls[p].Releasing? && s.calls[p].releasePc.Freed?
    requires s.calls[q].Releasing? && s.calls[q].releasePc.Freed? && s.calls[p].slotId == s.calls[q].slotId
    ensures p == q
  {
    ReachableInv(s);
    assert CallInv(s, s.calls[p]) && CallInv(s, s.calls[q]);
    assert Removes(s.calls[p], s.calls[p].slotId) && Removes(s.calls[q], s.calls[p].slotId);
  }

  // --- when a slot can be freed --------------------------------------------------------------------

  /** Recorded as released, still in the file, and no call left to remove it. */
  ghost predicate Stuck(s: State) {
    && s.files.slot.Some? && s.files.slot.value.id in s.files.releases
    && forall pid :: pid in s.calls ==> !Removing(s.calls[pid])
  }

  predicate Removing(c: Call) {
    c.Releasing? && c.releasePc.RemoveFile?
  }

  /** Only one thing sticks the slot: a process that exits between its record and its removal. */
  lemma StuckByCrash(s: State, event: Event)
    requires Reachable(s) && Enabled(s, event) && !Stuck(s) && Stuck(Apply(s, event))
    ensures event.Crash? && Removing(s.calls[event.pid])
  {
    hide Apply, Stuck, Removing, Inv;
    ReachableInv(s);
    match event
    case Start(pid, call) => StuckNotByStart(s, pid, call);
    case Advance(pid) => StuckNotByAdvance(s, pid);
    case Crash(pid) => if !Removing(s.calls[pid]) { StuckOnlyByLoss(s, pid); }
  }

  lemma StuckNotByStart(s: State, pid: Pid, call: Call)
    requires pid !in s.calls && !Stuck(s)
    ensures !Stuck(Apply(s, Start(pid, call)))
  {
    hide Removing;
    var t := Apply(s, Start(pid, call));
    assert forall p :: p in s.calls ==> t.calls[p] == s.calls[p];
  }

  lemma StuckOnlyByLoss(s: State, pid: Pid)
    requires pid in s.calls && !Stuck(s) && !Removing(s.calls[pid])
    ensures !Stuck(Apply(s, Crash(pid)))
  {
    hide Removing;
    var t := Apply(s, Crash(pid));
    assert forall p :: p in s.calls && p != pid ==> p in t.calls && t.calls[p] == s.calls[p];
  }

  lemma StuckNotByAdvance(s: State, pid: Pid)
    requires Inv(s) && pid in s.calls && !Stuck(s)
    ensures !Stuck(Apply(s, Advance(pid)))
  {
    hide SameOwner, Complete;
    var t := Apply(s, Advance(pid));
    assert CallInv(s, s.calls[pid]);
    assert forall p :: p in s.calls && p != pid ==> t.calls[p] == s.calls[p];
    if Removing(t.calls[pid]) { return; }
    if t.files.slot.Some? && t.files.slot.value.id in t.files.releases {
      assert t.files == s.files || s.files.slot.None?;
    }
  }

  /** And then for good: no later call takes, frees or changes it. */
  lemma {:induction false} StuckForGood(s: State, events: seq<Event>)
    requires Inv(s) && ValidRun(s, events) && Stuck(s)
    ensures Stuck(Run(s, events)) && Run(s, events).files.slot == s.files.slot
    decreases |events|
  {
    hide Inv, Stuck, FilesAfter, CallAfter;
    if events != [] {
      ApplyKeeps(s, events[0]);
      StuckStays(s, events[0]);
      StuckForGood(Apply(s, events[0]), events[1..]);
    }
  }

  lemma StuckStays(s: State, event: Event)
    requires Inv(s) && Enabled(s, event) && Stuck(s)
    ensures Stuck(Apply(s, event)) && Apply(s, event).files.slot == s.files.slot
  {
    hide SameOwner, Complete, SlotsInv;
    var t := Apply(s, event);
    if event.Advance? {
      assert CallInv(s, s.calls[event.pid]);
    }
    forall pid | pid in t.calls ensures !Removing(t.calls[pid]) {
      assert event.pid == pid || (pid in s.calls && t.calls[pid] == s.calls[pid]);
    }
  }

  lemma OwnRelease(s: State, pid: Pid, x: Slot) returns (events: seq<Event>)
    requires pid !in s.calls && s.files.slot == Some(x) && x.id !in s.files.releases && Complete(x.owner)
    ensures ValidRun(s, events) && Run(s, events).files.slot.None?
  {
    hide Complete;
    SameAsItself(x.owner);
    var t1 := Apply(s, Start(pid, Releasing(x.id, x.owner, BeginRelease)));
    var t2 := Apply(t1, Advance(pid));
    var t3 := Apply(t2, Advance(pid));
    var t4 := Apply(t3, Advance(pid));
    var t5 := Apply(t4, Advance(pid));
    assert t5.files.slot.None?;
    RunNone(t5);
    RunCons(t4, Advance(pid), []);
    RunCons(t3, Advance(pid), [Advance(pid)]);
    RunCons(t2, Advance(pid), [Advance(pid), Advance(pid)]);
    RunCons(t1, Advance(pid), [Advance(pid), Advance(pid), Advance(pid)]);
    events := [Start(pid, Releasing(x.id, x.owner, BeginRelease))] + [Advance(pid), Advance(pid), Advance(pid), Advance(pid)];
    RunCons(s, Start(pid, Releasing(x.id, x.owner, BeginRelease)), [Advance(pid), Advance(pid), Advance(pid), Advance(pid)]);
  }

  lemma SameAsItself(o: Owner)
    requires Complete(o)
    ensures SameOwner(o, o)
  {
  }

  /** The slot can still be freed exactly when no such process was lost. */
  lemma FreeableUnlessStuck(s: State, pid: Pid)
    requires Reachable(s) && pid !in s.calls
    ensures (exists events :: ValidRun(s, events) && Run(s, events).files.slot.None?) <==> !Stuck(s)
  {
    hide SameOwner, Complete, CallInv, ValidRun, Run, Apply;
    ReachableInv(s);
    if Stuck(s) {
      forall events | ValidRun(s, events) ensures Run(s, events).files.slot.Some? {
        StuckForGood(s, events);
      }
    } else if s.files.slot.None? {
      RunNone(s);
    } else if s.files.slot.value.id in s.files.releases {
      var p :| p in s.calls && Removing(s.calls[p]);
      RemovedNow(s, p);
    } else {
      var events := OwnRelease(s, pid, s.files.slot.value);
    }
  }

  lemma RemovedNow(s: State, p: Pid)
    requires p in s.calls && Removing(s.calls[p])
    ensures ValidRun(s, [Advance(p)]) && Run(s, [Advance(p)]).files.slot.None?
  {
    RunNone(Apply(s, Advance(p)));
    RunCons(s, Advance(p), []);
    assert [Advance(p)] + [] == [Advance(p)];
  }

  /** Such a loss can happen to any slot its holder is about to release. */
  lemma CrashSticks(s: State, pid: Pid, x: Slot) returns (events: seq<Event>)
    requires pid !in s.calls && s.files.slot == Some(x) && x.id !in s.files.releases && Complete(x.owner)
    requires forall p :: p in s.calls ==> !Removing(s.calls[p])
    ensures ValidRun(s, events) && Stuck(Run(s, events))
  {
    hide Complete;
    SameAsItself(x.owner);
    var start := Start(pid, Releasing(x.id, x.owner, BeginRelease));
    var t1 := Apply(s, start);
    var t2 := Apply(t1, Advance(pid));
    var t3 := Apply(t2, Advance(pid));
    var t4 := Apply(t3, Advance(pid));
    var t5 := Apply(t4, Crash(pid));
    assert Stuck(t5);
    RunNone(t5);
    RunCons(t4, Crash(pid), []);
    RunCons(t3, Advance(pid), [Crash(pid)]);
    RunCons(t2, Advance(pid), [Advance(pid), Crash(pid)]);
    RunCons(t1, Advance(pid), [Advance(pid), Advance(pid), Crash(pid)]);
    events := [start] + [Advance(pid), Advance(pid), Advance(pid), Crash(pid)];
    RunCons(s, start, [Advance(pid), Advance(pid), Advance(pid), Crash(pid)]);
  }

  // --- the object ----------------------------------------------------------------------------------

  /** `n` operations of one call with nobody else moving; a finished call stays as it is. */
  function Alone(f: Files, c: Call, n: nat): (Files, Call)
    decreases n
  {
    if n == 0 then (f, c) else Alone(FilesAfter(f, c), CallAfter(f, c), n - 1)
  }

  lemma FourAlone(f: Files, c: Call)
    ensures Alone(f, c, 3) == Alone(FilesAfter(f, c), CallAfter(f, c), 2)
    ensures Alone(f, c, 4) == Alone(FilesAfter(f, c), CallAfter(f, c), 3)
  {
    hide FilesAfter, CallAfter;
  }

  /** A request run alone is granted if and only if the identity is complete and the slot is free. */
  lemma RequestAnswers(f: Files, request: Slot, g: Files, outcome: RequestPc)
    requires Alone(f, Requesting(request, BeginRequest), 3) == (g, Requesting(request, outcome))
    ensures outcome == Granted <==> Complete(request.owner) && f.slot.None?
    ensures forall held :: outcome == Denied(held) <==> Complete(request.owner) && f.slot.Some? && held == f.slot
    ensures outcome == Incomplete <==> !Complete(request.owner)
    ensures g == if outcome == Granted then f.(slot := Some(request)) else f
  {
    hide Complete;
    FourAlone(f, Requesting(request, BeginRequest));
  }

  /** A release run alone frees the slot if and only if its holder names it and it was not recorded before. */
  lemma ReleaseAnswers(f: Files, slotId: Id, by_: Owner, g: Files, outcome: ReleasePc)
    requires Alone(f, Releasing(slotId, by_, BeginRelease), 4) == (g, Releasing(slotId, by_, outcome))
    ensures var current := f.slot.Some? && f.slot.value.id == slotId;
            && (outcome == Threw(IncompleteOwner) <==> !Complete(by_))
            && (outcome == Threw(NotCurrent) <==> Complete(by_) && !current)
            && (outcome == Threw(NotHolder) <==> Complete(by_) && current && !SameOwner(f.slot.value.owner, by_))
            && (outcome == Threw(AlreadyReleased) <==> Complete(by_) && current && SameOwner(f.slot.value.owner, by_) && slotId in f.releases)
            && (outcome.Freed? <==> Complete(by_) && current && SameOwner(f.slot.value.owner, by_) && slotId !in f.releases)
            && (g == if outcome.Freed? then Files(None, f.releases[slotId := SlotRelease(f.slot.value, by_)]) else f)
  {
    hide Complete, SameOwner;
    var c := Releasing(slotId, by_, BeginRelease);
    FourAlone(f, c);
    FourAlone(f, CallAfter(f, c));
  }

  class SlotFolder {
    var slot: Option<Slot>
    var releases: map<Id, SlotRelease>

    ghost function Model(): Files
      reads this
    {
      Files(slot, releases)
    }

    constructor ()
      ensures Model() == INITIAL.files
    {
      slot, releases := None, map[];
    }

    method RequestSlot(request: Slot) returns (outcome: RequestPc)
      modifies this
      ensures Alone(old(Model()), Requesting(request, BeginRequest), 3) == (Model(), Requesting(request, outcome))
      ensures outcome.Granted? || outcome.Denied? || outcome.Incomplete?
    {
      hide Complete;
      FourAlone(Model(), Requesting(request, BeginRequest));
      if !Complete(request.owner) { return Incomplete; }
      if slot.None? {
        slot := Some(request);
        return Granted;
      }
      return Denied(slot);
    }

    /** The release is recorded before the file is removed, so a second call removes nothing. */
    method ReleaseSlot(slotId: Id, by_: Owner) returns (outcome: ReleasePc)
      modifies this
      ensures Alone(old(Model()), Releasing(slotId, by_, BeginRelease), 4) == (Model(), Releasing(slotId, by_, outcome))
      ensures outcome.Freed? || outcome.Threw?
    {
      hide Complete, SameOwner;
      FourAlone(Model(), Releasing(slotId, by_, BeginRelease));
      FourAlone(Model(), CallAfter(Model(), Releasing(slotId, by_, BeginRelease)));
      if !Complete(by_) { return Threw(IncompleteOwner); }
      if slot.None? || slot.value.id != slotId { return Threw(NotCurrent); }
      var held := slot.value;
      if !SameOwner(held.owner, by_) { return Threw(NotHolder); }
      if held.id in releases { return Threw(AlreadyReleased); }
      releases := releases[held.id := SlotRelease(held, by_)];
      slot := None;
      return Freed(held);
    }
  }
}
