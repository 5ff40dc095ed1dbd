/** One conversation, sent on from any number of browser windows, one storage or network step at a time. */
module ConversationSend {
  import opened Text

  type Id = nat
  type Window = nat
  type Pid = nat

  datatype Mode = Ask | Plan | Auto

  datatype Source = Source(path: string, sha: string)

  datatype Input = Input(text: string, mode: Mode, sources: seq<Source>, agent: Option<string>)

  datatype Pending = Pending(id: Id, input: Input)

  /** The mirrored claim: no record yet, settled, or the message that is pending. */
  datatype Mirror = Unset | Settled | Holding(claim: Pending)

  /** What one window reads of local storage: a claim and the last confirmed command, each perhaps long out of date. */
  datatype View = View(claim: Option<Pending>, last: Option<Id>)

  datatype How = Confirmed | RefusedFirst | DiscardedByPerson | ReadBack

  datatype Post = Post(by_: Pid, pending: Pending)

  /**
   * `mirror` is common to all windows, `views` is theirs one by one. `posts` (requests sent), `resolved` (how an id
   * came to be settled, unless it was sent again since) and `bodies` (the input each id was minted for) are history.
   */
  datatype Store = Store(mirror: Mirror, views: map<Window, View>, posts: seq<Post>, resolved: map<Id, How>, bodies: map<Id, Input>)

  function ViewOf(s: Store, w: Window): View {
    if w in s.views then s.views[w] else View(None, None)
  }

  /** What counts as pending inside the lock: the mirror's word, and window `w`'s copy only while the mirror is unset. */
  function Held(s: Store, w: Window): Option<Pending> {
    match s.mirror
    case Unset => ViewOf(s, w).claim
    case Settled => None
    case Holding(claim) => Some(claim)
  }

  predicate Holds(s: Store, w: Window, id: Id) {
    Held(s, w).Some? && Held(s, w).value.id == id
  }

  function WithClaim(s: Store, w: Window, claim: Option<Pending>): Store {
    s.(views := s.views[w := ViewOf(s, w).(claim := claim)])
  }

  function WithLast(s: Store, w: Window, id: Id): Store {
    s.(views := s.views[w := ViewOf(s, w).(last := Some(id))])
  }

  /** The server showed its answer to this id; nothing takes that back. */
  predicate HasAnswer(s: Store, id: Id) {
    id in s.resolved && (s.resolved[id].Confirmed? || s.resolved[id].ReadBack?)
  }

  function Resolve(s: Store, id: Id, how: How): Store {
    if HasAnswer(s, id) then s else s.(resolved := s.resolved[id := how])
  }

  /** A request goes out. Whatever settled its id before, short of an answer, no longer does. */
  function WithPost(s: Store, pid: Pid, pending: Pending): Store {
    s.(posts := s.posts + [Post(pid, pending)], resolved := if HasAnswer(s, pending.id) then s.resolved else s.resolved - {pending.id})
  }

  // --- one call -------------------------------------------------------------------------------

  datatype Kind =
    | Send(input: Input, newId: Id)
    | Resend(id: Id)
    | Discard(id: Id)
    | Cleanup(id: Id)

  /** What a cleanup was for. */
  datatype After = ThenSend | ThenConfirmed | ThenRefused | ThenDiscarded(held: bool) | ThenCleaned

  datatype Outcome =
    | Sent | Refused | RefusedAfterUncertain | Unconfirmed | Earlier | Stopped
    | Answered | Elsewhere | Failed | GaveUp(held: bool) | Cleaned

  datatype Pc =
    | Waiting
    | ReadClaim
    | ClearRead(id: Id, after: After)
    | ClearWrite(id: Id, after: After)
    | Saving(pending: Pending, minted: bool)
    | Posting(pending: Pending, uncertain: bool, attempt: nat)
    | Awaiting(pending: Pending, uncertain: bool, attempt: nat)
    | Reading(id: Id)
    | Done(outcome: Outcome)

  datatype Call = Call(pid: Pid, window: Window, kind: Kind, pc: Pc)

  datatype Answer = Confirms | FinalError | Unknown

  datatype Lookup = Found | Missing | LookupFailed

  /** What the world answers at this step: whether the person pressed Stop, and the server's reply. */
  datatype Choice = Choice(stopped: bool, answer: Answer, lookup: Lookup)

  function Granted(kind: Kind, stopped: bool): Pc {
    match kind
    case Resend(_) => if stopped then Done(Stopped) else ReadClaim
    case Cleanup(id) => ClearRead(id, ThenCleaned)
    case _ => ReadClaim
  }

  /** Which command a send is: the pending one if it is the same message, a new one if none is pending. */
  function Decided(kind: Kind, claim: Option<Pending>, stopped: bool): Pc {
    if !kind.Send? then Done(Cleaned)
    else if claim.Some? && claim.value.input != kind.input then Done(Earlier)
    else if stopped then Done(Stopped)
    else if claim.Some? then Saving(claim.value, false)
    else Saving(Pending(kind.newId, kind.input), true)
  }

  /** A minted claim goes to local storage first. */
  function WithMinted(s: Store, w: Window, pc: Pc): Store {
    if pc.Saving? && pc.minted
    then WithClaim(s.(bodies := s.bodies[pc.pending.id := pc.pending.input]), w, Some(pc.pending))
    else s
  }

  function AfterClear(kind: Kind, after: After, stopped: bool): Pc {
    match after
    case ThenSend => Decided(kind, None, stopped)
    case ThenConfirmed => Done(Sent)
    case ThenRefused => Done(Refused)
    case ThenDiscarded(held) => Done(GaveUp(held))
    case ThenCleaned => Done(Cleaned)
  }

  /** What finishing a cleanup writes besides: the last confirmed command, or a newly minted claim. */
  function WithAfter(s: Store, w: Window, kind: Kind, id: Id, after: After, stopped: bool): Store {
    match after
    case ThenConfirmed => WithLast(s, w, id)
    case ThenSend => WithMinted(s, w, Decided(kind, None, stopped))
    case _ => s
  }

  function PcNext(s: Store, c: Call, choice: Choice): Pc {
    var w := c.window;
    match c.pc
    case Waiting => Granted(c.kind, choice.stopped)
    case ReadClaim =>
      (match c.kind
       case Send(_, _) =>
         if Held(s, w).Some? && ViewOf(s, w).last == Some(Held(s, w).value.id)
         then ClearRead(Held(s, w).value.id, ThenSend)
         else Decided(c.kind, Held(s, w), choice.stopped)
       case Resend(id) => if Holds(s, w, id) then Posting(Held(s, w).value, true, 0) else Reading(id)
       case Discard(id) => ClearRead(id, ThenDiscarded(Holds(s, w, id)))
       case Cleanup(id) => ClearRead(id, ThenCleaned))
    case ClearRead(id, after) => if Holds(s, w, id) then ClearWrite(id, after) else AfterClear(c.kind, after, choice.stopped)
    case ClearWrite(id, after) => AfterClear(c.kind, after, choice.stopped)
    case Saving(pending, minted) => Posting(pending, !minted, 0)
    case Posting(pending, uncertain, attempt) => Awaiting(pending, uncertain, attempt)
    case Awaiting(pending, uncertain, attempt) =>
      (match choice.answer
       case Confirms => ClearRead(pending.id, ThenConfirmed)
       case FinalError => if uncertain then Done(RefusedAfterUncertain) else ClearRead(pending.id, ThenRefused)
       case Unknown => if choice.stopped || attempt > 0 then Done(Unconfirmed) else Posting(pending, true, attempt + 1))
    case Reading(id) =>
      (match choice.lookup case Found => Done(Answered) case Missing => Done(Elsewhere) case LookupFailed => Done(Failed))
    case Done(_) => c.pc
  }

  /** The store after a read of the claim: `w`'s copy equals a set mirror, and is untouched by an unset one. */
  function Synced(s: Store, w: Window): Store {
    if s.mirror.Unset? then s else WithClaim(s, w, Held(s, w))
  }

  function StoreNext(s: Store, c: Call, choice: Choice): Store {
    var w := c.window;
    match c.pc
    case ReadClaim => WithMinted(Synced(s, w), w, PcNext(s, c, choice))
    case ClearRead(id, after) =>
      if Holds(s, w, id) then WithClaim(Synced(s, w), w, None) else WithAfter(Synced(s, w), w, c.kind, id, after, choice.stopped)
    case ClearWrite(id, after) =>
      var settled := s.(mirror := Settled);
      WithAfter(if after.ThenDiscarded? then Resolve(settled, id, DiscardedByPerson) else settled, w, c.kind, id, after, choice.stopped)
    case Saving(pending, _) => s.(mirror := Holding(pending))
    case Posting(pending, _, _) => WithPost(s, c.pid, pending)
    case Awaiting(pending, uncertain, _) =>
      if choice.answer.Confirms? then Resolve(s, pending.id, Confirmed)
      else if choice.answer.FinalError? && !uncertain then Resolve(s, pending.id, RefusedFirst)
      else s
    case Reading(id) => if choice.lookup.Found? then WithLast(Resolve(s, id, ReadBack), w, id) else s
    case _ => s
  }

  function CallNext(s: Store, c: Call, choice: Choice): Call {
    c.(pc := PcNext(s, c, choice))
  }

  // --- any number of calls, interleaved ----------------------------------------------------------

  /** `issued` holds every id a send was given to mint, used or not. */
  datatype State = State(store: Store, calls: map<Pid, Call>, lock: Option<Pid>, issued: set<Id>)

  datatype Event =
    | Start(call: Call)
    | Advance(pid: Pid, choice: Choice)
    | Close(pid: Pid)
    | Drift(window: Window, view: View)

  predicate Posted(s: Store, id: Id) {
    exists i :: 0 <= i < |s.posts| && s.posts[i].pending.id == id
  }

  /**
   * A new send is given an id never issued before. Only a waiting call's first step needs the lock
   * to be free. The server can only show a message it was sent. A window's copy of local storage
   * may turn into anything that was ever written there; only an answered id is ever remembered as last.
   */
  predicate Enabled(s: State, event: Event) {
    match event
    case Start(call) =>
      && call.pid !in s.calls && call.pc.Waiting?
      && (call.kind.Send? ==> call.kind.newId !in s.issued)
      && (call.kind.Cleanup? ==> ViewOf(s.store, call.window).last == Some(call.kind.id))
    case Advance(pid, choice) =>
      && pid in s.calls
      && (s.calls[pid].pc.Waiting? ==> s.lock.None?)
      && (s.calls[pid].pc.Reading? && choice.lookup.Found? ==> Posted(s.store, s.calls[pid].pc.id))
    case Close(pid) => pid in s.calls
    case Drift(window, view) =>
      && (view.claim.Some? ==> view.claim.value.id in s.store.bodies && s.store.bodies[view.claim.value.id] == view.claim.value.input)
      && (view.last.Some? ==> HasAnswer(s.store, view.last.value))
  }

  /** The lock is held from a call's first step to its end. */
  predicate Inside(c: Call) {
    !c.pc.Waiting? && !c.pc.Done?
  }

  function Apply(s: State, event: Event): State {
    match event
    case Start(call) =>
      s.(calls := s.calls[call.pid := call], issued := if call.kind.Send? then s.issued + {call.kind.newId} else s.issued)
    case Advance(pid, choice) =>
      if pid !in s.calls then s
      else
        var next := CallNext(s.store, s.calls[pid], choice);
        s.(store := StoreNext(s.store, s.calls[pid], choice), calls := s.calls[pid := next],
           lock := if Inside(next) then Some(pid) else if Inside(s.calls[pid]) then None else s.lock)
    case Close(pid) => s.(calls := s.calls - {pid}, lock := if s.lock == Some(pid) then None else s.lock)
    case Drift(window, view) => s.(store := s.store.(views := s.store.views[window := view]))
  }

  predicate ValidRun(s: State, events: seq<Event>)
    decreases |events|
  {
    events == [] || (Enabled(s, events[0]) && ValidRun(Apply(s, events[0]), events[1..]))
  }

  function Run(s: State, events: seq<Event>): State
    decreases |events|
  {
    if events == [] then s else Run(Apply(s, events[0]), events[1..])
  }

  lemma RunCons(s: State, event: Event, events: seq<Event>)
    requires Enabled(s, event) && ValidRun(Apply(s, event), events)
    ensures ValidRun(s, [event] + events) && Run(s, [event] + events) == Run(Apply(s, event), events)
  {
    hide Enabled, Apply;
    assert ([event] + events)[1..] == events;
  }

  lemma {:induction false} RunConcat(s: State, a: seq<Event>, b: seq<Event>)
    requires ValidRun(s, a) && ValidRun(Run(s, a), b)
    ensures ValidRun(s, a + b) && Run(s, a + b) == Run(Run(s, a), b)
    decreases |a|
  {
    hide Enabled, Apply;
    if a == [] {
      assert a + b == b;
    } else {
      RunConcat(Apply(s, a[0]), a[1..], b);
      assert a + b == [a[0]] + (a[1..] + b);
      RunCons(s, a[0], a[1..] + b);
    }
  }
}
