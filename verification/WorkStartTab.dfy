/** The tab as an object: each method is one turn of `work-start.ts` between awaits. */
module WorkStartTab {
  import opened Text
  import opened Json
  import opened SavedRecords
  import opened SavedStarts
  import opened WorkStart

  class WorkStarts {
    var storage: map<Key, Units>
    var inFlight: map<Key, Flight>
    ghost var posts: seq<Pending>
    ghost var confirmed: set<Units>
    ghost var refused: set<Units>
    ghost var bodies: map<Units, Pending>

    ghost function Model(): Tab
      reads this
    {
      Tab(storage, inFlight, posts, confirmed, refused, bodies)
    }

    constructor (kept: map<Key, Units>)
      ensures Model() == Tab(kept, map[], [], {}, {}, map[])
    {
      storage, inFlight, posts, confirmed, refused, bodies := kept, map[], [], {}, {}, map[];
    }

    method ReadRecord(k: Key) returns (r: Result<Option<Pending>, Failure>)
      ensures r == Read(Model(), k)
    {
      r := ReadPending(if k in storage then Some(storage[k]) else None, k.projectId, k.taskId);
    }

    /** Up to the first request. A minted command is in storage before its request goes out. */
    method StartWork(projectId: Units, v: Value, mint: Units, saves: bool) returns (r: StartResult)
      modifies this
      ensures (Model(), r) == Start(old(Model()), projectId, v, mint, saves)
    {
      hide Read, Filled, Normalize, Resumed, Minted;
      var input := Normalize(v);
      if !Filled(projectId, 100) || input.Err? { return InvalidInput; }
      var k := Key(projectId, input.value.taskId);
      var saved := ReadRecord(k);
      if saved.Err? { return Damaged; }
      if saved.value.Some? && saved.value.value.input != input.value { return EarlierUnresolved; }
      if k in inFlight {
        return if inFlight[k].pending.input != input.value then Unresolved else Joined;
      }
      if saved.value.Some? {
        SendSaved(k, saved.value.value);
        return Sent(saved.value.value);
      }
      if |storage| >= MAX_PENDING { return TooMany; }
      if !saves { return Unavailable; }
      var pending := Pending(mint, projectId, input.value.taskId, input.value);
      SaveAndSend(k, pending);
      return Sent(pending);
    }

    method SendSaved(k: Key, p: Pending)
      modifies this
      ensures Model() == Resumed(old(Model()), k, p)
    {
      inFlight := inFlight[k := Flight(p, true, 0)];
      posts, refused := posts + [p], refused - {p.commandId};
    }

    method SaveAndSend(k: Key, p: Pending)
      modifies this
      ensures Model() == Minted(old(Model()), k, p)
    {
      hide Saved;
      storage := storage[k := Saved(p)];
      bodies := bodies[p.commandId := p];
      inFlight := inFlight[k := Flight(p, false, 0)];
      posts, refused := posts + [p], refused - {p.commandId};
    }

    /** One answer to the request on its way under this key. */
    method Settle(k: Key, reply: Reply, clears: bool) returns (outcome: Outcome)
      requires k in inFlight
      modifies this
      ensures (Model(), outcome) == WorkStart.Settle(old(Model()), k, reply, clears)
    {
      hide Confirms;
      var f := inFlight[k];
      if reply.Answered? && Confirms(reply.session, f.pending) {
        ClearPending(k, f.pending, true, clears);
        inFlight := inFlight - {k};
        return Confirmed;
      }
      if Final(reply) {
        if !f.uncertain { ClearPending(k, f.pending, false, clears); }
        inFlight := inFlight - {k};
        return Refused;
      }
      if f.attempt >= 1 {
        inFlight := inFlight - {k};
        return Unconfirmed;
      }
      inFlight := inFlight[k := Flight(f.pending, true, f.attempt + 1)];
      posts, refused := posts + [f.pending], refused - {f.pending.commandId};
      return Retrying;
    }

    method ClearPending(k: Key, p: Pending, accepted: bool, clears: bool)
      modifies this`storage, this`confirmed, this`refused
      ensures Model() == Cleared(old(Model()), k, p, accepted, clears)
    {
      if accepted { confirmed := confirmed + {p.commandId}; } else { refused := refused + {p.commandId}; }
      if clears { storage := storage - {k}; }
    }

    /** Reads every saved start of the project once, and clears those the listed sessions confirm. */
    method ReconcileWorkStarts(projectId: Units, sessions: seq<Session>, stuck: set<Key>)
      modifies this`storage, this`confirmed, this`refused
      ensures Model() == Reconciled(old(Model()), projectId, sessions, stuck)
    {
      hide Read, ConfirmedBy, ConfirmedIn, IdsOf, Cleansed, Reconciled;
      ghost var was := Model();
      var keys := set k | k in storage && k.projectId == projectId;
      assert keys == ProjectKeys(was, projectId);
      if |keys| > MAX_PENDING { TooManyToCheck(was, projectId, sessions, stuck); return; }
      ghost var done, all: set<Key> := {}, keys;
      NothingConfirmed(was, sessions, stuck);
      while keys != {}
        invariant done + keys == all && done !! keys
        invariant Model() == Cleansed(was, sessions, stuck, done)
        decreases keys
      {
        var k :| k in keys;
        keys := keys - {k};
        ReconcileOne(was, k, sessions, stuck, done);
        done := done + {k};
      }
      assert done == all;
      AllConfirmed(was, projectId, sessions, stuck, all);
    }

    method ReconcileOne(ghost was: Tab, k: Key, sessions: seq<Session>, stuck: set<Key>, ghost done: set<Key>)
      requires k in was.storage && k !in done && Model() == Cleansed(was, sessions, stuck, done)
      modifies this`storage, this`confirmed, this`refused
      ensures Model() == Cleansed(was, sessions, stuck, done + {k})
    {
      hide Read, Confirms, ReadPending, ConfirmedIn, IdsOf, SessionFor, Cleansed;
      StillStored(was, sessions, stuck, done, k);
      var saved := ReadRecord(k);
      SameRead(was, Model(), k);
      AddConfirmed(was, sessions, stuck, done, k);
      if saved.Ok? && saved.value.Some? {
        var session := SessionFor(sessions, saved.value.value.commandId);
        if session.Some? && Confirms(session.value, saved.value.value) {
          ClearPending(k, saved.value.value, true, k !in stuck);
        }
      }
    }
  }

  /** The tab once these keys have been checked. */
  function Cleansed(t: Tab, sessions: seq<Session>, stuck: set<Key>, keys: set<Key>): Tab {
    var known := ConfirmedIn(t, sessions, keys);
    t.(storage := t.storage - (known - stuck), confirmed := t.confirmed + IdsOf(t, known))
  }

  /** Which of these keys the sessions confirm. */
  function ConfirmedIn(t: Tab, sessions: seq<Session>, keys: set<Key>): (r: set<Key>)
    ensures forall k :: k in r <==> k in keys && ConfirmedBy(t, sessions, k)
    ensures forall k :: k in r ==> Read(t, k).Ok? && Read(t, k).value.Some?
  {
    set k | k in keys && ConfirmedBy(t, sessions, k)
  }

  function IdsOf(t: Tab, keys: set<Key>): set<Units>
    requires forall k :: k in keys ==> Read(t, k).Ok? && Read(t, k).value.Some?
  {
    set k | k in keys :: Read(t, k).value.value.commandId
  }

  lemma SameRead(t: Tab, u: Tab, k: Key)
    requires k in t.storage && k in u.storage && u.storage[k] == t.storage[k]
    ensures Read(u, k) == Read(t, k)
  {
    hide ReadPending;
  }

  lemma TooManyToCheck(t: Tab, projectId: Units, sessions: seq<Session>, stuck: set<Key>)
    requires |ProjectKeys(t, projectId)| > MAX_PENDING
    ensures Reconciled(t, projectId, sessions, stuck) == t
  {
    hide ConfirmedBy, Read;
  }

  lemma NothingConfirmed(t: Tab, sessions: seq<Session>, stuck: set<Key>)
    ensures Cleansed(t, sessions, stuck, {}) == t
  {
    hide ConfirmedBy, Read;
    assert ConfirmedIn(t, sessions, {}) == {};
    assert t.storage - ({} - stuck) == t.storage;
  }

  lemma StillStored(t: Tab, sessions: seq<Session>, stuck: set<Key>, keys: set<Key>, k: Key)
    requires k in t.storage && k !in keys
    ensures var u := Cleansed(t, sessions, stuck, keys); k in u.storage && u.storage[k] == t.storage[k]
  {
    hide ConfirmedBy, Read;
  }

  /** Checking one more key clears it and settles its id if it is confirmed, and changes nothing if not. */
  lemma AddConfirmed(t: Tab, sessions: seq<Session>, stuck: set<Key>, keys: set<Key>, k: Key)
    ensures var before, after := Cleansed(t, sessions, stuck, keys), Cleansed(t, sessions, stuck, keys + {k});
            if ConfirmedBy(t, sessions, k) then after == Cleared(before, k, Read(t, k).value.value, true, k !in stuck) else after == before
  {
    hide Read, ConfirmedBy, IdsOf;
    var before, after := ConfirmedIn(t, sessions, keys), ConfirmedIn(t, sessions, keys + {k});
    if ConfirmedBy(t, sessions, k) {
      assert after == before + {k};
      OneMoreId(t, before, k);
      assert t.storage - (after - stuck) == if k !in stuck then t.storage - (before - stuck) - {k} else t.storage - (before - stuck);
    } else {
      assert after == before;
    }
  }

  lemma OneMoreId(t: Tab, keys: set<Key>, k: Key)
    requires forall j :: j in keys + {k} ==> Read(t, j).Ok? && Read(t, j).value.Some?
    ensures IdsOf(t, keys + {k}) == IdsOf(t, keys) + {Read(t, k).value.value.commandId}
  {
    hide Read;
  }

  lemma AllConfirmed(t: Tab, projectId: Units, sessions: seq<Session>, stuck: set<Key>, all: set<Key>)
    requires all == ProjectKeys(t, projectId) && |all| <= MAX_PENDING
    ensures Cleansed(t, sessions, stuck, all) == Reconciled(t, projectId, sessions, stuck)
  {
    hide ConfirmedBy, Read;
    assert ConfirmedIn(t, sessions, all) == set k | k in t.storage && k.projectId == projectId && ConfirmedBy(t, sessions, k);
  }
}
