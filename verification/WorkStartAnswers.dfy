/** What a press of Start and its replies are answered, from the tab they find. */
module WorkStartAnswers {
  import opened Text
  import opened Json
  import opened SavedRecords
  import opened SavedStarts
  import opened WorkStart
  import opened WorkStartSafety

  // --- the first turn -----------------------------------------------------------------------------

  /** A press with a readable input and project. */
  predicate Readable(projectId: Units, v: Value) {
    Filled(projectId, 100) && Normalize(v).Ok?
  }

  /** The saved start of the task, if its record can be read and there is one. */
  /**
   * Each press is answered when and only when its reason holds: it joins the request on its way if that has the
   * same input; it sends the saved start if there is one with the same input; and with nothing saved and
   * nothing on its way it is saved under the new id and sent, unless there is no room for it.
   */
  lemma PressAnswers(t: Tab, projectId: Units, v: Value, mint: Units, saves: bool)
    ensures var (u, r) := Start(t, projectId, v, mint, saves);
            && (r == InvalidInput <==> !Readable(projectId, v))
            && (Readable(projectId, v) ==>
                  var input := Normalize(v).value;
                  var k := Key(projectId, input.taskId);
                  && (r == Damaged <==> Read(t, k).Err?)
                  && (r == EarlierUnresolved <==> exists p :: Holds(t, k, p) && p.input != input)
                  && (r == Joined <==> !r.Damaged? && !r.EarlierUnresolved? && k in t.inFlight && t.inFlight[k].pending.input == input)
                  && (r == Unresolved <==> !r.Damaged? && !r.EarlierUnresolved? && k in t.inFlight && t.inFlight[k].pending.input != input)
                  && (r == TooMany <==> Read(t, k) == Ok(None) && k !in t.inFlight && |t.storage| >= 32)
                  && (r == Unavailable <==> Read(t, k) == Ok(None) && k !in t.inFlight && |t.storage| < 32 && !saves)
                  && (forall p :: r == Sent(p) <==>
                        k !in t.inFlight
                        && ((Holds(t, k, p) && p.input == input)
                            || (Read(t, k) == Ok(None) && |t.storage| < 32 && saves && p == Pending(mint, projectId, input.taskId, input)))))
            && (if r.Sent? then u.posts == t.posts + [r.pending] && KeyOf(r.pending) in u.inFlight && u.inFlight[KeyOf(r.pending)].pending == r.pending
                else u == t)
  {
    hide Normalize, Filled, ReadPending, Saved;
    if Readable(projectId, v) {
      var k := Key(projectId, Normalize(v).value.taskId);
      if Read(t, k).Ok? && Read(t, k).value.Some? { ReadsItsKey(t, k, Read(t, k).value.value); }
    }
  }

  // --- the replies -----------------------------------------------------------------------------------

  /** A session confirms a start if and only if its receipt is the one for exactly this command. */
  lemma ConfirmsIff(s: Session, p: Pending)
    ensures Confirms(s, p) <==>
              && Filled(s.id, 100) && s.taskId == p.taskId
              && exists digest :: IsDigest(digest) && s.receipt == Some(Receipt(1, p.commandId, p.projectId, p.taskId, p.input.route, s.id, SCOPE, digest))
  {
    hide Filled, IsDigest, SCOPE, Ascii;
    if Confirms(s, p) {
      assert s.receipt == Some(Receipt(1, p.commandId, p.projectId, p.taskId, p.input.route, s.id, SCOPE, s.receipt.value.payloadDigest));
    }
  }

  predicate Receipted(s: Session, commandId: Units) {
    s.receipt.Some? && s.receipt.value.commandId == commandId
  }

  /** Of the sessions listed for a command the last one counts. */
  lemma {:induction false} SessionForIs(sessions: seq<Session>, commandId: Units)
    ensures match SessionFor(sessions, commandId)
            case None => forall i :: 0 <= i < |sessions| ==> !Receipted(sessions[i], commandId)
            case Some(s) =>
              exists i :: 0 <= i < |sessions| && sessions[i] == s && Receipted(s, commandId)
                          && forall j :: i < j < |sessions| ==> !Receipted(sessions[j], commandId)
    decreases |sessions|
  {
    if sessions != [] {
      var init := sessions[..|sessions| - 1];
      SessionForIs(init, commandId);
      if !Receipted(sessions[|sessions| - 1], commandId) && SessionFor(init, commandId).Some? {
        var i :| 0 <= i < |init| && init[i] == SessionFor(init, commandId).value && Receipted(init[i], commandId)
                 && forall j :: i < j < |init| ==> !Receipted(init[j], commandId);
        assert sessions[i] == init[i];
      }
    }
  }

  predicate Accepts(reply: Reply, p: Pending) {
    reply.Answered? && Confirms(reply.session, p)
  }

  /** A client error other than a timeout. */
  predicate Refuses(reply: Reply) {
    reply.HttpError? && 400 <= reply.status <= 499 && reply.status != 408
  }

  /** Neither confirmed nor finally refused. */
  predicate Uncertain(reply: Reply, p: Pending) {
    !Accepts(reply, p) && !Refuses(reply)
  }

  /** The request on its way under `k`, answered, and answered again if it is sent again. */
  function Replied(t: Tab, k: Key, first: Reply, clears: bool, second: Reply, clearsThen: bool): (Tab, Outcome)
    requires k in t.inFlight
  {
    var (u, outcome) := Settle(t, k, first, clears);
    if outcome.Retrying? then Settle(u, k, second, clearsThen) else (u, outcome)
  }

  /**
   * What becomes of a request: at most one more goes out, and only after an uncertain first reply. It is
   * confirmed by either reply; refused by a final one; and its record goes exactly when it is confirmed, or
   * refused at once for a start never sent before, and the browser can remove it.
   */
  lemma RepliesAnswer(t: Tab, k: Key, first: Reply, clears: bool, second: Reply, clearsThen: bool)
    requires k in t.inFlight && t.inFlight[k].attempt == 0
    ensures var f := t.inFlight[k];
            var p, again := f.pending, Uncertain(first, f.pending);
            var (u, outcome) := Replied(t, k, first, clears, second, clearsThen);
            && u.posts == t.posts + (if again then [p] else []) && k !in u.inFlight
            && (outcome == Confirmed <==> Accepts(first, p) || (again && Accepts(second, p)))
            && (outcome == Refused <==> (!Accepts(first, p) && Refuses(first)) || (again && !Accepts(second, p) && Refuses(second)))
            && (outcome == Unconfirmed <==> again && Uncertain(second, p))
            && u.storage == (if ((Accepts(first, p) || (Refuses(first) && !f.uncertain)) && clears) || (again && Accepts(second, p) && clearsThen)
                             then t.storage - {k} else t.storage)
  {
    hide Confirms;
  }
}
