/** Waiting on a native sign-in window: a timed state machine folded over status payloads. */
module SignInWait {
  import opened Text

  datatype Wait = Idle | Open | Checking | Unconfirmed

  datatype Watch = Watch(state: Wait, startedAt: int, endedAt: Option<int>)

  const SETTLE: int := 4_000
  const WINDOW: int := 600_000
  const LIMIT: int := WINDOW + SETTLE

  const NOT_SIGNING_IN: Watch := Watch(Idle, 0, None)

  datatype Window = WindowIdle | WindowRunning

  /** One row of a status payload; `checkedAt` is None when it is null or no date. */
  datatype Row = Row(engine: string, window: Option<Window>, checkedAt: Option<int>)

  // --- one route ---------------------------------------------------------------------------------

  /** The watch once time alone has acted on it: a spent open or checking wait is given up. */
  function TimedOut(w: Watch, now: int): Watch {
    match w.state
    case Open => if now - w.startedAt >= WINDOW then w.(state := Unconfirmed) else w
    case Checking =>
      var endedAt := if w.endedAt.Some? then w.endedAt.value else w.startedAt;
      if now - endedAt >= SETTLE then Watch(Unconfirmed, w.startedAt, Some(endedAt)) else w
    case _ => w
  }

  /** The watch after one payload row; only a check newer than the start makes it idle. */
  function AdvanceSignIn(watch: Option<Watch>, row: Row, now: int): Watch {
    var current := if watch.Some? then watch.value else NOT_SIGNING_IN;
    match row.window
    case None => TimedOut(current, now)
    case Some(WindowRunning) =>
      if current.state == Unconfirmed then current
      else TimedOut(Watch(Open, if current.state == Open then current.startedAt else now, None), now)
    case Some(WindowIdle) =>
      if current.state == Idle then NOT_SIGNING_IN
      else if row.checkedAt.Some? && row.checkedAt.value > current.startedAt then NOT_SIGNING_IN
      else if current.state == Unconfirmed then current
      else TimedOut(Watch(Checking, current.startedAt, Some(if current.endedAt.Some? then current.endedAt.value else now)), now)
  }

  /** A window in play suspends the card's own next action. */
  predicate SigningIn(watch: Option<Watch>) {
    watch.Some? && (watch.value.state == Open || watch.value.state == Checking)
  }

  /** What the map keeps of a watch: nothing once it is idle. */
  function Kept(w: Watch): Option<Watch> {
    if w.state == Idle then None else Some(w)
  }

  function RowsOf(rows: seq<Row>, engine: string): seq<Row> {
    if rows == [] then []
    else RowsOf(rows[..|rows| - 1], engine) + (if rows[|rows| - 1].engine == engine then [rows[|rows| - 1]] else [])
  }

  /** One route's share of a payload: the clock first, then its own rows in order. */
  function Fold(watch: Option<Watch>, rows: seq<Row>, now: int): Option<Watch> {
    if rows == [] then (if watch.Some? then Kept(TimedOut(watch.value, now)) else None)
    else Kept(AdvanceSignIn(Fold(watch, rows[..|rows| - 1], now), rows[|rows| - 1], now))
  }

  function Find(watches: map<string, Watch>, engine: string): Option<Watch> {
    if engine in watches then Some(watches[engine]) else None
  }

  // --- the whole payload -----------------------------------------------------------------------------

  /** The fold across a payload; every route's result is its own fold, whatever the others do. */
  method AdvanceWatches(previous: map<string, Watch>, rows: seq<Row>, now: int) returns (next: map<string, Watch>)
    ensures forall engine :: Find(next, engine) == Fold(Find(previous, engine), RowsOf(rows, engine), now)
  {
    hide TimedOut, AdvanceSignIn;
    next := map[];
    var engines := previous.Keys;
    while engines != {}
      invariant engines <= previous.Keys
      invariant forall engine :: Find(next, engine) == if engine in engines then None else Fold(Find(previous, engine), [], now)
      decreases engines
    {
      var engine :| engine in engines;
      engines := engines - {engine};
      ClockKeeps(previous[engine], now);
      if previous[engine].state != Idle { next := next[engine := TimedOut(previous[engine], now)]; }
    }
    for i := 0 to |rows|
      invariant forall engine :: Find(next, engine) == Fold(Find(previous, engine), RowsOf(rows[..i], engine), now)
    {
      ghost var before := next;
      var value := AdvanceSignIn(Find(next, rows[i].engine), rows[i], now);
      if value.state == Idle { next := next - {rows[i].engine}; } else { next := next[rows[i].engine := value]; }
      assert rows[..i + 1][..i] == rows[..i];
      forall engine ensures Find(next, engine) == Fold(Find(previous, engine), RowsOf(rows[..i + 1], engine), now) {
        OneMoreRow(Find(previous, engine), rows[..i + 1], engine, now);
      }
    }
    assert rows[..|rows|] == rows;
  }

  lemma ClockKeeps(w: Watch, now: int)
    ensures Kept(TimedOut(w, now)) == if w.state != Idle then Some(TimedOut(w, now)) else None
  {
  }

  lemma OneMoreRow(watch: Option<Watch>, rows: seq<Row>, engine: string, now: int)
    requires rows != []
    ensures var row, before := rows[|rows| - 1], Fold(watch, RowsOf(rows[..|rows| - 1], engine), now);
            Fold(watch, RowsOf(rows, engine), now) == if row.engine == engine then Kept(AdvanceSignIn(before, row, now)) else before
  {
    hide AdvanceSignIn, TimedOut;
    var init := RowsOf(rows[..|rows| - 1], engine);
    if rows[|rows| - 1].engine == engine {
      assert RowsOf(rows, engine)[..|init|] == init;
    } else {
      assert RowsOf(rows, engine) == init;
    }
  }

  // --- the bound ---------------------------------------------------------------------------------------

  /** What a watch left by a fold at `now` satisfies. */
  predicate Timely(watch: Option<Watch>, now: int) {
    watch.Some? ==>
      var w := watch.value;
      && w.state != Idle && w.startedAt <= now
      && (w.state == Open ==> w.endedAt.None? && now < w.startedAt + WINDOW)
      && (w.state == Checking ==>
            w.endedAt.Some? && w.startedAt <= w.endedAt.value <= now && w.endedAt.value < w.startedAt + WINDOW && now < w.endedAt.value + SETTLE)
  }

  lemma ClockTimely(watch: Option<Watch>, was: int, now: int)
    requires Timely(watch, was) && was <= now
    ensures Timely(Fold(watch, [], now), now)
  {
  }

  lemma RowTimely(watch: Option<Watch>, row: Row, now: int)
    requires Timely(watch, now)
    ensures Timely(Kept(AdvanceSignIn(watch, row, now)), now)
  {
  }

  lemma {:induction false} FoldTimely(watch: Option<Watch>, rows: seq<Row>, was: int, now: int)
    requires Timely(watch, was) && was <= now
    ensures Timely(Fold(watch, rows, now), now)
    decreases |rows|
  {
    hide Timely, AdvanceSignIn;
    if rows == [] {
      ClockTimely(watch, was, now);
    } else {
      FoldTimely(watch, rows[..|rows| - 1], was, now);
      RowTimely(Fold(watch, rows[..|rows| - 1], now), rows[|rows| - 1], now);
    }
  }

  /** One status read: what the payload says of one route, and when. */
  datatype Tick = Tick(rows: seq<Row>, now: int)

  predicate Nondecreasing(ticks: seq<Tick>) {
    forall i, j :: 0 <= i < j < |ticks| ==> ticks[i].now <= ticks[j].now
  }

  /** What one route is waiting on after these reads, starting with nothing. */
  function After(ticks: seq<Tick>): Option<Watch> {
    if ticks == [] then None else Fold(After(ticks[..|ticks| - 1]), ticks[|ticks| - 1].rows, ticks[|ticks| - 1].now)
  }

  lemma {:induction false} RunTimely(ticks: seq<Tick>)
    requires ticks != [] && Nondecreasing(ticks)
    ensures Timely(After(ticks), ticks[|ticks| - 1].now)
    decreases |ticks|
  {
    hide Timely, Fold;
    var last := ticks[|ticks| - 1];
    if |ticks| == 1 {
      NothingTimely(last.now);
      FoldTimely(None, last.rows, last.now, last.now);
      assert After(ticks[..0]) == None;
    } else {
      RunTimely(ticks[..|ticks| - 1]);
      FoldTimely(After(ticks[..|ticks| - 1]), last.rows, ticks[|ticks| - 2].now, last.now);
    }
  }

  lemma NothingTimely(now: int)
    ensures Timely(None, now)
  {
  }

  /** However the payloads go, a control is hidden only within 604,000 ms of its wait's own start. */
  lemma HiddenOnlyWithinLimit(ticks: seq<Tick>)
    requires ticks != [] && Nondecreasing(ticks) && SigningIn(After(ticks))
    ensures var w, now := After(ticks).value, ticks[|ticks| - 1].now; w.startedAt <= now < w.startedAt + 604_000
  {
    hide After;
    RunTimely(ticks);
  }

  // --- each window, however it is reported -----------------------------------------------------------------

  /** No window seen yet; the latest one running since it was first seen so, or ended. */
  datatype Phase = Unseen | Running(since: int) | Over(since: int)

  function RowPhase(p: Phase, row: Row, now: int): Phase {
    match row.window
    case None => p
    case Some(WindowRunning) =>
      if p.Running? then p else Running(now)
    case Some(WindowIdle) => (match p case Running(since) => Over(since) case _ => p)
  }

  function RowsPhase(p: Phase, rows: seq<Row>, now: int): Phase {
    if rows == [] then p else RowPhase(RowsPhase(p, rows[..|rows| - 1], now), rows[|rows| - 1], now)
  }

  /** Where the window stands after these reads; one that runs after another ended is a new one. */
  function PhaseAfter(ticks: seq<Tick>): Phase {
    if ticks == [] then Unseen else RowsPhase(PhaseAfter(ticks[..|ticks| - 1]), ticks[|ticks| - 1].rows, ticks[|ticks| - 1].now)
  }

  predicate Follows(watch: Option<Watch>, p: Phase) {
    match p
    case Unseen => watch.None?
    case Running(since) => watch.Some? ==> watch.value == Watch(Open, since, None) || watch.value.state == Unconfirmed
    case Over(since) => watch.Some? ==> (watch.value.state == Checking && watch.value.startedAt == since) || watch.value.state == Unconfirmed
  }

  predicate Waits(watch: Option<Watch>, p: Phase) {
    p.Running? ==> watch.Some?
  }

  lemma RowFollows(watch: Option<Watch>, p: Phase, row: Row, now: int)
    requires Follows(watch, p) && Waits(watch, p) && (watch.Some? ==> watch.value.state != Idle)
    ensures Follows(Kept(AdvanceSignIn(watch, row, now)), RowPhase(p, row, now)) && Waits(Kept(AdvanceSignIn(watch, row, now)), RowPhase(p, row, now))
  {
  }

  lemma {:induction false} RowsFollow(watch: Option<Watch>, p: Phase, rows: seq<Row>, was: int, now: int)
    requires Follows(watch, p) && Waits(watch, p) && Timely(watch, was) && was <= now
    ensures Follows(Fold(watch, rows, now), RowsPhase(p, rows, now)) && Waits(Fold(watch, rows, now), RowsPhase(p, rows, now))
    decreases |rows|
  {
    hide AdvanceSignIn, RowPhase;
    if rows != [] {
      var init := rows[..|rows| - 1];
      RowsFollow(watch, p, init, was, now);
      FoldTimely(watch, init, was, now);
      RowFollows(Fold(watch, init, now), RowsPhase(p, init, now), rows[|rows| - 1], now);
    }
  }

  lemma {:induction false} RunFollows(ticks: seq<Tick>)
    requires Nondecreasing(ticks)
    ensures Follows(After(ticks), PhaseAfter(ticks)) && Waits(After(ticks), PhaseAfter(ticks))
    decreases |ticks|
  {
    hide Fold, Follows, Waits, Timely, RowsPhase;
    if ticks == [] {
      NothingFollows();
    } else {
      var init, last := ticks[..|ticks| - 1], ticks[|ticks| - 1];
      RunFollows(init);
      if init == [] {
        NothingTimely(last.now);
        RowsFollow(After(init), PhaseAfter(init), last.rows, last.now, last.now);
      } else {
        RunTimely(init);
        RowsFollow(After(init), PhaseAfter(init), last.rows, init[|init| - 1].now, last.now);
      }
    }
  }

  lemma NothingFollows()
    ensures Follows(None, Unseen) && Waits(None, Unseen)
  {
  }

  /**
   * However many windows came before and whatever else is reported, the control is hidden only for the latest
   * window, from when that one was first seen, and at most until 604,000 ms after that.
   */
  lemma OneWindowIsBounded(ticks: seq<Tick>)
    requires ticks != [] && Nondecreasing(ticks) && SigningIn(After(ticks))
    ensures var p, w := PhaseAfter(ticks), After(ticks).value;
            && !p.Unseen? && w.startedAt == p.since && (w.state == Open <==> p.Running?)
            && ticks[|ticks| - 1].now < p.since + 604_000
  {
    hide After, PhaseAfter;
    HiddenOnlyWithinLimit(ticks);
    RunFollows(ticks);
  }

  predicate Answers(row: Row, w: Watch) {
    row.window == Some(WindowIdle) && row.checkedAt.Some? && row.checkedAt.value > w.startedAt
  }

  // --- a window that ended --------------------------------------------------------------------------------

  /** An open wait whose window is reported ended, without an answer, waits for the check from then on. */
  lemma EndedWindowIsChecked(watch: Option<Watch>, rows: seq<Row>, row: Row, now: int)
    requires Fold(watch, rows, now).Some? && Fold(watch, rows, now).value.state == Open
    requires row.window == Some(WindowIdle) && !Answers(row, Fold(watch, rows, now).value) && Fold(watch, rows, now).value.endedAt.None?
    ensures Fold(watch, rows + [row], now) == Some(Watch(Checking, Fold(watch, rows, now).value.startedAt, Some(now)))
  {
    assert (rows + [row])[..|rows|] == rows;
  }

  /** And with no answer and no other window it waits exactly 4,000 ms. */
  lemma {:induction false} CheckingHidesExactlyFourSeconds(w: Watch, rows: seq<Row>, now: int)
    requires w.state == Checking && w.endedAt.Some?
    requires forall i :: 0 <= i < |rows| ==> rows[i].window != Some(WindowRunning) && !Answers(rows[i], w)
    ensures Fold(Some(w), rows, now) == Some(w.(state := if now < w.endedAt.value + 4_000 then Checking else Unconfirmed))
    ensures SigningIn(Fold(Some(w), rows, now)) <==> now < w.endedAt.value + 4_000
    decreases |rows|
  {
    if rows != [] { CheckingHidesExactlyFourSeconds(w, rows[..|rows| - 1], now); }
  }

  // --- a second window -------------------------------------------------------------------------------

  /** A window opened while the check of another is awaited begins a wait of its own. */
  lemma SecondWindowWaitsAnew(watch: Option<Watch>, rows: seq<Row>, row: Row, now: int)
    requires Fold(watch, rows, now).Some? && Fold(watch, rows, now).value.state == Checking && row.window == Some(WindowRunning)
    ensures Fold(watch, rows + [row], now) == Some(Watch(Open, now, None))
  {
    assert (rows + [row])[..|rows|] == rows;
  }

  /** And no check made before that wait began ends it, in whatever rows it is reported. */
  lemma {:induction false} OldCheckEndsNothing(w: Watch, rows: seq<Row>, now: int)
    requires w.state != Idle && w.startedAt <= now
    requires forall i :: 0 <= i < |rows| ==> (rows[i].checkedAt.Some? ==> rows[i].checkedAt.value <= w.startedAt)
    ensures Fold(Some(w), rows, now).Some? && w.startedAt <= Fold(Some(w), rows, now).value.startedAt <= now
    decreases |rows|
  {
    if rows != [] { OldCheckEndsNothing(w, rows[..|rows| - 1], now); }
  }

  // --- how a given-up wait ends ---------------------------------------------------------------------

  /** A wait given up stays exactly as it is until a check newer than its start is seen with the window not running. */
  lemma {:induction false} UnconfirmedStays(w: Watch, rows: seq<Row>, now: int)
    requires w.state == Unconfirmed && forall i :: 0 <= i < |rows| ==> !Answers(rows[i], w)
    ensures Fold(Some(w), rows, now) == Some(w)
    decreases |rows|
  {
    if rows != [] { UnconfirmedStays(w, rows[..|rows| - 1], now); }
  }

  /** And one such row, the only one for its route, ends it. */
  lemma UnconfirmedEndsIffAnswered(w: Watch, row: Row, now: int)
    requires w.state == Unconfirmed
    ensures Fold(Some(w), [row], now) != Some(w) <==> Answers(row, w)
    ensures Answers(row, w) ==> Fold(Some(w), [row], now).None?
  {
    assert [row][..0] == [];
  }

  /** What a payload's earlier rows leave waiting, given up or not, the next row ends if and only if it answers it. */
  lemma AnswerEndsAnyWait(watch: Option<Watch>, rows: seq<Row>, row: Row, now: int)
    requires Fold(watch, rows, now).Some?
    ensures Fold(watch, rows + [row], now).None? <==> Answers(row, Fold(watch, rows, now).value)
  {
    assert (rows + [row])[..|rows|] == rows;
  }

  // --- a window that keeps running -----------------------------------------------------------------------

  predicate KeepsRunning(ticks: seq<Tick>) {
    forall i :: 0 <= i < |ticks| ==> ticks[i].rows != [] && forall r :: r in ticks[i].rows ==> r.window == Some(WindowRunning)
  }

  lemma {:induction false} RunningRows(watch: Option<Watch>, rows: seq<Row>, since: int, now: int)
    requires rows != [] && (forall r :: r in rows ==> r.window == Some(WindowRunning)) && since <= now
    requires if watch.None? then since == now
             else watch.value == Watch(Open, since, None) || watch.value == Watch(Unconfirmed, since, None)
    ensures Fold(watch, rows, now) ==
              Some(Watch(if now < since + WINDOW && (watch.None? || watch.value.state == Open) then Open else Unconfirmed, since, None))
    decreases |rows|
  {
    var init, last := rows[..|rows| - 1], rows[|rows| - 1];
    assert last in rows;
    if init == [] {
      assert rows[..0] == [];
    } else {
      RunningRows(watch, init, since, now);
    }
  }

  /** A window that keeps running hides the control for exactly its ten minutes, counted from when it was first seen. */
  lemma {:induction false} RunningHidesExactlyTenMinutes(ticks: seq<Tick>)
    requires ticks != [] && Nondecreasing(ticks) && KeepsRunning(ticks)
    ensures var since, now := ticks[0].now, ticks[|ticks| - 1].now;
            && After(ticks) == Some(Watch(if now < since + 600_000 then Open else Unconfirmed, since, None))
            && (SigningIn(After(ticks)) <==> now < since + 600_000)
    decreases |ticks|
  {
    hide Fold;
    var init, last := ticks[..|ticks| - 1], ticks[|ticks| - 1];
    if init == [] {
      assert ticks[..0] == [] && After([]) == None;
      RunningRows(None, last.rows, last.now, last.now);
    } else {
      RunningHidesExactlyTenMinutes(init);
      RunningRows(After(init), last.rows, ticks[0].now, last.now);
    }
  }

  /** Rows about other routes, wherever they stand in the payload, change nothing for this one. */
  lemma OtherRowsChangeNothing(before: seq<Row>, other: Row, after: seq<Row>, watch: Option<Watch>, engine: string, now: int)
    requires other.engine != engine
    ensures Fold(watch, RowsOf(before + [other] + after, engine), now) == Fold(watch, RowsOf(before + after, engine), now)
  {
    hide Fold;
    OtherRowDrops(before, other, after, engine);
  }

  lemma {:induction false} OtherRowDrops(before: seq<Row>, other: Row, after: seq<Row>, engine: string)
    requires other.engine != engine
    ensures RowsOf(before + [other] + after, engine) == RowsOf(before + after, engine)
    decreases |after|
  {
    if after == [] {
      assert before + [other] + after == before + [other] && before + after == before;
      assert (before + [other])[..|before|] == before;
    } else {
      var init := after[..|after| - 1];
      OtherRowDrops(before, other, init, engine);
      assert (before + [other] + after)[..|before| + |after|] == before + [other] + init;
      assert (before + after)[..|before| + |after| - 1] == before + init;
    }
  }

  /**
   * The bound needs the clock folded first, as `AdvanceWatches` does: one row folded on its own keeps
   * an overdue open wait alive exactly when it says the window ended and brings no newer check.
   */
  lemma RowAloneOutlivesLimit(w: Watch, row: Row, now: int)
    requires w.state == Open && w.endedAt.None? && now >= w.startedAt + LIMIT
    ensures SigningIn(Kept(AdvanceSignIn(Some(w), row, now))) <==> row.window == Some(WindowIdle) && !Answers(row, w)
    ensures !SigningIn(Fold(Some(w), [], now))
  {
  }
}
