/** store.py: the correlation table of one rule and group, as a function of every hit processed so far. */
module Correlation {
  import opened Timestamps

  datatype Hit = Hit(time: Stamp, eventId: string)

  /** One record_correlation_hit call. */
  datatype Pass = Pass(hit: Hit, within: nat)

  function Start(p: Pass): Stamp {
    Stamp(p.hit.time.seconds - p.within, p.hit.time.micro)
  }

  predicate Holds(table: set<Hit>, eventId: string) {
    exists h :: h in table && h.eventId == eventId
  }

  /** INSERT OR IGNORE, keyed by event. */
  function Insert(table: set<Hit>, hit: Hit): set<Hit> {
    if Holds(table, hit.eventId) then table else table + {hit}
  }

  function Evict(table: set<Hit>, start: Stamp): set<Hit> {
    set h | h in table && !StoredBefore(h.time, start)
  }

  function Process(table: set<Hit>, p: Pass): set<Hit> {
    Evict(Insert(table, p.hit), Start(p))
  }

  function Table(history: seq<Pass>): set<Hit> {
    if history == [] then {} else Process(Table(history[..|history| - 1]), history[|history| - 1])
  }

  predicate InStoredWindow(h: Hit, p: Pass) {
    !StoredBefore(h.time, Start(p)) && !StoredBefore(p.hit.time, h.time)
  }

  function Window(table: set<Hit>, p: Pass): set<Hit> {
    set h | h in table && InStoredWindow(h, p)
  }

  // ---- The table against the whole history ----

  /** An event keeps its identity and time from pass to pass. */
  ghost predicate IdsAgree(history: seq<Pass>) {
    forall i, j :: 0 <= i < |history| && 0 <= j < |history| && history[i].hit.eventId == history[j].hit.eventId
      ==> history[i].hit == history[j].hit
  }

  /** Processed at i, and evicted by no window from then on. */
  ghost predicate Survives(history: seq<Pass>, i: nat, h: Hit) {
    && i < |history| && history[i].hit == h
    && forall j :: i <= j < |history| ==> !StoredBefore(h.time, Start(history[j]))
  }

  lemma {:induction false} TableFromHistory(history: seq<Pass>, h: Hit)
    ensures h in Table(history) ==> exists i :: 0 <= i < |history| && history[i].hit == h
  {
    if history != [] {
      var init := history[..|history| - 1];
      TableFromHistory(init, h);
      if h in Table(init) {
        var i :| 0 <= i < |init| && init[i].hit == h;
        assert history[i].hit == h;
      }
    }
  }

  /** The table keeps one row per event, whatever times the passes gave it. */
  lemma {:induction false} OneRowPerEvent(history: seq<Pass>, g: Hit, h: Hit)
    requires g in Table(history) && h in Table(history) && g.eventId == h.eventId
    ensures g == h
  {
    var n := |history| - 1;
    var before, hit := Table(history[..n]), history[n].hit;
    if g in before && h in before {
      OneRowPerEvent(history[..n], g, h);
    } else {
      assert g in Insert(before, hit) && h in Insert(before, hit);
    }
  }

  lemma SurvivorStays(history: seq<Pass>, i: nat, h: Hit)
    requires |history| > 0 && i < |history| - 1 && Survives(history[..|history| - 1], i, h)
    requires !StoredBefore(h.time, Start(history[|history| - 1]))
    ensures Survives(history, i, h)
  {
  }

  /** The last pass's own hit is in the table before the eviction, under its one identity. */
  lemma LastInserted(history: seq<Pass>)
    requires IdsAgree(history) && history != []
    ensures var n := |history| - 1; history[n].hit in Insert(Table(history[..n]), history[n].hit)
  {
    var n := |history| - 1;
    if Holds(Table(history[..n]), history[n].hit.eventId) {
      var g :| g in Table(history[..n]) && g.eventId == history[n].hit.eventId;
      TableFromHistory(history[..n], g);
      var k :| 0 <= k < n && history[..n][k].hit == g;
      assert history[k].hit == history[n].hit;
    }
  }

  /** For every order of arrival, the table holds exactly the hits that no later window has evicted. */
  lemma {:induction false} TableIsSurvivors(history: seq<Pass>, h: Hit)
    requires IdsAgree(history)
    ensures h in Table(history) <==> exists i :: Survives(history, i, h)
  {
    if history != [] {
      var n := |history| - 1;
      var init, last := history[..n], history[n];
      TableIsSurvivors(init, h);
      LastInserted(history);
      if h in Table(history) {
        if h in Table(init) {
          var i :| Survives(init, i, h);
          SurvivorStays(history, i, h);
        } else {
          assert Survives(history, n, h);
        }
      }
      if i: nat :| Survives(history, i, h) {
        assert i < n ==> Survives(init, i, h);
      }
    }
  }

  /** So a reply misses a hit of its window exactly when a pass since that hit's last one evicted it. */
  lemma MissedExactlyWhenEvicted(history: seq<Pass>, h: Hit)
    requires IdsAgree(history) && history != [] && InStoredWindow(h, history[|history| - 1])
    ensures h !in Window(Table(history), history[|history| - 1]) <==>
      forall i :: 0 <= i < |history| && history[i].hit == h ==>
        exists j :: i <= j < |history| && StoredBefore(h.time, Start(history[j]))
  {
    TableIsSurvivors(history, h);
    if h !in Table(history) {
      forall i | 0 <= i < |history| && history[i].hit == h
        ensures exists j :: i <= j < |history| && StoredBefore(h.time, Start(history[j]))
      {
        assert !Survives(history, i, h);
      }
    } else {
      var i :| Survives(history, i, h);
    }
  }

  ghost predicate InStoredOrder(history: seq<Pass>) {
    forall i, j :: 0 <= i < j < |history| ==> !StoredBefore(history[j].hit.time, history[i].hit.time)
  }

  function HistoryWindow(history: seq<Pass>, p: Pass): set<Hit> {
    set i | 0 <= i < |history| && InStoredWindow(history[i].hit, p) :: history[i].hit
  }

  /** A later pass of the same length starts no earlier. */
  lemma StartsInOrder(t: Stamp, p: Pass, q: Pass)
    requires p.within == q.within && !StoredBefore(p.hit.time, q.hit.time)
    requires !StoredBefore(t, Start(p))
    ensures !StoredBefore(t, Start(q))
  {
  }

  lemma LastWindowSurvives(history: seq<Pass>, within: nat, i: nat, h: Hit)
    requires InStoredOrder(history) && i < |history| && history[i].hit == h
    requires forall j :: 0 <= j < |history| ==> history[j].within == within
    requires InStoredWindow(h, history[|history| - 1])
    ensures Survives(history, i, h)
  {
    var n := |history| - 1;
    forall j | i <= j < |history| ensures !StoredBefore(h.time, Start(history[j])) {
      if j < n {
        assert !StoredBefore(history[n].hit.time, history[j].hit.time);
        StartsInOrder(h.time, history[n], history[j]);
      }
    }
  }

  /** When events arrive in stored order under one window length, eviction is invisible: the reply is the
      window over the full history. */
  lemma InStoredOrderIsFullHistory(history: seq<Pass>, within: nat)
    requires IdsAgree(history) && InStoredOrder(history) && history != []
    requires forall i :: 0 <= i < |history| ==> history[i].within == within
    ensures var p := history[|history| - 1]; Window(Table(history), p) == HistoryWindow(history, p)
  {
    var p := history[|history| - 1];
    forall h | h in HistoryWindow(history, p) ensures h in Window(Table(history), p) {
      var i :| 0 <= i < |history| && InStoredWindow(history[i].hit, p) && history[i].hit == h;
      LastWindowSurvives(history, within, i, h);
      TableIsSurvivors(history, h);
    }
    forall h | h in Window(Table(history), p) ensures h in HistoryWindow(history, p) {
      TableFromHistory(history, h);
    }
  }

  // ---- The window on text against the window on time ----

  predicate InTrueWindow(h: Hit, p: Pass) {
    !Before(h.time, Start(p)) && !Before(p.hit.time, h.time)
  }

  function Micros(t: Stamp): int {
    t.seconds * 1_000_000 + t.micro
  }

  /** In time, the window holds the hits that are not newer than the event and at most its length older. */
  lemma TrueWindowIsAge(h: Hit, p: Pass)
    requires h.time.micro < 1_000_000 && p.hit.time.micro < 1_000_000
    ensures InTrueWindow(h, p) <==> 0 <= Micros(p.hit.time) - Micros(h.time) <= p.within * 1_000_000
  {
  }

  /** Membership decided on stored text differs from membership in time exactly for a hit in the same second
      as an edge of the window when one of the two has a fraction and the other has none. */
  lemma StoredWindowIsTrueWindow(h: Hit, p: Pass)
    requires p.within >= 1
    ensures (InStoredWindow(h, p) <==> InTrueWindow(h, p)) <==>
      !(Mixed(h.time, p.hit.time) || Mixed(h.time, Start(p)))
  {
  }

  // ---- Arrival in time order ----

  ghost predicate InTimeOrder(history: seq<Pass>) {
    forall i, j :: 0 <= i < j < |history| ==> !Before(history[j].hit.time, history[i].hit.time)
  }

  /** One rule's history: events keep their time, and every pass has the rule's window. */
  ghost predicate OneWindow(history: seq<Pass>, within: nat) {
    within >= 1 && IdsAgree(history) && forall i :: 0 <= i < |history| ==> history[i].within == within
  }

  /** Some pass's window starts on the whole second of the hit, which has a fraction: the hit is later than
      that start, and its text is smaller. */
  predicate Clipped(history: seq<Pass>, h: Hit) {
    h.time.micro > 0 && exists j :: 0 <= j < |history| && Start(history[j]) == Stamp(h.time.seconds, 0)
  }

  /** Under arrival in time order, a pass that evicts a hit of the last window started on the hit's second. */
  lemma EvictorClips(history: seq<Pass>, within: nat, h: Hit, j: nat)
    requires OneWindow(history, within) && InTimeOrder(history) && j < |history|
    requires InStoredWindow(h, history[|history| - 1]) && StoredBefore(h.time, Start(history[j]))
    ensures Clipped(history, h)
  {
    assert j < |history| - 1 ==> !Before(history[|history| - 1].hit.time, history[j].hit.time);
    assert Start(history[j]) == Stamp(h.time.seconds, 0);
  }

  lemma UnclippedSurvives(history: seq<Pass>, within: nat, i: nat, h: Hit)
    requires OneWindow(history, within) && InTimeOrder(history) && i < |history| && history[i].hit == h
    requires InStoredWindow(h, history[|history| - 1]) && !Clipped(history, h)
    ensures Survives(history, i, h)
  {
    forall j | i <= j < |history| ensures !StoredBefore(h.time, Start(history[j])) {
      if StoredBefore(h.time, Start(history[j])) {
        EvictorClips(history, within, h, j);
      }
    }
  }

  /** A pass that clips a hit comes after it, and no pass brings the hit back. */
  lemma ClippedIsGone(history: seq<Pass>, within: nat, h: Hit, i: nat)
    requires OneWindow(history, within) && InTimeOrder(history) && Clipped(history, h)
    ensures !Survives(history, i, h)
  {
    var j :| 0 <= j < |history| && Start(history[j]) == Stamp(h.time.seconds, 0);
    assert j < i < |history| ==> !Before(history[i].hit.time, history[j].hit.time);
  }

  /** When events arrive in time order, the reply holds exactly the hits of the full history that lie in the
      stored window and were not clipped. */
  lemma ReplyInTimeOrder(history: seq<Pass>, within: nat, h: Hit)
    requires OneWindow(history, within) && InTimeOrder(history) && history != []
    ensures var p := history[|history| - 1];
      h in Window(Table(history), p) <==> h in HistoryWindow(history, p) && !Clipped(history, h)
  {
    var p := history[|history| - 1];
    TableIsSurvivors(history, h);
    if h in HistoryWindow(history, p) && !Clipped(history, h) {
      var i :| 0 <= i < |history| && InStoredWindow(history[i].hit, p) && history[i].hit == h;
      UnclippedSurvives(history, within, i, h);
    }
    if h in Window(Table(history), p) {
      var i :| Survives(history, i, h);
      if Clipped(history, h) {
        ClippedIsGone(history, within, h, i);
      }
    }
  }

  /** So under arrival in time order the reply equals the window over the full history if and only if no hit
      of that window was clipped. */
  lemma InTimeOrderExactly(history: seq<Pass>, within: nat)
    requires OneWindow(history, within) && InTimeOrder(history) && history != []
    ensures var p := history[|history| - 1];
      Window(Table(history), p) == HistoryWindow(history, p) <==>
        forall h :: h in HistoryWindow(history, p) ==> !Clipped(history, h)
  {
    var p := history[|history| - 1];
    forall h ensures h in Window(Table(history), p) <==> h in HistoryWindow(history, p) && !Clipped(history, h) {
      ReplyInTimeOrder(history, within, h);
    }
  }

  function TrueWindow(history: seq<Pass>, p: Pass): set<Hit> {
    set i | 0 <= i < |history| && InTrueWindow(history[i].hit, p) :: history[i].hit
  }

  /** The text misplaces the hit at an edge of the last window, or an earlier pass clipped it. */
  predicate Misplaced(history: seq<Pass>, h: Hit, p: Pass) {
    Mixed(h.time, p.hit.time) || Mixed(h.time, Start(p)) || (InTrueWindow(h, p) && Clipped(history, h))
  }

  /** And it equals the window in time if and only if no hit of the history is misplaced. */
  lemma InTimeOrderIsTrueWindowExactly(history: seq<Pass>, within: nat)
    requires OneWindow(history, within) && InTimeOrder(history) && history != []
    ensures var p := history[|history| - 1];
      Window(Table(history), p) == TrueWindow(history, p) <==>
        forall i :: 0 <= i < |history| ==> !Misplaced(history, history[i].hit, p)
  {
    var p := history[|history| - 1];
    forall h
      ensures h in Window(Table(history), p) <==> h in HistoryWindow(history, p) && !Clipped(history, h)
    {
      ReplyInTimeOrder(history, within, h);
    }
    forall i | 0 <= i < |history|
      ensures (history[i].hit in Window(Table(history), p) <==> history[i].hit in TrueWindow(history, p))
        <==> !Misplaced(history, history[i].hit, p)
    {
      MisplacedExactly(history, within, i);
    }
  }

  lemma MisplacedExactly(history: seq<Pass>, within: nat, i: nat)
    requires OneWindow(history, within) && InTimeOrder(history) && i < |history|
    ensures var p, h := history[|history| - 1], history[i].hit;
      (h in Window(Table(history), p) <==> h in TrueWindow(history, p)) <==> !Misplaced(history, h, p)
  {
    var p, h := history[|history| - 1], history[i].hit;
    ReplyInTimeOrder(history, within, h);
    StoredWindowIsTrueWindow(h, p);
    assert !Before(p.hit.time, h.time);
  }

  function ClippedHistory(): seq<Pass> {
    [Pass(Hit(Stamp(5, 500000), "a"), 5), Pass(Hit(Stamp(10, 0), "b"), 5), Pass(Hit(Stamp(10, 500000), "c"), 5)]
  }

  /** Three events in time order, in a window of five seconds: the second pass deletes the first hit, which
      the third pass's window contains, by text and by time. */
  lemma TimeOrderMissesHit()
    ensures var history := ClippedHistory();
      var p, h := history[2], history[0].hit;
      && OneWindow(history, 5) && InTimeOrder(history)
      && InTrueWindow(h, p) && InStoredWindow(h, p) && h in HistoryWindow(history, p)
      && h !in Window(Table(history), p)
  {
    var history := ClippedHistory();
    var h := history[0].hit;
    assert history[0].hit in HistoryWindow(history, history[2]);
    assert Start(history[1]) == Stamp(h.time.seconds, 0);
    ReplyInTimeOrder(history, 5, h);
  }

  // ---- ORDER BY event_time DESC, event_id DESC LIMIT ----

  predicate HitBefore(a: Hit, b: Hit) {
    StoredBefore(a.time, b.time) || (a.time == b.time && TextLess(a.eventId, b.eventId))
  }

  lemma HitsOrdered(a: Hit, b: Hit)
    ensures HitBefore(a, b) || a == b || HitBefore(b, a)
    ensures !(HitBefore(a, b) && HitBefore(b, a)) && !HitBefore(a, a)
  {
    TextTrichotomy(a.eventId, b.eventId);
    TextTrichotomy(a.eventId, a.eventId);
  }

  lemma HitsTransitive(a: Hit, b: Hit, c: Hit)
    requires HitBefore(a, b) && HitBefore(b, c)
    ensures HitBefore(a, c)
  {
    if a.time == b.time == c.time {
      TextTransitive(a.eventId, b.eventId, c.eventId);
    }
  }

  ghost predicate IsLatest(m: Hit, hits: set<Hit>) {
    m in hits && forall h :: h in hits ==> h == m || HitBefore(h, m)
  }

  lemma {:induction false} LatestExists(hits: set<Hit>)
    requires hits != {}
    ensures exists m :: IsLatest(m, hits)
  {
    var x :| x in hits;
    if hits == {x} {
      assert IsLatest(x, hits);
    } else {
      var rest := hits - {x};
      LatestExists(rest);
      var y :| IsLatest(y, rest);
      HitsOrdered(x, y);
      forall h | h in hits && h != x && h != y && HitBefore(y, x) ensures HitBefore(h, x) {
        HitsTransitive(h, y, x);
      }
      assert IsLatest(if HitBefore(x, y) then y else x, hits);
    }
  }

  lemma LatestUnique(a: Hit, b: Hit, hits: set<Hit>)
    requires IsLatest(a, hits) && IsLatest(b, hits)
    ensures a == b
  {
    HitsOrdered(a, b);
  }

  ghost function Latest(hits: set<Hit>): (m: Hit)
    requires hits != {}
    ensures IsLatest(m, hits)
  {
    LatestExists(hits);
    var m :| IsLatest(m, hits);
    m
  }

  /** The reply to the query, oldest first. */
  ghost function Newest(hits: set<Hit>, limit: nat): seq<Hit>
    decreases limit
  {
    if hits == {} || limit == 0 then [] else Newest(hits - {Latest(hits)}, limit - 1) + [Latest(hits)]
  }

  /** At most `limit` hits in order, all from the window, and no hit left out that is later than one taken. */
  ghost predicate IsNewest(rows: seq<Hit>, window: set<Hit>, limit: nat) {
    && (forall i, j :: 0 <= i < j < |rows| ==> HitBefore(rows[i], rows[j]))
    && (forall i :: 0 <= i < |rows| ==> rows[i] in window)
    && |rows| == (if |window| <= limit then |window| else limit)
    && forall h, i :: h in window && h !in rows && 0 <= i < |rows| ==> HitBefore(h, rows[i])
  }

  lemma NewestSnoc(init: seq<Hit>, window: set<Hit>, limit: nat)
    requires window != {} && limit > 0 && IsNewest(init, window - {Latest(window)}, limit - 1)
    ensures IsNewest(init + [Latest(window)], window, limit)
  {
    var m := Latest(window);
    var rows := init + [m];
    forall h, i | h in window && h !in rows && 0 <= i < |rows| ensures HitBefore(h, rows[i]) {
      assert h != m by { assert rows[|init|] == m; }
      assert h !in init by { assert forall k :: 0 <= k < |init| ==> rows[k] == init[k]; }
    }
  }

  lemma NewestLast(rows: seq<Hit>, window: set<Hit>, limit: nat)
    requires IsNewest(rows, window, limit) && rows != []
    ensures IsLatest(rows[|rows| - 1], window)
  {
  }

  lemma NewestRest(rows: seq<Hit>, window: set<Hit>, limit: nat)
    requires IsNewest(rows, window, limit) && rows != []
    ensures limit > 0 && IsNewest(rows[..|rows| - 1], window - {rows[|rows| - 1]}, limit - 1)
  {
    var n := |rows| - 1;
    forall i | 0 <= i < n ensures rows[i] != rows[n] {
      HitsOrdered(rows[n], rows[n]);
    }
  }

  lemma {:induction false} NewestQualifies(window: set<Hit>, limit: nat)
    ensures IsNewest(Newest(window, limit), window, limit)
    decreases limit
  {
    if window != {} && limit > 0 {
      var m := Latest(window);
      NewestQualifies(window - {m}, limit - 1);
      NewestSnoc(Newest(window - {m}, limit - 1), window, limit);
    }
  }

  lemma {:induction false} OnlyNewestQualifies(rows: seq<Hit>, window: set<Hit>, limit: nat)
    requires IsNewest(rows, window, limit)
    ensures rows == Newest(window, limit)
    decreases |rows|
  {
    if rows != [] {
      var n := |rows| - 1;
      NewestLast(rows, window, limit);
      LatestUnique(rows[n], Latest(window), window);
      NewestRest(rows, window, limit);
      OnlyNewestQualifies(rows[..n], window - {rows[n]}, limit - 1);
      assert rows == rows[..n] + [rows[n]];
    }
  }

  /** The reply is the one sequence that ORDER BY and LIMIT admit. */
  lemma NewestIsNewest(rows: seq<Hit>, window: set<Hit>, limit: nat)
    ensures IsNewest(rows, window, limit) <==> rows == Newest(window, limit)
  {
    NewestQualifies(window, limit);
    if IsNewest(rows, window, limit) {
      OnlyNewestQualifies(rows, window, limit);
    }
  }

  /** The query, one row at a time from the newest. */
  method SelectNewest(window: set<Hit>, limit: nat) returns (rows: seq<Hit>)
    ensures rows == Newest(window, limit)
  {
    rows := [];
    var rest := window;
    while rest != {} && |rows| < limit
      invariant |rows| <= limit && Newest(rest, limit - |rows|) + rows == Newest(window, limit)
      decreases limit - |rows|
    {
      LatestExists(rest);
      var m :| m in rest && forall h :: h in rest ==> h == m || HitBefore(h, m);
      LatestUnique(m, Latest(rest), rest);
      rows := [m] + rows;
      rest := rest - {m};
    }
  }

  /** The query's LIMIT. */
  function Clamp(maximum: int): nat {
    if maximum < 1 then 1 else if maximum > 10_000 then 10_000 else maximum
  }

  /** The maximum that the engine asks for. */
  function Limit(count: int): nat {
    Clamp(if count < 100 then 100 else count)
  }

  /** The reply is never empty for want of a limit, and never longer than asked or than ten thousand. */
  lemma ReplySize(window: set<Hit>, maximum: int)
    ensures var n := |Newest(window, Clamp(maximum))|;
      && n <= |window| && n <= 10_000
      && (window != {} ==> n >= 1)
      && (maximum >= 1 ==> n <= maximum)
      && (n < maximum && n < 10_000 ==> n == |window| || maximum <= 1)
  {
    NewestIsNewest(Newest(window, Clamp(maximum)), window, Clamp(maximum));
  }

  /** The limit is at least the rule's count, so it never hides a crossing of the threshold. */
  lemma LimitNeverHidesCrossing(window: set<Hit>, count: int)
    requires 0 <= count <= 10_000
    ensures |Newest(window, Limit(count))| >= count <==> |window| >= count
  {
    NewestIsNewest(Newest(window, Limit(count)), window, Limit(count));
  }
}
