/** store.py: the transactional evidence store. Every method is one transaction, and Valid holds between them. */
module EvidenceStore {
  import opened Wrappers
  import opened Timestamps
  import opened Correlation
  import opened Values
  import opened Rules

  type Group = map<Field, Actual>

  datatype Alert = Alert(
    alertId: string, ruleId: string, severity: string, eventIds: seq<string>, createdAt: int, groupKey: Group
  )

  datatype Case = Case(caseId: string, title: string, severity: string, alertId: string)

  datatype Sensor = Sensor(source: string, host: string, lastSeen: int, lastEventTime: Stamp, lastEventId: string)

  type Key = (Rule, Group) // the digest of a rule, which is injective, and a group

  /** An audit row's kind, subject and payload; an event's digest stands for its whole record. */
  datatype Body =
    | EventIngested(event: Event)
    | AlertCreated(alertId: string, ruleId: string, eventIds: seq<string>, alertSeverity: string)
    | CaseCreated(caseId: string, alert: string, severity: string)

  /** SHA-256 of canonical JSON: injective, and never sixty-four zeros. */
  datatype Hash = Zeros | Sha256(material: Material)

  datatype Material = Material(sequence: nat, recordedAt: int, body: Body, previousHash: Hash)

  datatype AuditRow = AuditRow(sequence: nat, recordedAt: int, body: Body, previousHash: Hash, entryHash: Hash)

  datatype Refusal = Integrity | Validation

  // ---- The audit chain ----

  function LastHash(rows: seq<AuditRow>): Hash {
    if rows == [] then Zeros else rows[|rows| - 1].entryHash
  }

  predicate GoodAt(rows: seq<AuditRow>, i: nat)
    requires i < |rows|
  {
    && rows[i].sequence == i + 1
    && rows[i].previousHash == LastHash(rows[..i])
    && rows[i].entryHash == Sha256(Material(rows[i].sequence, rows[i].recordedAt, rows[i].body, rows[i].previousHash))
  }

  /** What verify_audit_chain accepts: linked rows that agree with the remembered count and head. */
  predicate Verifies(rows: seq<AuditRow>, count: nat, head: Hash) {
    && (forall i :: 0 <= i < |rows| ==> GoodAt(rows, i))
    && count == |rows| && head == LastHash(rows)
  }

  lemma LinkedPrefix(rows: seq<AuditRow>, n: nat)
    requires n <= |rows| && forall i :: 0 <= i < |rows| ==> GoodAt(rows, i)
    ensures forall i :: 0 <= i < n ==> GoodAt(rows[..n], i)
  {
    forall i | 0 <= i < n ensures GoodAt(rows[..n], i) {
      assert GoodAt(rows, i);
      assert rows[..n][..i] == rows[..i];
    }
  }

  lemma {:induction false} RowsOfHead(a: seq<AuditRow>, b: seq<AuditRow>)
    requires forall i :: 0 <= i < |a| ==> GoodAt(a, i)
    requires forall i :: 0 <= i < |b| ==> GoodAt(b, i)
    requires LastHash(a) == LastHash(b)
    ensures a == b
    decreases |a|
  {
    if a == [] {
      assert b != [] ==> GoodAt(b, |b| - 1);
    } else {
      var m, n := |a| - 1, |b| - 1;
      assert GoodAt(a, m);
      assert b != [] && GoodAt(b, n);
      LinkedPrefix(a, m);
      LinkedPrefix(b, n);
      RowsOfHead(a[..m], b[..n]);
      assert a == a[..m] + [a[m]] && b == b[..n] + [b[n]];
    }
  }

  /** The remembered head admits one table: once a chain verifies, the verifier rejects every other table
      under the same metadata, every proper truncation, extension, edit or reordering. */
  lemma RememberedHeadIsTight(rows: seq<AuditRow>, other: seq<AuditRow>, count: nat, head: Hash)
    requires Verifies(rows, count, head)
    ensures Verifies(other, count, head) <==> other == rows
  {
    if Verifies(other, count, head) {
      RowsOfHead(rows, other);
    }
  }

  // ---- The audit chain against the tables ----

  function Ingested(rows: seq<AuditRow>): seq<Body> {
    if rows == [] then []
    else
      var init, last := Ingested(rows[..|rows| - 1]), rows[|rows| - 1].body;
      if last.EventIngested? then init + [last] else init
  }

  function Raised(rows: seq<AuditRow>): seq<Body> {
    if rows == [] then []
    else
      var init, last := Raised(rows[..|rows| - 1]), rows[|rows| - 1].body;
      if last.AlertCreated? then init + [last] else init
  }

  function Opened(rows: seq<AuditRow>): seq<Body> {
    if rows == [] then []
    else
      var init, last := Opened(rows[..|rows| - 1]), rows[|rows| - 1].body;
      if last.CaseCreated? then init + [last] else init
  }

  function AlertBody(a: Alert): Body {
    AlertCreated(a.alertId, a.ruleId, a.eventIds, a.severity)
  }

  function EventBodies(events: seq<Event>): seq<Body> {
    seq(|events|, i requires 0 <= i < |events| => EventIngested(events[i]))
  }

  function AlertBodies(alerts: seq<Alert>): seq<Body> {
    seq(|alerts|, i requires 0 <= i < |alerts| => AlertBody(alerts[i]))
  }

  function CaseBodies(cases: seq<Case>): seq<Body> {
    seq(|cases|, i requires 0 <= i < |cases| => CaseCreated(cases[i].caseId, cases[i].alertId, cases[i].severity))
  }

  /** Audit rows and table rows correspond one to one, in order. */
  ghost predicate Corresponds(rows: seq<AuditRow>, events: seq<Event>, alerts: seq<Alert>, cases: seq<Case>) {
    Ingested(rows) == EventBodies(events) && Raised(rows) == AlertBodies(alerts) && Opened(rows) == CaseBodies(cases)
  }

  lemma AuditSnoc(rows: seq<AuditRow>, row: AuditRow)
    ensures Ingested(rows + [row]) == if row.body.EventIngested? then Ingested(rows) + [row.body] else Ingested(rows)
    ensures Raised(rows + [row]) == if row.body.AlertCreated? then Raised(rows) + [row.body] else Raised(rows)
    ensures Opened(rows + [row]) == if row.body.CaseCreated? then Opened(rows) + [row.body] else Opened(rows)
  {
    assert (rows + [row])[..|rows|] == rows;
  }

  lemma EventRecorded(rows: seq<AuditRow>, row: AuditRow, events: seq<Event>, alerts: seq<Alert>, cases: seq<Case>, e: Event)
    requires Corresponds(rows, events, alerts, cases) && row.body == EventIngested(e)
    ensures Corresponds(rows + [row], events + [e], alerts, cases)
  {
    AuditSnoc(rows, row);
  }

  lemma AlertRecorded(rows: seq<AuditRow>, row: AuditRow, events: seq<Event>, alerts: seq<Alert>, cases: seq<Case>, a: Alert)
    requires Corresponds(rows, events, alerts, cases) && row.body == AlertBody(a)
    ensures Corresponds(rows + [row], events, alerts + [a], cases)
  {
    AuditSnoc(rows, row);
  }

  lemma CaseRecorded(rows: seq<AuditRow>, row: AuditRow, events: seq<Event>, alerts: seq<Alert>, cases: seq<Case>, c: Case)
    requires Corresponds(rows, events, alerts, cases) && row.body == CaseCreated(c.caseId, c.alertId, c.severity)
    ensures Corresponds(rows + [row], events, alerts, cases + [c])
  {
    AuditSnoc(rows, row);
  }

  function Bodies(rows: seq<AuditRow>): seq<Body> {
    seq(|rows|, i requires 0 <= i < |rows| => rows[i].body)
  }

  lemma BodiesSnoc(rows: seq<AuditRow>, n: nat)
    requires |rows| == n + 1
    ensures multiset(Bodies(rows)) == multiset(Bodies(rows[..n])) + multiset{rows[n].body}
  {
    assert Bodies(rows) == Bodies(rows[..n]) + [rows[n].body];
  }

  lemma OneMore(bodies: multiset<Body>, e: seq<Body>, a: seq<Body>, c: seq<Body>, b: Body)
    requires bodies == multiset(e) + multiset(a) + multiset(c)
    ensures bodies + multiset{b} == multiset(e + [b]) + multiset(a) + multiset(c)
    ensures bodies + multiset{b} == multiset(e) + multiset(a + [b]) + multiset(c)
    ensures bodies + multiset{b} == multiset(e) + multiset(a) + multiset(c + [b])
  {
  }

  /** Each row is of one of the three kinds. */
  lemma {:induction false} RowsByKind(rows: seq<AuditRow>)
    ensures multiset(Bodies(rows)) == multiset(Ingested(rows)) + multiset(Raised(rows)) + multiset(Opened(rows))
  {
    if rows != [] {
      var n := |rows| - 1;
      var init := rows[..n];
      RowsByKind(init);
      BodiesSnoc(rows, n);
      OneMore(multiset(Bodies(init)), Ingested(init), Raised(init), Opened(init), rows[n].body);
    }
  }

  // ---- Sensors ----

  /** The casefolded source and host with "::" between them; identifiers are ASCII. */
  function SensorKey(e: Event): string {
    var n := |e.source|;
    seq(n + 2 + |e.host|, i requires 0 <= i < n + 2 + |e.host| =>
      if i < n then Lower(e.source[i]) else if i < n + 2 then ':' else Lower(e.host[i - n - 2]))
  }

  lemma SensorKeyText(e: Event)
    ensures SensorKey(e) == Fold(e.source) + "::" + Fold(e.host)
  {
  }

  /** Event i is the first ingested of those with the sensor's greatest stored time. */
  ghost predicate Freshest(events: seq<Event>, key: string, i: nat) {
    && i < |events| && SensorKey(events[i]) == key
    && forall j :: 0 <= j < |events| && SensorKey(events[j]) == key ==>
      && !StoredBefore(events[i].timestamp, events[j].timestamp)
      && (j < i ==> StoredBefore(events[j].timestamp, events[i].timestamp))
  }

  ghost predicate Shows(events: seq<Event>, key: string, s: Sensor) {
    exists i: nat :: Freshest(events, key, i) && s.lastEventTime == events[i].timestamp && s.lastEventId == events[i].eventId
  }

  ghost predicate SensorsOk(events: seq<Event>, sensors: map<string, Sensor>) {
    && (forall i :: 0 <= i < |events| ==> SensorKey(events[i]) in sensors)
    && (forall key {:trigger Shows(events, key, sensors[key])} :: key in sensors ==> Shows(events, key, sensors[key]))
  }

  /** The upsert moves time and id as one pair. */
  function Upsert(sensors: map<string, Sensor>, e: Event, now: int): map<string, Sensor> {
    var key := SensorKey(e);
    if key !in sensors then sensors[key := Sensor(e.source, e.host, now, e.timestamp, e.eventId)]
    else
      var newer := StoredBefore(sensors[key].lastEventTime, e.timestamp);
      sensors[key := sensors[key].(
        lastSeen := now,
        lastEventTime := if newer then e.timestamp else sensors[key].lastEventTime,
        lastEventId := if newer then e.eventId else sensors[key].lastEventId)]
  }

  /** The event's sensor was seen now and takes the event's time and id together, when the sensor is new or the
      event newer; the rest of that sensor and every other one stand. */
  lemma UpsertExactly(sensors: map<string, Sensor>, e: Event, now: int)
    ensures var after, key := Upsert(sensors, e, now), SensorKey(e);
      && after.Keys == sensors.Keys + {key} && after[key].lastSeen == now
      && (key !in sensors ==> after[key].source == e.source && after[key].host == e.host)
      && (key in sensors ==> after[key].source == sensors[key].source && after[key].host == sensors[key].host)
      && (key !in sensors || StoredBefore(sensors[key].lastEventTime, e.timestamp) ==>
        after[key].lastEventTime == e.timestamp && after[key].lastEventId == e.eventId)
      && (key in sensors && !StoredBefore(sensors[key].lastEventTime, e.timestamp) ==>
        after[key].lastEventTime == sensors[key].lastEventTime && after[key].lastEventId == sensors[key].lastEventId)
      && forall k :: k in sensors && k != key ==> k in after && after[k] == sensors[k]
  {
  }

  lemma UpsertKeeps(events: seq<Event>, sensors: map<string, Sensor>, e: Event, now: int)
    requires SensorsOk(events, sensors)
    ensures SensorsOk(events + [e], Upsert(sensors, e, now))
  {
    var after, longer := Upsert(sensors, e, now), events + [e];
    forall key | key in after ensures Shows(longer, key, after[key]) {
      if key in sensors {
        assert Shows(events, key, sensors[key]);
        var i: nat :| Freshest(events, key, i) && sensors[key].lastEventTime == events[i].timestamp && sensors[key].lastEventId == events[i].eventId;
        FreshestAfter(events, e, key, i);
        if key == SensorKey(e) && StoredBefore(events[i].timestamp, e.timestamp) {
          assert Freshest(longer, key, |events|) && longer[|events|] == e;
        } else {
          assert Freshest(longer, key, i) && longer[i] == events[i];
        }
      } else {
        assert forall j :: 0 <= j < |events| ==> SensorKey(events[j]) != key;
        assert Freshest(longer, key, |events|) && longer[|events|] == e;
      }
    }
  }

  lemma FreshestAfter(events: seq<Event>, e: Event, key: string, i: nat)
    requires Freshest(events, key, i)
    ensures Freshest(events + [e], key, if SensorKey(e) == key && StoredBefore(events[i].timestamp, e.timestamp) then |events| else i)
  {
    var longer := events + [e];
    forall j | 0 <= j < |longer| && SensorKey(longer[j]) == key
      ensures SensorKey(e) == key && StoredBefore(events[i].timestamp, e.timestamp) ==>
        !StoredBefore(e.timestamp, longer[j].timestamp) && (j < |events| ==> StoredBefore(longer[j].timestamp, e.timestamp))
    {
      assert j < |events| ==> !StoredBefore(events[i].timestamp, events[j].timestamp);
    }
  }

  // ---- Correlation histories ----

  function HitOf(e: Event): Hit {
    Hit(e.timestamp, e.eventId)
  }

  predicate RowOf(events: seq<Event>, h: Hit) {
    exists i :: 0 <= i < |events| && HitOf(events[i]) == h
  }

  /** The pass has the window of the rule it was made for. */
  predicate OfRule(rule: Rule, p: Pass) {
    rule.threshold.Some? && 1 <= rule.threshold.value.within == p.within
  }

  /** Every pass is of a stored event, under its rule's window. */
  ghost predicate Traced(events: seq<Event>, history: map<Key, seq<Pass>>) {
    forall key: Key, i: int {:trigger history[key][i]} :: key in history && 0 <= i < |history[key]| ==>
      RowOf(events, history[key][i].hit) && OfRule(key.0, history[key][i])
  }

  lemma TracedMore(events: seq<Event>, e: Event, history: map<Key, seq<Pass>>)
    requires Traced(events, history)
    ensures Traced(events + [e], history)
  {
    forall key: Key, i: int | key in history && 0 <= i < |history[key]| ensures RowOf(events + [e], history[key][i].hit) {
      var k :| 0 <= k < |events| && HitOf(events[k]) == history[key][i].hit;
      assert HitOf((events + [e])[k]) == history[key][i].hit;
    }
  }

  lemma TracedLonger(events: seq<Event>, history: map<Key, seq<Pass>>, key: Key, pass: Pass)
    requires Traced(events, history) && RowOf(events, pass.hit) && OfRule(key.0, pass)
    ensures Traced(events, Longer(history, key, pass))
  {
    var longer: map<Key, seq<Pass>> := Longer(history, key, pass);
    forall k: Key, i: int | k in longer && 0 <= i < |longer[k]|
      ensures RowOf(events, longer[k][i].hit) && OfRule(k.0, longer[k][i])
    {
      assert k in history && i < |history[k]| ==> longer[k][i] == history[k][i];
    }
  }

  /** Stored events never give one identifier two times, so the hypotheses of the correlation theorems hold. */
  lemma TracedIsOneWindow(events: seq<Event>, history: map<Key, seq<Pass>>, key: Key)
    requires UniqueIds(events) && Traced(events, history) && key in history
    ensures IdsAgree(history[key])
    ensures history[key] != [] ==> OneWindow(history[key], history[key][0].within)
  {
    var passes := history[key];
    forall i, j | 0 <= i < |passes| && 0 <= j < |passes| && passes[i].hit.eventId == passes[j].hit.eventId
      ensures passes[i].hit == passes[j].hit
    {
      var k :| 0 <= k < |events| && HitOf(events[k]) == passes[i].hit;
      var l :| 0 <= l < |events| && HitOf(events[l]) == passes[j].hit;
      assert k == l;
    }
    assert passes != [] ==> OfRule(key.0, passes[0]);
  }

  // ---- Suppressions ----

  /** When the latest alert of the rule and group was created. */
  function LastAlertAt(alerts: seq<Alert>, ruleId: string, groupKey: Group): Option<int> {
    if alerts == [] then None
    else
      var last := alerts[|alerts| - 1];
      if last.ruleId == ruleId && last.groupKey == groupKey then Some(last.createdAt)
      else LastAlertAt(alerts[..|alerts| - 1], ruleId, groupKey)
  }

  /** Less than the suppression time has passed since the latest alert of the rule and group. */
  predicate Suppressed(alerts: seq<Alert>, ruleId: string, groupKey: Group, now: int, seconds: int) {
    var last := LastAlertAt(alerts, ruleId, groupKey);
    seconds > 0 && last.Some? && now - last.value < seconds * 1_000_000
  }

  function Stored(suppressions: map<(string, Group), int>, key: (string, Group)): Option<int> {
    if key in suppressions then Some(suppressions[key]) else None
  }

  ghost predicate SuppressionsOk(alerts: seq<Alert>, suppressions: map<(string, Group), int>) {
    forall r, g :: Stored(suppressions, (r, g)) == LastAlertAt(alerts, r, g)
  }

  lemma SuppressionSnoc(alerts: seq<Alert>, suppressions: map<(string, Group), int>, a: Alert)
    requires SuppressionsOk(alerts, suppressions)
    ensures SuppressionsOk(alerts + [a], suppressions[(a.ruleId, a.groupKey) := a.createdAt])
  {
    assert (alerts + [a])[..|alerts|] == alerts;
  }

  // ---- The store ----

  /** The first row with the id, or the number of rows. */
  function Find<T>(rows: seq<T>, idOf: T -> string, id: string): (k: nat)
    ensures k <= |rows|
    ensures k < |rows| ==> idOf(rows[k]) == id
    ensures forall j :: 0 <= j < k ==> idOf(rows[j]) != id
  {
    if rows == [] then 0 else if idOf(rows[0]) == id then 0 else 1 + Find(rows[1..], idOf, id)
  }

  function FindEvent(events: seq<Event>, eventId: string): nat {
    Find(events, (e: Event) => e.eventId, eventId)
  }

  function FindAlert(alerts: seq<Alert>, alertId: string): nat {
    Find(alerts, (a: Alert) => a.alertId, alertId)
  }

  predicate UniqueIds(events: seq<Event>) {
    forall i, j :: 0 <= i < j < |events| ==> events[i].eventId != events[j].eventId
  }

  predicate UniqueAlerts(alerts: seq<Alert>) {
    forall i, j {:trigger alerts[i].alertId, alerts[j].alertId} :: 0 <= i < j < |alerts| ==> alerts[i].alertId != alerts[j].alertId
  }

  predicate UniqueCases(cases: seq<Case>) {
    forall i, j {:trigger cases[i].caseId, cases[j].caseId} :: 0 <= i < j < |cases| ==> cases[i].caseId != cases[j].caseId
  }

  predicate Known(events: seq<Event>, eventId: string) {
    exists i :: 0 <= i < |events| && events[i].eventId == eventId
  }

  lemma Lookup(events: seq<Event>, event: Event)
    requires UniqueIds(events)
    ensures var k := FindEvent(events, event.eventId);
      && (k < |events| <==> Known(events, event.eventId))
      && (event in events <==> k < |events| && events[k] == event)
      && (k == |events| ==> UniqueIds(events + [event]))
  {
    var k := FindEvent(events, event.eventId);
    if event in events {
      var i :| 0 <= i < |events| && events[i] == event;
      assert k < |events| && events[k].eventId == events[i].eventId;
    }
  }

  function HistoryIn(history: map<Key, seq<Pass>>, key: Key): seq<Pass> {
    if key in history then history[key] else []
  }

  function Longer(history: map<Key, seq<Pass>>, key: Key, pass: Pass): map<Key, seq<Pass>> {
    history[key := HistoryIn(history, key) + [pass]]
  }

  function TableIn(hits: map<Key, set<Hit>>, key: Key): set<Hit> {
    if key in hits then hits[key] else {}
  }

  /** Each stored table is the table of its history. */
  ghost predicate HitsOk(hits: map<Key, set<Hit>>, history: map<Key, seq<Pass>>) {
    hits.Keys == history.Keys && forall k :: k in hits ==> hits[k] == Table(history[k])
  }

  lemma HitsLonger(hits: map<Key, set<Hit>>, history: map<Key, seq<Pass>>, key: Key, pass: Pass)
    requires HitsOk(hits, history)
    ensures var table := Process(TableIn(hits, key), pass);
      Longer(history, key, pass)[key] == HistoryIn(history, key) + [pass] &&
      table == Table(HistoryIn(history, key) + [pass]) && HitsOk(hits[key := table], Longer(history, key, pass))
  {
    var longer := HistoryIn(history, key) + [pass];
    assert longer[..|longer| - 1] == HistoryIn(history, key);
  }

  /** A title of 1 through 200 characters that is not all blanks. */
  predicate TitleOk(title: Option<string>, strip: string -> string) {
    title.Some? && strip(title.value) != "" && |title.value| <= 200
  }

  class Store {
    var events: seq<Event>
    var alerts: seq<Alert>
    var cases: seq<Case>
    var sensors: map<string, Sensor>
    var suppressions: map<(string, Group), int>
    var hits: map<Key, set<Hit>>
    var audit: seq<AuditRow>
    var auditCount: nat
    var auditHead: Hash
    ghost var history: map<Key, seq<Pass>> // every correlation pass so far

    /** Tables, audit chain and bookkeeping agree. */
    ghost predicate Sound()
      reads this
    {
      && UniqueIds(events) && UniqueAlerts(alerts) && UniqueCases(cases)
      && Verifies(audit, auditCount, auditHead)
      && Corresponds(audit, events, alerts, cases)
      && SensorsOk(events, sensors)
      && SuppressionsOk(alerts, suppressions)
      && HitsOk(hits, history)
    }

    /** And every correlation pass is of a stored event, under its rule's window. */
    ghost predicate Valid()
      reads this
    {
      Sound() && Traced(events, history)
    }

    constructor ()
      ensures Valid() && events == [] && alerts == [] && cases == [] && history == map[]
    {
      events, alerts, cases, audit := [], [], [], [];
      sensors, suppressions, hits := map[], map[], map[];
      auditCount, auditHead, history := 0, Zeros, map[];
    }

    method AppendAudit(body: Body, now: int) returns (row: AuditRow)
      requires Verifies(audit, auditCount, auditHead)
      modifies this`audit, this`auditCount, this`auditHead
      ensures Verifies(audit, auditCount, auditHead)
      ensures row.body == body && audit == old(audit) + [row]
    {
      var sequence := if audit == [] then 1 else audit[|audit| - 1].sequence + 1;
      var previousHash := if audit == [] then Zeros else audit[|audit| - 1].entryHash;
      var entryHash := Sha256(Material(sequence, now, body, previousHash));
      assert audit != [] ==> GoodAt(audit, |audit| - 1);
      row := AuditRow(sequence, now, body, previousHash, entryHash);
      audit := audit + [row];
      auditCount := sequence;
      auditHead := entryHash;
      forall i | 0 <= i < |audit| ensures GoodAt(audit, i) {
        assert i < |old(audit)| ==> GoodAt(old(audit), i);
        assert audit[..i] == old(audit)[..i];
      }
    }

    /** The inserts of add_event: the event, its sensor and its audit row. */
    method InsertEvent(event: Event, now: int)
      requires Valid() && UniqueIds(events + [event])
      modifies this
      ensures Valid()
      ensures events == old(events) + [event] && sensors == Upsert(old(sensors), event, now)
      ensures |audit| == |old(audit)| + 1 && audit[|old(audit)|].body == EventIngested(event)
      ensures alerts == old(alerts) && cases == old(cases) && suppressions == old(suppressions)
      ensures hits == old(hits) && history == old(history)
    {
      UpsertKeeps(events, sensors, event, now);
      TracedMore(events, event, history);
      events := events + [event];
      sensors := Upsert(sensors, event, now);
      var entry := AppendAudit(EventIngested(event), now);
      EventRecorded(old(audit), entry, old(events), alerts, cases, event);
    }

    /** Ingests an event once. A replay is ignored, the same id with other content is refused, and neither
        changes anything. */
    method AddEvent(event: Event, now: int) returns (r: Result<bool, Refusal>)
      requires Valid()
      modifies this
      ensures Valid()
      ensures r == Success(true) <==> !Known(old(events), event.eventId)
      ensures r == Success(false) <==> event in old(events)
      ensures r != Success(true) ==> unchanged(this)
      ensures r == Success(true) ==>
        && events == old(events) + [event] && sensors == Upsert(old(sensors), event, now)
        && |audit| == |old(audit)| + 1 && audit[|old(audit)|].body == EventIngested(event)
        && alerts == old(alerts) && cases == old(cases) && suppressions == old(suppressions)
        && hits == old(hits) && history == old(history)
    {
      Lookup(events, event);
      var k := FindEvent(events, event.eventId);
      if k < |events| {
        return if events[k] != event then Failure(Integrity) else Success(false);
      }
      InsertEvent(event, now);
      return Success(true);
    }

    method SuppressionActive(ruleId: string, groupKey: Group, now: int, seconds: int) returns (active: bool)
      requires Valid()
      ensures active <==> Suppressed(alerts, ruleId, groupKey, now, seconds)
    {
      assert Stored(suppressions, (ruleId, groupKey)) == LastAlertAt(alerts, ruleId, groupKey);
      if seconds <= 0 || (ruleId, groupKey) !in suppressions {
        return false;
      }
      return now - suppressions[(ruleId, groupKey)] < seconds * 1_000_000;
    }

    /** The insert, the eviction and the query. */
    method Slide(key: Key, pass: Pass, maximum: int) returns (rows: seq<Hit>)
      requires HitsOk(hits, history)
      modifies this`hits, this`history
      ensures HitsOk(hits, history) && history == Longer(old(history), key, pass)
      ensures hits == old(hits)[key := Table(history[key])]
      ensures rows == Newest(Window(Table(history[key]), pass), Clamp(maximum))
    {
      HitsLonger(hits, history, key, pass);
      var table := Insert(TableIn(hits, key), pass.hit);
      table := Evict(table, Start(pass));
      hits := hits[key := table];
      history := Longer(history, key, pass);
      rows := SelectNewest(Window(table, pass), Clamp(maximum));
    }

    /** The foreign key refuses an event that was never ingested. The reply is the newest part of the
        window over the table, which is the table of the whole history; and a store whose passes are traced stays
        so when the event is the stored one and the window its rule's. */
    method RecordCorrelationHit(key: Key, event: Event, within: nat, maximum: int) returns (r: Result<seq<Hit>, Refusal>)
      requires Sound()
      modifies this`hits, this`history
      ensures Sound()
      ensures old(Traced(events, history)) && event in events && OfRule(key.0, Pass(HitOf(event), within)) ==> Valid()
      ensures r.Failure? <==> !Known(events, event.eventId)
      ensures r.Failure? ==> r.error == Integrity && unchanged(this)
      ensures var pass := Pass(HitOf(event), within);
        r.Success? ==>
          && history == Longer(old(history), key, pass)
          && hits == old(hits)[key := Table(history[key])]
          && r.value == Newest(Window(Table(history[key]), pass), Clamp(maximum))
    {
      Lookup(events, event);
      var k := FindEvent(events, event.eventId);
      if k == |events| {
        return Failure(Integrity);
      }
      var pass := Pass(HitOf(event), within);
      assert event in events ==> HitOf(events[k]) == pass.hit;
      if Traced(events, history) && event in events && OfRule(key.0, pass) {
        TracedLonger(events, history, key, pass);
      }
      var rows := Slide(key, pass, maximum);
      return Success(rows);
    }

    /** The inserts of add_alert: the alert, its suppression and its audit row. */
    method InsertAlert(alert: Alert, now: int)
      requires Valid() && UniqueAlerts(alerts + [alert])
      modifies this`alerts, this`suppressions, this`audit, this`auditCount, this`auditHead
      ensures Valid()
      ensures alerts == old(alerts) + [alert]
      ensures suppressions == old(suppressions)[(alert.ruleId, alert.groupKey) := alert.createdAt]
      ensures |audit| == |old(audit)| + 1 && audit[|old(audit)|].body == AlertBody(alert)
    {
      SuppressionSnoc(alerts, suppressions, alert);
      alerts := alerts + [alert];
      suppressions := suppressions[(alert.ruleId, alert.groupKey) := alert.createdAt];
      var entry := AppendAudit(AlertBody(alert), now);
      AlertRecorded(old(audit), entry, events, old(alerts), cases, alert);
    }

    method AddAlert(alert: Alert, now: int) returns (r: Result<(), Refusal>)
      requires Valid()
      modifies this`alerts, this`suppressions, this`audit, this`auditCount, this`auditHead
      ensures Valid()
      ensures r.Success? <==> forall a :: a in old(alerts) ==> a.alertId != alert.alertId
      ensures r.Failure? ==> r.error == Integrity && unchanged(this)
      ensures r.Success? ==>
        && alerts == old(alerts) + [alert]
        && suppressions == old(suppressions)[(alert.ruleId, alert.groupKey) := alert.createdAt]
        && |audit| == |old(audit)| + 1
        && audit[|old(audit)|].body == AlertCreated(alert.alertId, alert.ruleId, alert.eventIds, alert.severity)
    {
      if FindAlert(alerts, alert.alertId) < |alerts| {
        return Failure(Integrity);
      }
      InsertAlert(alert, now);
      return Success(());
    }

    /** The inserts of create_case: the case with its alert, and its audit row. */
    method InsertCase(row: Case, now: int)
      requires Valid() && UniqueCases(cases + [row])
      modifies this`cases, this`audit, this`auditCount, this`auditHead
      ensures Valid()
      ensures cases == old(cases) + [row]
      ensures |audit| == |old(audit)| + 1 && audit[|old(audit)|].body == CaseCreated(row.caseId, row.alertId, row.severity)
    {
      cases := cases + [row];
      var entry := AppendAudit(CaseCreated(row.caseId, row.alertId, row.severity), now);
      CaseRecorded(old(audit), entry, events, alerts, old(cases), row);
    }

    /** `title` is the normalized title, None when normalization refuses it; `strip` is str.strip. */
    method CreateCase(alertId: string, title: Option<string>, strip: string -> string, caseId: string, now: int)
      returns (r: Result<Case, Refusal>)
      requires Valid()
      modifies this`cases, this`audit, this`auditCount, this`auditHead
      ensures Valid()
      ensures r.Failure? ==> unchanged(this)
      ensures (exists a :: a in old(alerts) && a.alertId == alertId) ==>
        (r == Failure(Validation) <==> title.None? || strip(title.value) == "" || |title.value| > 200)
      ensures r == Failure(Validation) <==>
        (exists a :: a in old(alerts) && a.alertId == alertId) && !TitleOk(title, strip)
      ensures r.Success? <==>
        && (exists a :: a in old(alerts) && a.alertId == alertId) && TitleOk(title, strip)
        && forall c :: c in old(cases) ==> c.caseId != caseId
      ensures r.Success? ==>
        && |title.value| <= 200 && r.value.title != ""
        && r.value.caseId == caseId && r.value.alertId == alertId && r.value.title == strip(title.value)
        && (exists a :: a in old(alerts) && a.alertId == alertId && a.severity == r.value.severity)
        && cases == old(cases) + [r.value]
        && |audit| == |old(audit)| + 1 && audit[|old(audit)|].body == CaseCreated(caseId, alertId, r.value.severity)
    {
      var k := FindAlert(alerts, alertId);
      if k == |alerts| {
        return Failure(Integrity);
      }
      assert alerts[k] in alerts;
      if !TitleOk(title, strip) {
        return Failure(Validation);
      }
      if Find(cases, (c: Case) => c.caseId, caseId) < |cases| {
        return Failure(Integrity);
      }
      var row := Case(caseId, strip(title.value), alerts[k].severity, alertId);
      InsertCase(row, now);
      return Success(row);
    }

    /** Recomputes every hash, then compares with the remembered count and head. */
    method VerifyAuditChain() returns (r: Result<(nat, Hash), Refusal>)
      ensures r.Success? <==> Verifies(audit, auditCount, auditHead)
      ensures r.Failure? ==> r.error == Integrity
      ensures r.Success? ==> r.value == (|audit|, LastHash(audit))
    {
      var previousHash := Zeros;
      for i := 0 to |audit|
        invariant previousHash == LastHash(audit[..i])
        invariant forall j :: 0 <= j < i ==> GoodAt(audit, j)
      {
        var row := audit[i];
        var calculated := Sha256(Material(row.sequence, row.recordedAt, row.body, row.previousHash));
        if row.sequence != i + 1 || row.previousHash != previousHash || calculated != row.entryHash {
          assert !GoodAt(audit, i);
          return Failure(Integrity);
        }
        previousHash := calculated;
      }
      assert audit[..|audit|] == audit;
      if auditCount != |audit| || auditHead != previousHash {
        return Failure(Integrity);
      }
      return Success((|audit|, previousHash));
    }
  }

  // ---- What holds of every valid store ----

  lemma {:induction false} OccursOnce(bodies: seq<Body>, i: nat)
    requires i < |bodies| && forall j, k :: 0 <= j < k < |bodies| ==> bodies[j] != bodies[k]
    ensures multiset(bodies)[bodies[i]] == 1
  {
    var rest := bodies[..i] + bodies[i + 1..];
    assert bodies == bodies[..i] + [bodies[i]] + bodies[i + 1..];
    assert multiset(bodies) == multiset(rest) + multiset{bodies[i]};
    assert bodies[i] !in rest;
  }

  lemma OnceAmong(bodies: multiset<Body>, part: seq<Body>, others: multiset<Body>, i: nat)
    requires bodies == multiset(part) + others && i < |part| && part[i] !in others
    requires forall j, k :: 0 <= j < k < |part| ==> part[j] != part[k]
    ensures bodies[part[i]] == 1
  {
    OccursOnce(part, i);
  }

  /** In every valid store the audit rows are the events, alerts and cases, each recorded by exactly one row. */
  lemma AuditIsOneToOne(store: Store)
    requires store.Valid()
    ensures var bodies := multiset(Bodies(store.audit));
      && bodies == multiset(EventBodies(store.events)) + multiset(AlertBodies(store.alerts)) + multiset(CaseBodies(store.cases))
      && (forall i :: 0 <= i < |store.events| ==> bodies[EventBodies(store.events)[i]] == 1)
      && (forall i :: 0 <= i < |store.alerts| ==> bodies[AlertBodies(store.alerts)[i]] == 1)
      && (forall i :: 0 <= i < |store.cases| ==> bodies[CaseBodies(store.cases)[i]] == 1)
  {
    RowsByKind(store.audit);
    var e, a, c := EventBodies(store.events), AlertBodies(store.alerts), CaseBodies(store.cases);
    EachOnce(multiset(Bodies(store.audit)), e, a, c);
  }

  lemma EachOnce(bodies: multiset<Body>, e: seq<Body>, a: seq<Body>, c: seq<Body>)
    requires bodies == multiset(e) + multiset(a) + multiset(c)
    requires forall i :: 0 <= i < |e| ==> e[i].EventIngested?
    requires forall i :: 0 <= i < |a| ==> a[i].AlertCreated?
    requires forall i :: 0 <= i < |c| ==> c[i].CaseCreated?
    requires forall j, k :: 0 <= j < k < |e| ==> e[j] != e[k]
    requires forall j, k :: 0 <= j < k < |a| ==> a[j] != a[k]
    requires forall j, k :: 0 <= j < k < |c| ==> c[j] != c[k]
    ensures forall i :: 0 <= i < |e| ==> bodies[e[i]] == 1
    ensures forall i :: 0 <= i < |a| ==> bodies[a[i]] == 1
    ensures forall i :: 0 <= i < |c| ==> bodies[c[i]] == 1
  {
    forall i | 0 <= i < |e| ensures bodies[e[i]] == 1 {
      OnceAmong(bodies, e, multiset(a) + multiset(c), i);
    }
    forall i | 0 <= i < |a| ensures bodies[a[i]] == 1 {
      OnceAmong(bodies, a, multiset(e) + multiset(c), i);
    }
    forall i | 0 <= i < |c| ensures bodies[c[i]] == 1 {
      OnceAmong(bodies, c, multiset(e) + multiset(a), i);
    }
  }

  /** In every valid store a rule and group's rows are exactly the hits that no later pass has evicted. */
  lemma StoredTableIsSurvivors(store: Store, key: Key, h: Hit)
    requires store.Valid() && key in store.hits
    ensures h in store.hits[key] <==> exists i :: Survives(store.history[key], i, h)
  {
    TracedIsOneWindow(store.events, store.history, key);
    TableIsSurvivors(store.history[key], h);
  }

  /** The window over the stored rows misses a hit exactly when some pass since that hit's last one evicted it. */
  lemma StoredReplyMisses(store: Store, key: Key, h: Hit)
    requires store.Valid() && key in store.hits && store.history[key] != []
    requires InStoredWindow(h, store.history[key][|store.history[key]| - 1])
    ensures h !in Window(store.hits[key], store.history[key][|store.history[key]| - 1]) <==>
      forall i :: 0 <= i < |store.history[key]| && store.history[key][i].hit == h ==>
        exists j :: i <= j < |store.history[key]| && StoredBefore(h.time, Start(store.history[key][j]))
  {
    TracedIsOneWindow(store.events, store.history, key);
    MissedExactlyWhenEvicted(store.history[key], h);
  }

  /** When a rule and group's events arrived in time order, the last reply's window is the one over the full
      history if and only if none of its hits was clipped. */
  lemma StoredReplyInTimeOrder(store: Store, key: Key)
    requires store.Valid() && key in store.hits && store.history[key] != [] && InTimeOrder(store.history[key])
    ensures var p := store.history[key][|store.history[key]| - 1];
      Window(store.hits[key], p) == HistoryWindow(store.history[key], p) <==>
        forall h :: h in HistoryWindow(store.history[key], p) ==> !Clipped(store.history[key], h)
  {
    TracedIsOneWindow(store.events, store.history, key);
    InTimeOrderExactly(store.history[key], store.history[key][0].within);
  }
}
