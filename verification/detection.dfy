/** detection.py: the engine that turns an ingested event into alerts. */
module Detection {
  import opened Wrappers
  import opened Correlation
  import opened Rules
  import opened EvidenceStore

  /** The clock readings of one rule's turn, and the identifier its alert would get. */
  datatype Tick = Tick(check: int, create: int, alertId: string)

  /** The part of the store that the engine's verdicts depend on. */
  datatype View = View(history: map<Key, seq<Pass>>, alerts: seq<Alert>)

  function SeverityName(s: Severity): string {
    match s
    case Low => "low"
    case Medium => "medium"
    case High => "high"
    case Critical => "critical"
  }

  function GroupKey(rule: Rule, event: Event): Group {
    GroupOf(event, if rule.threshold.Some? then rule.threshold.value.groupBy else rule.groupBy)
  }

  /** The suppression time the engine applies. */
  function Effective(rule: Rule): int {
    if rule.allowSuppression then rule.suppressionSeconds else 0
  }

  function PassOf(rule: Rule, event: Event): Pass
    requires RuleAccepted(rule) && rule.threshold.Some?
  {
    Pass(Hit(event.timestamp, event.eventId), rule.threshold.value.within)
  }

  /** The hits of the rule's window for this event's group, this event included. */
  function WindowNow(v: View, rule: Rule, event: Event): set<Hit>
    requires RuleAccepted(rule) && rule.threshold.Some?
  {
    var pass := PassOf(rule, event);
    Window(Table(HistoryIn(v.history, (rule, GroupKey(rule, event))) + [pass]), pass)
  }

  /** Enough unevicted hits lie in the window. */
  predicate Crosses(v: View, rule: Rule, event: Event)
    requires RuleAccepted(rule)
  {
    rule.threshold.Some? ==> |WindowNow(v, rule, event)| >= rule.threshold.value.count
  }

  /** When the engine raises an alert, in terms of a store the event was not yet evaluated on. */
  predicate Fires(v: View, rule: Rule, event: Event, tick: Tick)
    requires RuleAccepted(rule)
  {
    && rule.enabled && RuleMatches(event, rule)
    && Crosses(v, rule, event)
    && !Suppressed(v.alerts, rule.ruleId, GroupKey(rule, event), tick.check, Effective(rule))
  }

  function Newest100(rows: seq<Hit>): seq<string> {
    var from := if |rows| <= 100 then 0 else |rows| - 100;
    seq(|rows| - from, i requires 0 <= i < |rows| - from => rows[from + i].eventId)
  }

  /** The event alone, or the newest hundred of the newest hits in the rule's window. */
  ghost predicate EvidenceFor(v: View, rule: Rule, event: Event, evidence: seq<string>)
    requires RuleAccepted(rule)
  {
    if rule.threshold.None? then evidence == [event.eventId]
    else evidence == Newest100(Newest(WindowNow(v, rule, event), Limit(rule.threshold.value.count)))
  }

  /** The alert names its rule and group, and carries the evidence. */
  ghost predicate AlertFor(v: View, rule: Rule, event: Event, tick: Tick, a: Alert)
    requires RuleAccepted(rule)
  {
    && a.ruleId == rule.ruleId && a.groupKey == GroupKey(rule, event) && a.severity == SeverityName(rule.severity)
    && a.createdAt == tick.create && a.alertId == tick.alertId
    && EvidenceFor(v, rule, event, a.eventIds)
  }

  /** What load_rules guarantees. */
  ghost predicate RulesOk(rules: seq<Rule>) {
    && (forall k :: 0 <= k < |rules| ==> RuleAccepted(rules[k]))
    && (forall i, j :: 0 <= i < j < |rules| ==> rules[i].ruleId != rules[j].ruleId)
  }

  /** Alert identifiers are fresh. */
  ghost predicate TicksFresh(alerts: seq<Alert>, ticks: seq<Tick>) {
    && (forall i, j :: 0 <= i < j < |ticks| ==> ticks[i].alertId != ticks[j].alertId)
    && (forall k, a :: 0 <= k < |ticks| && a in alerts ==> a.alertId != ticks[k].alertId)
  }

  // ---- The outcome of the loop ----

  /** The alerts raised by the first n rules: one for each that fires on the given store, in rule order. */
  ghost predicate Outcome(v: View, rules: seq<Rule>, event: Event, ticks: seq<Tick>, n: nat, raised: seq<Alert>)
    requires RulesOk(rules) && n <= |rules| == |ticks|
  {
    if n == 0 then raised == []
    else if Fires(v, rules[n - 1], event, ticks[n - 1]) then
      && raised != [] && AlertFor(v, rules[n - 1], event, ticks[n - 1], raised[|raised| - 1])
      && Outcome(v, rules, event, ticks, n - 1, raised[..|raised| - 1])
    else Outcome(v, rules, event, ticks, n - 1, raised)
  }

  function Extended(raised: seq<Alert>, alert: Option<Alert>): seq<Alert> {
    if alert.Some? then raised + [alert.value] else raised
  }

  lemma OutcomeStep(v: View, rules: seq<Rule>, event: Event, ticks: seq<Tick>, n: nat, raised: seq<Alert>, alert: Option<Alert>)
    requires RulesOk(rules) && n < |rules| == |ticks|
    requires Outcome(v, rules, event, ticks, n, raised)
    requires alert.Some? <==> Fires(v, rules[n], event, ticks[n])
    requires alert.Some? ==> AlertFor(v, rules[n], event, ticks[n], alert.value)
    ensures Outcome(v, rules, event, ticks, n + 1, Extended(raised, alert))
  {
    var longer := Extended(raised, alert);
    assert alert.Some? ==> longer[..|raised|] == raised;
  }

  /** Every raised alert is of a rule that fires. */
  lemma {:induction false} RaisedFires(v: View, rules: seq<Rule>, event: Event, ticks: seq<Tick>, n: nat, raised: seq<Alert>, a: Alert) returns (k: nat)
    requires RulesOk(rules) && n <= |rules| == |ticks|
    requires Outcome(v, rules, event, ticks, n, raised) && a in raised
    ensures k < n && Fires(v, rules[k], event, ticks[k]) && AlertFor(v, rules[k], event, ticks[k], a)
  {
    k := n - 1;
    var fired := Fires(v, rules[k], event, ticks[k]);
    if !(fired && a == raised[|raised| - 1]) {
      k := RaisedFires(v, rules, event, ticks, k, if fired then raised[..|raised| - 1] else raised, a);
    }
  }

  /** And every rule that fires has raised its alert. */
  lemma {:induction false} FiringRaises(v: View, rules: seq<Rule>, event: Event, ticks: seq<Tick>, n: nat, raised: seq<Alert>, k: nat)
    requires RulesOk(rules) && n <= |rules| == |ticks|
    requires Outcome(v, rules, event, ticks, n, raised)
    requires k < n && Fires(v, rules[k], event, ticks[k])
    ensures exists a :: a in raised && AlertFor(v, rules[k], event, ticks[k], a)
  {
    if k == n - 1 {
      assert raised[|raised| - 1] in raised;
    } else {
      var fired := Fires(v, rules[n - 1], event, ticks[n - 1]);
      var rest := if fired then raised[..|raised| - 1] else raised;
      FiringRaises(v, rules, event, ticks, n - 1, rest, k);
      assert forall a :: a in rest ==> a in raised;
    }
  }

  // ---- Suppression ----

  /** The latest alert of the rule and group, by position. */
  lemma {:induction false} LastAlertIs(alerts: seq<Alert>, r: string, g: Group) returns (k: nat)
    requires LastAlertAt(alerts, r, g).Some?
    ensures k < |alerts| && alerts[k].ruleId == r && alerts[k].groupKey == g
    ensures LastAlertAt(alerts, r, g) == Some(alerts[k].createdAt)
    ensures forall i :: k < i < |alerts| ==> !(alerts[i].ruleId == r && alerts[i].groupKey == g)
  {
    var n := |alerts| - 1;
    if alerts[n].ruleId == r && alerts[n].groupKey == g {
      k := n;
    } else {
      k := LastAlertIs(alerts[..n], r, g);
    }
  }

  lemma {:induction false} NoLastAlert(alerts: seq<Alert>, r: string, g: Group)
    requires LastAlertAt(alerts, r, g).None?
    ensures forall i :: 0 <= i < |alerts| ==> !(alerts[i].ruleId == r && alerts[i].groupKey == g)
  {
    if alerts != [] {
      NoLastAlert(alerts[..|alerts| - 1], r, g);
    }
  }

  lemma {:induction false} OtherRulesUnmoved(alerts: seq<Alert>, more: seq<Alert>, r: string, g: Group)
    requires forall a :: a in more ==> a.ruleId != r
    ensures LastAlertAt(alerts + more, r, g) == LastAlertAt(alerts, r, g)
  {
    if more == [] {
      assert alerts + more == alerts;
    } else {
      var n := |more| - 1;
      assert more[n] in more && forall a :: a in more[..n] ==> a in more;
      OtherRulesUnmoved(alerts, more[..n], r, g);
      assert (alerts + more)[..|alerts| + n] == alerts + more[..n];
    }
  }

  /** Alerts of the rule and one group are at least its suppression time apart. */
  ghost predicate SpacedFor(alerts: seq<Alert>, rule: Rule) {
    forall i, j ::
      (&& Effective(rule) > 0 && 0 <= i < j < |alerts|
       && alerts[i].ruleId == alerts[j].ruleId == rule.ruleId && alerts[i].groupKey == alerts[j].groupKey)
      ==> alerts[j].createdAt - alerts[i].createdAt >= Effective(rule) * 1_000_000
  }

  /** An unsuppressed alert created no earlier than its suppression check keeps the spacing. */
  lemma SpacingKept(alerts: seq<Alert>, rule: Rule, a: Alert, check: int)
    requires SpacedFor(alerts, rule) && check <= a.createdAt && a.ruleId == rule.ruleId
    requires !Suppressed(alerts, rule.ruleId, a.groupKey, check, Effective(rule))
    ensures SpacedFor(alerts + [a], rule)
  {
    if LastAlertAt(alerts, rule.ruleId, a.groupKey).None? {
      NoLastAlert(alerts, rule.ruleId, a.groupKey);
    } else {
      var k := LastAlertIs(alerts, rule.ruleId, a.groupKey);
      forall i | 0 <= i < |alerts| && alerts[i].ruleId == rule.ruleId && alerts[i].groupKey == a.groupKey && Effective(rule) > 0
        ensures a.createdAt - alerts[i].createdAt >= Effective(rule) * 1_000_000
      {
        assert i < k ==> alerts[k].createdAt - alerts[i].createdAt >= Effective(rule) * 1_000_000;
      }
    }
  }

  lemma RaisedByOthers(v: View, rules: seq<Rule>, event: Event, ticks: seq<Tick>, n: nat, raised: seq<Alert>)
    requires RulesOk(rules) && n < |rules| == |ticks|
    requires Outcome(v, rules, event, ticks, n, raised)
    ensures forall a :: a in raised ==> a.ruleId != rules[n].ruleId
  {
    forall a | a in raised ensures a.ruleId != rules[n].ruleId {
      var k := RaisedFires(v, rules, event, ticks, n, raised, a);
    }
  }

  lemma FiringKeepsSpacing(v: View, rules: seq<Rule>, event: Event, ticks: seq<Tick>, n: nat, raised: seq<Alert>, r: nat)
    requires RulesOk(rules) && 0 < n <= |rules| == |ticks| && r < |rules|
    requires ticks[n - 1].check <= ticks[n - 1].create && Fires(v, rules[n - 1], event, ticks[n - 1])
    requires Outcome(v, rules, event, ticks, n, raised) && SpacedFor(v.alerts + raised[..|raised| - 1], rules[r])
    ensures SpacedFor(v.alerts + raised, rules[r])
  {
    var k := |raised| - 1;
    var before, a := v.alerts + raised[..k], raised[k];
    assert v.alerts + raised == before + [a];
    if r == n - 1 {
      RaisedByOthers(v, rules, event, ticks, r, raised[..k]);
      OtherRulesUnmoved(v.alerts, raised[..k], rules[r].ruleId, a.groupKey);
      SpacingKept(before, rules[r], a, ticks[r].check);
    } else {
      SpacingOfOther(before, rules[r], a);
    }
  }

  lemma SpacingOfOther(alerts: seq<Alert>, rule: Rule, a: Alert)
    requires SpacedFor(alerts, rule) && a.ruleId != rule.ruleId
    ensures SpacedFor(alerts + [a], rule)
  {
  }

  /** When no clock runs back between a check and its creation, evaluating an event keeps every rule's alerts
      in each group at least its suppression time apart. */
  lemma {:induction false} EvaluationKeepsSpacing(v: View, rules: seq<Rule>, event: Event, ticks: seq<Tick>, n: nat, raised: seq<Alert>, r: nat)
    requires RulesOk(rules) && n <= |rules| == |ticks| && r < |rules|
    requires forall k :: 0 <= k < |ticks| ==> ticks[k].check <= ticks[k].create
    requires Outcome(v, rules, event, ticks, n, raised) && SpacedFor(v.alerts, rules[r])
    ensures SpacedFor(v.alerts + raised, rules[r])
  {
    if n == 0 {
      assert v.alerts + raised == v.alerts;
    } else if Fires(v, rules[n - 1], event, ticks[n - 1]) {
      EvaluationKeepsSpacing(v, rules, event, ticks, n - 1, raised[..|raised| - 1], r);
      FiringKeepsSpacing(v, rules, event, ticks, n, raised, r);
    } else {
      EvaluationKeepsSpacing(v, rules, event, ticks, n - 1, raised, r);
    }
  }

  /** No clock ran back between a check and its alert. */
  predicate Forward(ticks: seq<Tick>) {
    forall k :: 0 <= k < |ticks| ==> ticks[k].check <= ticks[k].create
  }

  ghost predicate Spaced(alerts: seq<Alert>, rules: seq<Rule>) {
    forall r :: 0 <= r < |rules| ==> SpacedFor(alerts, rules[r])
  }

  lemma EvaluationKeepsAllSpacing(v: View, rules: seq<Rule>, event: Event, ticks: seq<Tick>, raised: seq<Alert>)
    requires RulesOk(rules) && |rules| == |ticks| && Outcome(v, rules, event, ticks, |rules|, raised)
    ensures Forward(ticks) && Spaced(v.alerts, rules) ==> Spaced(v.alerts + raised, rules)
  {
    if Forward(ticks) && Spaced(v.alerts, rules) {
      forall r | 0 <= r < |rules| ensures SpacedFor(v.alerts + raised, rules[r]) {
        EvaluationKeepsSpacing(v, rules, event, ticks, |rules|, raised, r);
      }
    }
  }

  /** One evaluation of a run: the store it started on, and what it raised. */
  datatype Evaluation = Evaluation(before: View, event: Event, ticks: seq<Tick>, raised: seq<Alert>)

  function AllRaised(run: seq<Evaluation>): seq<Alert> {
    if run == [] then [] else AllRaised(run[..|run| - 1]) + run[|run| - 1].raised
  }

  /** A run of evaluations from a store without alerts; events may be ingested in between. */
  ghost predicate RunOf(rules: seq<Rule>, run: seq<Evaluation>)
    requires RulesOk(rules)
  {
    run != [] ==>
      var init, last := run[..|run| - 1], run[|run| - 1];
      && RunOf(rules, init) && last.before.alerts == AllRaised(init) && Forward(last.ticks) && |last.ticks| == |rules|
      && Outcome(last.before, rules, last.event, last.ticks, |rules|, last.raised)
  }

  /** Over a whole run of evaluations, the alerts of each rule and group are at least its suppression time apart. */
  lemma {:induction false} RunKeepsSpacing(rules: seq<Rule>, run: seq<Evaluation>)
    requires RulesOk(rules) && RunOf(rules, run)
    ensures Spaced(AllRaised(run), rules)
  {
    if run != [] {
      var last := run[|run| - 1];
      RunKeepsSpacing(rules, run[..|run| - 1]);
      EvaluationKeepsAllSpacing(last.before, rules, last.event, last.ticks, last.raised);
    }
  }

  /** No alert of the rule and group is younger than the suppression time. */
  ghost predicate Quiet(alerts: seq<Alert>, rule: Rule, group: Group, now: int) {
    forall a :: a in alerts && a.ruleId == rule.ruleId && a.groupKey == group ==> now - a.createdAt >= Effective(rule) * 1_000_000
  }

  /** A match alerts whatever was raised, once no alert of its rule and group is younger than the suppression
      time; a critical rule that parse_rule accepted alerts at once. */
  lemma MatchAlerts(v: View, rules: seq<Rule>, event: Event, ticks: seq<Tick>, raised: seq<Alert>, k: nat)
    requires RulesOk(rules) && k < |rules| == |ticks|
    requires Outcome(v, rules, event, ticks, |rules|, raised)
    requires rules[k].enabled && Crosses(v, rules[k], event)
    requires forall i :: 0 <= i < |rules[k].conditions| ==> ConditionMatches(event, rules[k].conditions[i])
    requires rules[k].severity == Critical || Quiet(v.alerts, rules[k], GroupKey(rules[k], event), ticks[k].check)
    ensures exists a :: a in raised && AlertFor(v, rules[k], event, ticks[k], a)
  {
    if LastAlertAt(v.alerts, rules[k].ruleId, GroupKey(rules[k], event)).Some? {
      var i := LastAlertIs(v.alerts, rules[k].ruleId, GroupKey(rules[k], event));
      assert v.alerts[i] in v.alerts;
    }
    FiringRaises(v, rules, event, ticks, |rules|, raised, k);
  }

  // ---- When a rule alerts ----

  /** The rule may be suppressed, and its latest alert in the group is younger than its suppression time. */
  ghost predicate Muted(alerts: seq<Alert>, rule: Rule, group: Group, now: int) {
    && rule.allowSuppression && rule.suppressionSeconds > 0
    && exists k :: IsLastAlert(alerts, rule.ruleId, group, k) && now - alerts[k].createdAt < rule.suppressionSeconds * 1_000_000
  }

  ghost predicate IsLastAlert(alerts: seq<Alert>, ruleId: string, group: Group, k: int) {
    && 0 <= k < |alerts| && alerts[k].ruleId == ruleId && alerts[k].groupKey == group
    && forall i :: k < i < |alerts| ==> !(alerts[i].ruleId == ruleId && alerts[i].groupKey == group)
  }

  lemma MutedExactly(alerts: seq<Alert>, rule: Rule, group: Group, now: int)
    ensures Suppressed(alerts, rule.ruleId, group, now, Effective(rule)) <==> Muted(alerts, rule, group, now)
  {
    if LastAlertAt(alerts, rule.ruleId, group).Some? {
      var k := LastAlertIs(alerts, rule.ruleId, group);
      assert IsLastAlert(alerts, rule.ruleId, group, k);
      assert forall j :: IsLastAlert(alerts, rule.ruleId, group, j) ==> j == k;
    } else {
      NoLastAlert(alerts, rule.ruleId, group);
    }
  }

  /** The rule is enabled, the event meets every one of its conditions, the hits in its window reach its count if it
      has one, and it is not muted. */
  ghost predicate Due(v: View, rule: Rule, event: Event, tick: Tick)
    requires RuleAccepted(rule)
  {
    && rule.enabled && (forall i :: 0 <= i < |rule.conditions| ==> ConditionMatches(event, rule.conditions[i]))
    && (rule.threshold.Some? ==> |WindowNow(v, rule, event)| >= rule.threshold.value.count)
    && !Muted(v.alerts, rule, GroupKey(rule, event), tick.check)
  }

  /** An evaluation raises an alert of a rule if and only if the rule is due. */
  lemma AlertsExactly(v: View, rules: seq<Rule>, event: Event, ticks: seq<Tick>, raised: seq<Alert>, k: nat)
    requires RulesOk(rules) && k < |rules| == |ticks|
    requires Outcome(v, rules, event, ticks, |rules|, raised)
    ensures (exists a :: a in raised && a.ruleId == rules[k].ruleId) <==> Due(v, rules[k], event, ticks[k])
  {
    MutedExactly(v.alerts, rules[k], GroupKey(rules[k], event), ticks[k].check);
    if a :| a in raised && a.ruleId == rules[k].ruleId {
      var j := RaisedFires(v, rules, event, ticks, |rules|, raised, a);
      assert j == k;
    }
    if Due(v, rules[k], event, ticks[k]) {
      FiringRaises(v, rules, event, ticks, |rules|, raised, k);
    }
  }

  /** So one condition that the event fails silences the rule. */
  lemma FailedConditionSilences(v: View, rules: seq<Rule>, event: Event, ticks: seq<Tick>, raised: seq<Alert>, k: nat, i: nat)
    requires RulesOk(rules) && k < |rules| == |ticks| && i < |rules[k].conditions|
    requires Outcome(v, rules, event, ticks, |rules|, raised) && !ConditionMatches(event, rules[k].conditions[i])
    ensures forall a :: a in raised ==> a.ruleId != rules[k].ruleId
  {
    AlertsExactly(v, rules, event, ticks, raised, k);
  }

  ghost predicate AlertsAsDue(v: View, rules: seq<Rule>, event: Event, ticks: seq<Tick>, raised: seq<Alert>)
    requires RulesOk(rules) && |rules| == |ticks|
  {
    forall k :: 0 <= k < |rules| ==>
      ((exists a :: a in raised && a.ruleId == rules[k].ruleId) <==> Due(v, rules[k], event, ticks[k]))
  }

  lemma AllAlertsAsDue(v: View, rules: seq<Rule>, event: Event, ticks: seq<Tick>, raised: seq<Alert>)
    requires RulesOk(rules) && |rules| == |ticks| && Outcome(v, rules, event, ticks, |rules|, raised)
    ensures AlertsAsDue(v, rules, event, ticks, raised)
  {
    forall k | 0 <= k < |rules|
      ensures (exists a :: a in raised && a.ruleId == rules[k].ruleId) <==> Due(v, rules[k], event, ticks[k])
    {
      AlertsExactly(v, rules, event, ticks, raised, k);
    }
  }

  // ---- What an alert says ----

  /** A rule groups by its threshold's fields if it has a threshold, by its own otherwise. */
  lemma GroupExactly(rule: Rule, event: Event, f: Field)
    ensures f in GroupKey(rule, event) <==> f in (if rule.threshold.Some? then rule.threshold.value.groupBy else rule.groupBy)
    ensures f in GroupKey(rule, event) ==> GroupKey(rule, event)[f] == FieldValue(event, f)
  {
  }

  lemma SeverityExactly(s: Severity)
    ensures SeverityName(s) == match s case Low => "low" case Medium => "medium" case High => "high" case Critical => "critical"
  {
  }

  /** The evidence is the last hundred of the ordered hits, and no hit left out is later than one of them. */
  lemma EvidenceIsNewest(rows: seq<Hit>)
    requires forall i, j :: 0 <= i < j < |rows| ==> HitBefore(rows[i], rows[j])
    ensures var ids := Newest100(rows);
      && |ids| == (if |rows| <= 100 then |rows| else 100)
      && (forall j :: 0 <= j < |ids| ==> ids[j] == rows[|rows| - |ids| + j].eventId)
      && forall i, j :: 0 <= i < |rows| - |ids| <= j < |rows| ==> HitBefore(rows[i], rows[j])
  {
  }

  function Ids(rows: seq<Hit>): seq<string> {
    seq(|rows|, i requires 0 <= i < |rows| => rows[i].eventId)
  }

  /** A hit that is not among the last rows is before each of them. */
  lemma BeforeTail(all: seq<Hit>, window: set<Hit>, limit: nat, from: nat, h: Hit)
    requires IsNewest(all, window, limit) && from <= |all| && h in window && h !in all[from..]
    ensures forall i :: 0 <= i < |all| - from ==> HitBefore(h, all[from..][i])
  {
    if h in all {
      var j :| 0 <= j < |all| && all[j] == h;
      InTail(all, from, j);
    }
  }

  lemma InTail(all: seq<Hit>, from: nat, j: nat)
    requires from <= |all| && j < |all|
    ensures j >= from ==> all[j] in all[from..]
  {
    if j >= from {
      assert all[from..][j - from] == all[j];
    }
  }

  lemma TailIsNewest(all: seq<Hit>, window: set<Hit>, limit: nat, from: nat)
    requires IsNewest(all, window, limit) && limit >= 100
    requires from == if |all| <= 100 then 0 else |all| - 100
    ensures IsNewest(all[from..], window, 100)
  {
    var last := all[from..];
    forall h, i | h in window && h !in last && 0 <= i < |last| ensures HitBefore(h, last[i]) {
      BeforeTail(all, window, limit, from, h);
    }
  }

  lemma LastHundred(window: set<Hit>, limit: nat, from: nat)
    requires limit >= 100 && from <= |Newest(window, limit)|
    requires from == if |Newest(window, limit)| <= 100 then 0 else |Newest(window, limit)| - 100
    ensures Newest(window, limit)[from..] == Newest(window, 100)
  {
    var all := Newest(window, limit);
    NewestIsNewest(all, window, limit);
    TailIsNewest(all, window, limit, from);
    NewestIsNewest(all[from..], window, 100);
  }

  lemma LastHundredIds(window: set<Hit>, limit: nat)
    requires limit >= 100
    ensures Newest100(Newest(window, limit)) == Ids(Newest(window, 100))
  {
    var all := Newest(window, limit);
    var from := if |all| <= 100 then 0 else |all| - 100;
    LastHundred(window, limit, from);
    LastIds(all, from);
  }

  lemma LastIds(rows: seq<Hit>, from: nat)
    requires from == if |rows| <= 100 then 0 else |rows| - 100
    ensures Newest100(rows) == Ids(rows[from..])
  {
    assert forall i :: 0 <= i < |rows| - from ==> rows[from..][i] == rows[from + i];
  }

  /** A threshold alert's evidence is the newest hundred of the hits in the rule's window, or all of them when there
      are fewer, in stored order. */
  lemma EvidenceExactly(v: View, rule: Rule, event: Event, evidence: seq<string>)
    requires RuleAccepted(rule) && rule.threshold.Some?
    ensures EvidenceFor(v, rule, event, evidence) <==> evidence == Ids(Newest(WindowNow(v, rule, event), 100))
  {
    LastHundredIds(WindowNow(v, rule, event), Limit(rule.threshold.value.count));
  }

  // ---- Independence of the rules ----

  /** The rule's own part of the store, over all groups, is the same in both. */
  ghost predicate SameFor(rule: Rule, v: View, v': View) {
    && (forall g :: HistoryIn(v'.history, (rule, g)) == HistoryIn(v.history, (rule, g)))
    && forall g :: LastAlertAt(v'.alerts, rule.ruleId, g) == LastAlertAt(v.alerts, rule.ruleId, g)
  }

  lemma SameVerdict(rule: Rule, event: Event, tick: Tick, v: View, v': View)
    requires RuleAccepted(rule) && SameFor(rule, v, v')
    ensures Fires(v', rule, event, tick) <==> Fires(v, rule, event, tick)
    ensures forall a :: AlertFor(v', rule, event, tick, a) ==> AlertFor(v, rule, event, tick, a)
  {
    var g := GroupKey(rule, event);
    assert LastAlertAt(v'.alerts, rule.ruleId, g) == LastAlertAt(v.alerts, rule.ruleId, g);
    assert HistoryIn(v'.history, (rule, g)) == HistoryIn(v.history, (rule, g));
    assert rule.threshold.Some? ==> WindowNow(v', rule, event) == WindowNow(v, rule, event);
  }

  /** One turn: histories changed under the given rule only, and its alert, if any, was added. */
  ghost predicate TurnOf(rule: Rule, v: View, v': View, alert: Option<Alert>) {
    && (forall key: Key :: key.0 != rule ==> HistoryIn(v'.history, key) == HistoryIn(v.history, key))
    && v'.alerts == Extended(v.alerts, alert)
    && (alert.Some? ==> alert.value.ruleId == rule.ruleId)
  }

  lemma TurnSparesOthers(rule: Rule, other: Rule, start: View, v: View, v': View, alert: Option<Alert>)
    requires rule.ruleId != other.ruleId
    requires SameFor(other, start, v) && TurnOf(rule, v, v', alert)
    ensures SameFor(other, start, v')
  {
    forall g ensures LastAlertAt(v'.alerts, other.ruleId, g) == LastAlertAt(v.alerts, other.ruleId, g) {
      if alert.Some? {
        OtherRulesUnmoved(v.alerts, [alert.value], other.ruleId, g);
      }
    }
  }

  /** After n turns: the alerts of the first n rules were added, and the other rules see the start. */
  ghost predicate Progress(start: View, rules: seq<Rule>, event: Event, ticks: seq<Tick>, n: nat, raised: seq<Alert>, v: View)
    requires RulesOk(rules) && n <= |rules| == |ticks|
  {
    && v.alerts == start.alerts + raised
    && Outcome(start, rules, event, ticks, n, raised)
    && forall k :: n <= k < |rules| ==> SameFor(rules[k], start, v)
  }

  lemma ProgressStart(start: View, rules: seq<Rule>, event: Event, ticks: seq<Tick>)
    requires RulesOk(rules) && |rules| == |ticks|
    ensures Progress(start, rules, event, ticks, 0, [], start)
  {
    assert start.alerts + [] == start.alerts;
  }

  /** The next alert's identifier is not yet in the store. */
  lemma FreshHere(start: View, rules: seq<Rule>, event: Event, ticks: seq<Tick>, n: nat, raised: seq<Alert>, v: View)
    requires RulesOk(rules) && n < |rules| == |ticks|
    requires Progress(start, rules, event, ticks, n, raised, v) && TicksFresh(start.alerts, ticks)
    ensures forall a :: a in v.alerts ==> a.alertId != ticks[n].alertId
  {
    forall a | a in raised ensures a.alertId != ticks[n].alertId {
      var k := RaisedFires(start, rules, event, ticks, n, raised, a);
    }
  }

  lemma ProgressStep(start: View, rules: seq<Rule>, event: Event, ticks: seq<Tick>, n: nat, raised: seq<Alert>, v: View, v': View, alert: Option<Alert>)
    requires RulesOk(rules) && n < |rules| == |ticks|
    requires Progress(start, rules, event, ticks, n, raised, v)
    requires TurnOf(rules[n], v, v', alert)
    requires alert.Some? <==> Fires(v, rules[n], event, ticks[n])
    requires alert.Some? ==> AlertFor(v, rules[n], event, ticks[n], alert.value)
    ensures Progress(start, rules, event, ticks, n + 1, Extended(raised, alert), v')
  {
    SameVerdict(rules[n], event, ticks[n], start, v);
    OutcomeStep(start, rules, event, ticks, n, raised, alert);
    forall k | n + 1 <= k < |rules| ensures SameFor(rules[k], start, v') {
      TurnSparesOthers(rules[n], rules[k], start, v, v', alert);
    }
  }

  /** There is evidence exactly when the threshold is crossed. */
  ghost predicate Collected(v: View, rule: Rule, event: Event, evidence: Option<seq<string>>)
    requires RuleAccepted(rule)
  {
    if Crosses(v, rule, event) then evidence.Some? && EvidenceFor(v, rule, event, evidence.value) else evidence.None?
  }

  /** The limited reply decides the threshold, and carries the evidence. */
  lemma NewestDecide(v: View, v': View, rule: Rule, event: Event, key: Key, pass: Pass, rows: seq<Hit>)
    requires RuleAccepted(rule) && rule.threshold.Some?
    requires key == (rule, GroupKey(rule, event)) && pass == PassOf(rule, event)
    requires v'.alerts == v.alerts && v'.history == Longer(v.history, key, pass)
    requires rows == Newest(Window(Table(v'.history[key]), pass), Limit(rule.threshold.value.count))
    ensures Collected(v, rule, event, if |rows| < rule.threshold.value.count then None else Some(Newest100(rows)))
    ensures TurnOf(rule, v, v', None)
  {
    LimitNeverHidesCrossing(WindowNow(v, rule, event), rule.threshold.value.count);
  }

  // ---- The engine ----

  class DetectionEngine {
    const store: Store
    const rules: seq<Rule>

    constructor (store: Store, rules: seq<Rule>)
      ensures this.store == store && this.rules == rules
    {
      this.store := store;
      this.rules := rules;
    }

    ghost function Now(): View
      reads store
    {
      View(store.history, store.alerts)
    }

    /** Records the event under a threshold rule: the evidence, or None below the threshold. */
    method Collect(rule: Rule, event: Event, group: Group) returns (evidence: Option<seq<string>>)
      requires store.Valid() && event in store.events
      requires RuleAccepted(rule) && rule.threshold.Some? && group == GroupKey(rule, event)
      modifies store
      ensures store.Valid() && store.events == old(store.events) && store.cases == old(store.cases)
      ensures Collected(old(Now()), rule, event, evidence)
      ensures TurnOf(rule, old(Now()), Now(), None)
    {
      var count, within := rule.threshold.value.count, rule.threshold.value.within;
      var recorded := store.RecordCorrelationHit((rule, group), event, within, if count < 100 then 100 else count);
      var rows := recorded.value;
      NewestDecide(old(Now()), Now(), rule, event, (rule, group), Pass(Hit(event.timestamp, event.eventId), within), rows);
      return if |rows| < count then None else Some(Newest100(rows));
    }

    /** The last part of a turn: raise the alert unless the rule and group are suppressed. */
    method RaiseUnlessSuppressed(rule: Rule, group: Group, evidence: seq<string>, tick: Tick) returns (alert: Option<Alert>)
      requires store.Valid()
      requires forall a :: a in store.alerts ==> a.alertId != tick.alertId
      modifies store
      ensures store.Valid() && store.events == old(store.events) && store.cases == old(store.cases)
      ensures alert.Some? <==> !Suppressed(old(store.alerts), rule.ruleId, group, tick.check, Effective(rule))
      ensures alert.Some? ==> alert.value == Alert(tick.alertId, rule.ruleId, SeverityName(rule.severity), evidence, tick.create, group)
      ensures store.history == old(store.history) && store.alerts == Extended(old(store.alerts), alert)
    {
      var suppressed := store.SuppressionActive(rule.ruleId, group, tick.check, Effective(rule));
      if suppressed {
        return None;
      }
      var a := Alert(tick.alertId, rule.ruleId, SeverityName(rule.severity), evidence, tick.create, group);
      var added := store.AddAlert(a, tick.create);
      return Some(a);
    }

    /** One turn of the loop: whether the rule alerts, and the alert, as the store before the turn decides. */
    method EvaluateRule(rule: Rule, event: Event, tick: Tick) returns (alert: Option<Alert>)
      requires store.Valid() && event in store.events && RuleAccepted(rule)
      requires forall a :: a in store.alerts ==> a.alertId != tick.alertId
      modifies store
      ensures store.Valid() && store.events == old(store.events) && store.cases == old(store.cases)
      ensures alert.Some? <==> Fires(old(Now()), rule, event, tick)
      ensures alert.Some? ==> AlertFor(old(Now()), rule, event, tick, alert.value)
      ensures TurnOf(rule, old(Now()), Now(), alert)
    {
      if !rule.enabled || !RuleMatches(event, rule) {
        return None;
      }
      var group := GroupKey(rule, event);
      var evidence := Some([event.eventId]);
      if rule.threshold.Some? {
        evidence := Collect(rule, event, group);
        if evidence.None? {
          return None;
        }
      }
      alert := RaiseUnlessSuppressed(rule, group, evidence.value, tick);
    }

    /** The loop over the rules raises exactly the alerts of the rules that fire on the store as it was, one
        each and in rule order: no rule's turn disturbs another's. */
    method Evaluate(event: Event, ticks: seq<Tick>) returns (raised: seq<Alert>)
      requires store.Valid() && event in store.events
      requires RulesOk(rules) && |ticks| == |rules| && TicksFresh(store.alerts, ticks)
      modifies store
      ensures store.Valid() && store.events == old(store.events) && store.cases == old(store.cases)
      ensures store.alerts == old(store.alerts) + raised
      ensures Outcome(old(Now()), rules, event, ticks, |rules|, raised)
      ensures AlertsAsDue(old(Now()), rules, event, ticks, raised)
      ensures Forward(ticks) && Spaced(old(store.alerts), rules) ==> Spaced(store.alerts, rules)
    {
      raised := [];
      ghost var start := Now();
      ProgressStart(start, rules, event, ticks);
      for n := 0 to |rules|
        invariant store.Valid() && store.events == old(store.events) && store.cases == old(store.cases)
        invariant Progress(start, rules, event, ticks, n, raised, Now())
      {
        ghost var before := Now();
        FreshHere(start, rules, event, ticks, n, raised, before);
        var alert := EvaluateRule(rules[n], event, ticks[n]);
        ProgressStep(start, rules, event, ticks, n, raised, before, Now(), alert);
        raised := Extended(raised, alert);
      }
      EvaluationKeepsAllSpacing(start, rules, event, ticks, raised);
      AllAlertsAsDue(start, rules, event, ticks, raised);
    }
  }
}
