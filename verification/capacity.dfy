/** run_capacity_probe.py: cooperative workers that share counters between awaits, and the percentiles of what
    they observed. */
module Capacity {

  /** A target's name, its weight in the rotation and the statuses it may answer with. */
  datatype Target = Target(name: string, weight: nat, expected: set<int>)

  function Times(t: Target, n: nat): seq<Target> {
    if n == 0 then [] else Times(t, n - 1) + [t]
  }

  /** Each target as often as its weight says. */
  function Expanded(targets: seq<Target>): seq<Target> {
    if targets == [] then []
    else Expanded(targets[..|targets| - 1]) + Times(targets[|targets| - 1], targets[|targets| - 1].weight)
  }

  datatype Worker = Starting | Waiting(index: nat) | Finished

  /** The status that came back, or nothing because the request raised; and the time it took. */
  datatype Outcome = Answered(status: int, latency: real) | Raised(latency: real)

  function StatusOf(o: Outcome): int {
    if o.Answered? then o.status else 0
  }

  predicate Failing(t: Target, o: Outcome) {
    o.Answered? ==> o.status !in t.expected
  }

  datatype State = State(
    next: nat, executed: nat, failures: nat, statuses: multiset<int>, latencies: seq<real>,
    targetRequests: multiset<string>, targetFailures: multiset<string>, targetLatencies: map<string, seq<real>>,
    workers: seq<Worker>,
    completed: seq<nat> // the request indices, in order of completion
  )

  /** What stays fixed: the rotation and the number of requests. */
  datatype Plan = Plan(rotation: seq<Target>, requests: nat)

  predicate PlanOk(p: Plan) {
    p.rotation != []
  }

  function TargetOf(p: Plan, index: nat): Target
    requires PlanOk(p)
  {
    p.rotation[index % |p.rotation|]
  }

  // ---- The steps between awaits ----

  /** The loop test, and the next request or the end of the worker. */
  function Loop(p: Plan, s: State, w: nat): State
    requires w < |s.workers|
  {
    if s.next < p.requests then s.(next := s.next + 1, workers := s.workers[w := Waiting(s.next)])
    else s.(workers := s.workers[w := Finished])
  }

  function CountTotals(s: State, o: Outcome, failed: bool): State {
    s.(executed := s.executed + 1,
       failures := if failed then s.failures + 1 else s.failures,
       statuses := s.statuses + multiset{StatusOf(o)},
       latencies := s.latencies + [o.latency])
  }

  function CountTarget(s: State, name: string, latency: real, failed: bool): State {
    s.(targetRequests := s.targetRequests + multiset{name},
       targetFailures := if failed then s.targetFailures + multiset{name} else s.targetFailures,
       targetLatencies := s.targetLatencies[name := LatenciesOf(s, name) + [latency]])
  }

  function LatenciesOf(s: State, name: string): seq<real> {
    if name in s.targetLatencies then s.targetLatencies[name] else []
  }

  function Recorded(p: Plan, s: State, index: nat, o: Outcome): State
    requires PlanOk(p)
  {
    var target := TargetOf(p, index);
    var failed := Failing(target, o);
    CountTarget(CountTotals(s, o, failed), target.name, o.latency, failed).(completed := s.completed + [index])
  }

  /** A worker runs until its next await: from its start, or from the answer to its request. */
  predicate Enabled(s: State, w: nat) {
    w < |s.workers| && !s.workers[w].Finished?
  }

  function Turn(p: Plan, s: State, w: nat, o: Outcome): State
    requires PlanOk(p) && Enabled(s, w)
  {
    match s.workers[w]
    case Starting => Loop(p, s, w)
    case Waiting(index) => Loop(p, Recorded(p, s, index, o), w)
  }

  function Initial(concurrency: nat): State {
    State(0, 0, 0, multiset{}, [], multiset{}, multiset{}, map[], seq(concurrency, _ => Starting), [])
  }

  datatype Move = Move(worker: nat, outcome: Outcome)

  /** The state after a schedule; a move of a finished worker, or of none, does nothing. */
  ghost function Run(p: Plan, concurrency: nat, schedule: seq<Move>): (s: State)
    requires PlanOk(p)
  {
    if schedule == [] then Initial(concurrency)
    else
      var before := Run(p, concurrency, schedule[..|schedule| - 1]);
      var m := schedule[|schedule| - 1];
      if Enabled(before, m.worker) then Turn(p, before, m.worker, m.outcome) else before
  }

  // ---- What every schedule keeps ----

  function Below(n: nat): multiset<nat> {
    if n == 0 then multiset{} else var last: nat := n - 1; Below(last) + multiset{last}
  }

  function Holds(w: Worker, index: nat): nat {
    if w == Waiting(index) then 1 else 0
  }

  /** How many workers wait for the answer to a request. */
  function InFlight(workers: seq<Worker>, index: nat): nat {
    if workers == [] then 0
    else InFlight(workers[..|workers| - 1], index) + Holds(workers[|workers| - 1], index)
  }

  function Unfinished(workers: seq<Worker>): nat {
    if workers == [] then 0
    else Unfinished(workers[..|workers| - 1]) + if workers[|workers| - 1].Finished? then 0 else 1
  }

  function Names(p: Plan, indices: seq<nat>): multiset<string>
    requires PlanOk(p)
  {
    if indices == [] then multiset{}
    else Names(p, indices[..|indices| - 1]) + multiset{TargetOf(p, indices[|indices| - 1]).name}
  }

  /** Each index handed out is in flight with one worker or completed once; the others are neither. */
  ghost predicate EachOnce(s: State) {
    forall i: nat {:trigger InFlight(s.workers, i)} ::
      multiset(s.completed)[i] + InFlight(s.workers, i) == if i < s.next then 1 else 0
  }

  /** Every counter counts the completed requests. */
  ghost predicate Accounts(p: Plan, s: State)
    requires PlanOk(p)
  {
    && s.executed == |s.completed| == |s.latencies| == |s.statuses| && s.failures == |s.targetFailures|
    && s.targetRequests == Names(p, s.completed)
    && forall name {:trigger LatenciesOf(s, name)} :: |LatenciesOf(s, name)| == s.targetRequests[name]
  }

  /** A worker stops only when every request was handed out. */
  ghost predicate StopsLast(p: Plan, s: State) {
    s.next <= p.requests && forall w :: 0 <= w < |s.workers| && s.workers[w].Finished? ==> s.next == p.requests
  }

  ghost predicate Inv(p: Plan, s: State)
    requires PlanOk(p)
  {
    EachOnce(s) && Accounts(p, s) && StopsLast(p, s)
  }

  lemma {:induction false} InFlightUpdate(workers: seq<Worker>, w: nat, x: Worker, index: nat)
    requires w < |workers|
    ensures InFlight(workers[w := x], index) == InFlight(workers, index) - Holds(workers[w], index) + Holds(x, index)
  {
    var n := |workers| - 1;
    if w < n {
      InFlightUpdate(workers[..n], w, x, index);
      assert workers[w := x][..n] == workers[..n][w := x];
    } else {
      assert workers[w := x][..n] == workers[..n];
    }
  }

  lemma {:induction false} UnfinishedUpdate(workers: seq<Worker>, w: nat, x: Worker)
    requires w < |workers| && !workers[w].Finished?
    ensures Unfinished(workers[w := x]) == Unfinished(workers) - if x.Finished? then 1 else 0
  {
    var n := |workers| - 1;
    if w < n {
      UnfinishedUpdate(workers[..n], w, x);
      assert workers[w := x][..n] == workers[..n][w := x];
    } else {
      assert workers[w := x][..n] == workers[..n];
    }
  }

  lemma NamesSnoc(p: Plan, indices: seq<nat>, index: nat)
    requires PlanOk(p)
    ensures Names(p, indices + [index]) == Names(p, indices) + multiset{TargetOf(p, index).name}
  {
    assert (indices + [index])[..|indices|] == indices;
  }

  lemma LoopOnce(p: Plan, s: State, w: nat)
    requires w < |s.workers| && s.workers[w].Starting? && EachOnce(s)
    ensures EachOnce(Loop(p, s, w))
  {
    var t := Loop(p, s, w);
    forall i: nat ensures multiset(t.completed)[i] + InFlight(t.workers, i) == if i < t.next then 1 else 0 {
      InFlightUpdate(s.workers, w, if s.next < p.requests then Waiting(s.next) else Finished, i);
    }
  }

  /** A worker at its loop test holds no request. */
  lemma LoopKeeps(p: Plan, s: State, w: nat)
    requires PlanOk(p) && w < |s.workers| && s.workers[w].Starting? && Inv(p, s)
    ensures Inv(p, Loop(p, s, w))
  {
    var t := Loop(p, s, w);
    LoopOnce(p, s, w);
    assert Accounts(p, t) by {
      assert forall name :: LatenciesOf(t, name) == LatenciesOf(s, name);
    }
  }

  /** The answer moves its index from in flight to completed. */
  lemma RecordedOnce(p: Plan, s: State, w: nat, o: Outcome)
    requires PlanOk(p) && EachOnce(s) && w < |s.workers| && s.workers[w].Waiting?
    ensures EachOnce(AtTest(Recorded(p, s, s.workers[w].index, o), w))
  {
    var t := AtTest(Recorded(p, s, s.workers[w].index, o), w);
    forall i: nat ensures multiset(t.completed)[i] + InFlight(t.workers, i) == if i < t.next then 1 else 0 {
      InFlightUpdate(s.workers, w, Starting, i);
    }
  }

  lemma RecordedAccounts(p: Plan, s: State, index: nat, o: Outcome)
    requires PlanOk(p) && Accounts(p, s)
    ensures Accounts(p, Recorded(p, s, index, o))
  {
    var t := Recorded(p, s, index, o);
    NamesSnoc(p, s.completed, index);
    forall name ensures |LatenciesOf(t, name)| == t.targetRequests[name] {
      assert |LatenciesOf(s, name)| == s.targetRequests[name];
    }
  }

  lemma AccountsAtTest(p: Plan, s: State, w: nat)
    requires PlanOk(p) && Accounts(p, s) && w < |s.workers|
    ensures Accounts(p, AtTest(s, w))
  {
    assert forall name :: LatenciesOf(AtTest(s, w), name) == LatenciesOf(s, name);
  }

  function AtTest(s: State, w: nat): State
    requires w < |s.workers|
  {
    s.(workers := s.workers[w := Starting])
  }

  lemma TurnKeeps(p: Plan, s: State, w: nat, o: Outcome)
    requires PlanOk(p) && Inv(p, s) && Enabled(s, w)
    ensures Inv(p, Turn(p, s, w, o))
  {
    if s.workers[w].Starting? {
      LoopKeeps(p, s, w);
    } else {
      var t := Recorded(p, s, s.workers[w].index, o);
      RecordedOnce(p, s, w, o);
      RecordedAccounts(p, s, s.workers[w].index, o);
      AccountsAtTest(p, t, w);
      LoopKeeps(p, AtTest(t, w), w);
      LoopAtTest(p, t, w);
    }
  }

  lemma LoopAtTest(p: Plan, s: State, w: nat)
    requires w < |s.workers|
    ensures Loop(p, AtTest(s, w), w) == Loop(p, s, w)
  {
  }

  lemma {:induction false} AllStarting(workers: seq<Worker>)
    requires forall w :: 0 <= w < |workers| ==> workers[w] == Starting
    ensures (forall i :: InFlight(workers, i) == 0) && Unfinished(workers) == |workers|
  {
    if workers != [] {
      AllStarting(workers[..|workers| - 1]);
    }
  }

  lemma {:induction false} RunKeeps(p: Plan, concurrency: nat, schedule: seq<Move>)
    requires PlanOk(p)
    ensures Inv(p, Run(p, concurrency, schedule)) && |Run(p, concurrency, schedule).workers| == concurrency
  {
    if schedule == [] {
      AllStarting(Initial(concurrency).workers);
    } else {
      var before := Run(p, concurrency, schedule[..|schedule| - 1]);
      var m := schedule[|schedule| - 1];
      RunKeeps(p, concurrency, schedule[..|schedule| - 1]);
      if Enabled(before, m.worker) {
        TurnKeeps(p, before, m.worker, m.outcome);
      }
    }
  }

  // ---- The end of every run ----

  predicate Ended(s: State) {
    forall w :: 0 <= w < |s.workers| ==> s.workers[w].Finished?
  }

  lemma {:induction false} NothingInFlight(workers: seq<Worker>)
    requires forall w :: 0 <= w < |workers| ==> workers[w].Finished?
    ensures forall i :: InFlight(workers, i) == 0
  {
    if workers != [] {
      NothingInFlight(workers[..|workers| - 1]);
    }
  }

  lemma {:induction false} BelowCounts(n: nat)
    ensures |Below(n)| == n
    ensures forall i: nat :: Below(n)[i] == if i < n then 1 else 0
  {
    if n > 0 {
      BelowCounts(n - 1);
    }
  }

  lemma IsBelow(m: multiset<nat>, n: nat)
    requires forall i: nat :: m[i] == if i < n then 1 else 0
    ensures m == Below(n)
  {
    BelowCounts(n);
  }

  /** At any moment of any schedule no request was handed out twice. */
  lemma DispatchedOnce(p: Plan, concurrency: nat, schedule: seq<Move>, index: nat)
    requires PlanOk(p)
    ensures var s := Run(p, concurrency, schedule);
      multiset(s.completed)[index] + InFlight(s.workers, index) == if index < s.next then 1 else 0
  {
    RunKeeps(p, concurrency, schedule);
  }

  function Remaining(p: Plan, s: State): int {
    p.requests - s.next + Unfinished(s.workers)
  }

  lemma TurnsCount(p: Plan, s: State, w: nat, o: Outcome)
    requires PlanOk(p) && Enabled(s, w)
    ensures Remaining(p, Turn(p, s, w, o)) == Remaining(p, s) - 1
  {
    UnfinishedUpdate(s.workers, w, if s.next < p.requests then Waiting(s.next) else Finished);
  }

  /** No move is wasted. */
  ghost predicate AllEnabled(p: Plan, concurrency: nat, schedule: seq<Move>)
    requires PlanOk(p)
  {
    schedule != [] ==>
      var n := |schedule| - 1;
      AllEnabled(p, concurrency, schedule[..n]) && Enabled(Run(p, concurrency, schedule[..n]), schedule[n].worker)
  }

  lemma {:induction false} RunLength(p: Plan, concurrency: nat, schedule: seq<Move>)
    requires PlanOk(p) && AllEnabled(p, concurrency, schedule)
    ensures |schedule| + Remaining(p, Run(p, concurrency, schedule)) == p.requests + concurrency
  {
    if schedule == [] {
      AllStarting(Initial(concurrency).workers);
    } else {
      var n := |schedule| - 1;
      RunLength(p, concurrency, schedule[..n]);
      TurnsCount(p, Run(p, concurrency, schedule[..n]), schedule[n].worker, schedule[n].outcome);
    }
  }

  lemma {:induction false} EndedIffNoneLeft(workers: seq<Worker>)
    ensures Unfinished(workers) == 0 <==> forall w :: 0 <= w < |workers| ==> workers[w].Finished?
  {
    if workers != [] {
      EndedIffNoneLeft(workers[..|workers| - 1]);
    }
  }

  /** Whatever the order, a run is over after exactly requests + concurrency moves. */
  lemma EndsExactly(p: Plan, concurrency: nat, schedule: seq<Move>)
    requires PlanOk(p) && concurrency > 0 && AllEnabled(p, concurrency, schedule)
    ensures |schedule| <= p.requests + concurrency
    ensures Ended(Run(p, concurrency, schedule)) <==> |schedule| == p.requests + concurrency
  {
    var s := Run(p, concurrency, schedule);
    RunKeeps(p, concurrency, schedule);
    RunLength(p, concurrency, schedule);
    EndedIffNoneLeft(s.workers);
  }

  /** A run that has not ended has a worker to move. */
  lemma NeverStuck(s: State)
    ensures Ended(s) <==> forall w :: !Enabled(s, w)
  {
    if !Ended(s) {
      var w :| 0 <= w < |s.workers| && !s.workers[w].Finished?;
      assert Enabled(s, w);
    }
  }

  lemma AllCompleted(p: Plan, s: State)
    requires PlanOk(p) && Inv(p, s) && Ended(s) && s.workers != []
    ensures multiset(s.completed) == Below(p.requests) && |s.completed| == p.requests
  {
    NothingInFlight(s.workers);
    assert s.workers[0].Finished?;
    var counts: multiset<nat> := multiset(s.completed);
    forall i: nat ensures counts[i] == if i < p.requests then 1 else 0 {
      assert InFlight(s.workers, i) == 0;
    }
    IsBelow(counts, p.requests);
    BelowCounts(p.requests);
    assert |counts| == |s.completed|;
  }

  /** The run's own accounting: when every worker has finished, each index was executed once, and executed, the
      statuses and the latencies all number the requests. */
  lemma EndAccounts(p: Plan, concurrency: nat, schedule: seq<Move>)
    requires PlanOk(p) && concurrency > 0 && Ended(Run(p, concurrency, schedule))
    ensures var s := Run(p, concurrency, schedule);
      && multiset(s.completed) == Below(p.requests)
      && s.executed == p.requests == |s.statuses| == |s.latencies| && s.failures == |s.targetFailures|
      && s.targetRequests == NamesBelow(p, p.requests)
      && forall name :: |LatenciesOf(s, name)| == s.targetRequests[name]
  {
    var s := Run(p, concurrency, schedule);
    RunKeeps(p, concurrency, schedule);
    AllCompleted(p, s);
    NamesOfAll(p, s.completed, p.requests);
  }

  // ---- What was observed ----

  /** The answer to the request of an index, as its worker took it. */
  datatype Answer = Answer(index: nat, outcome: Outcome)

  /** Every answer of a schedule, in the order in which the workers took them. */
  ghost function Answers(p: Plan, concurrency: nat, schedule: seq<Move>): seq<Answer>
    requires PlanOk(p)
  {
    if schedule == [] then []
    else
      var n := |schedule| - 1;
      var s, m := Run(p, concurrency, schedule[..n]), schedule[n];
      Answers(p, concurrency, schedule[..n]) + if Enabled(s, m.worker) then Taken(s, m.worker, m.outcome) else []
  }

  function Taken(s: State, w: nat, o: Outcome): seq<Answer>
    requires Enabled(s, w)
  {
    if s.workers[w].Waiting? then [Answer(s.workers[w].index, o)] else []
  }

  datatype Selection = Status(status: int) | Failed | Of(name: string) | FailedOf(name: string)

  /** A request fails when it raised, or when its target does not expect the status. */
  predicate Fails(p: Plan, a: Answer)
    requires PlanOk(p)
  {
    match a.outcome
    case Raised(_) => true
    case Answered(status, _) => status !in TargetOf(p, a.index).expected
  }

  predicate Selects(p: Plan, x: Selection, a: Answer)
    requires PlanOk(p)
  {
    match x
    case Status(status) => if a.outcome.Raised? then status == 0 else a.outcome.status == status
    case Failed => Fails(p, a)
    case Of(name) => TargetOf(p, a.index).name == name
    case FailedOf(name) => TargetOf(p, a.index).name == name && Fails(p, a)
  }

  function Selected(p: Plan, answers: seq<Answer>, x: Selection): seq<Answer>
    requires PlanOk(p)
  {
    if answers == [] then []
    else
      var n := |answers| - 1;
      Selected(p, answers[..n], x) + if Selects(p, x, answers[n]) then [answers[n]] else []
  }

  function Latencies(answers: seq<Answer>): seq<real> {
    seq(|answers|, i requires 0 <= i < |answers| => answers[i].outcome.latency)
  }

  function Indices(answers: seq<Answer>): seq<nat> {
    seq(|answers|, i requires 0 <= i < |answers| => answers[i].index)
  }

  ghost predicate TotalsCounted(p: Plan, s: State, answers: seq<Answer>)
    requires PlanOk(p)
  {
    && s.completed == Indices(answers) && s.executed == |answers| && s.latencies == Latencies(answers)
    && s.failures == |Selected(p, answers, Failed)|
  }

  ghost predicate StatusCounted(p: Plan, s: State, answers: seq<Answer>, status: int)
    requires PlanOk(p)
  {
    s.statuses[status] == |Selected(p, answers, Status(status))|
  }

  ghost predicate TargetCounted(p: Plan, s: State, answers: seq<Answer>, name: string)
    requires PlanOk(p)
  {
    && s.targetRequests[name] == |Selected(p, answers, Of(name))|
    && s.targetFailures[name] == |Selected(p, answers, FailedOf(name))|
    && LatenciesOf(s, name) == Latencies(Selected(p, answers, Of(name)))
  }

  /** Every counter is what the answers say it should be. */
  ghost predicate Counted(p: Plan, s: State, answers: seq<Answer>)
    requires PlanOk(p)
  {
    && TotalsCounted(p, s, answers)
    && (forall status :: StatusCounted(p, s, answers, status))
    && (forall name :: TargetCounted(p, s, answers, name))
  }

  lemma SelectedSnoc(p: Plan, answers: seq<Answer>, a: Answer, x: Selection)
    requires PlanOk(p)
    ensures Selected(p, answers + [a], x) == Selected(p, answers, x) + if Selects(p, x, a) then [a] else []
  {
    assert (answers + [a])[..|answers|] == answers;
  }

  lemma LatenciesSnoc(answers: seq<Answer>, a: Answer)
    ensures Latencies(answers + [a]) == Latencies(answers) + [a.outcome.latency]
    ensures Indices(answers + [a]) == Indices(answers) + [a.index]
  {
  }

  lemma RecordedTotals(p: Plan, s: State, answers: seq<Answer>, a: Answer)
    requires PlanOk(p) && TotalsCounted(p, s, answers)
    ensures TotalsCounted(p, Recorded(p, s, a.index, a.outcome), answers + [a])
  {
    SelectedSnoc(p, answers, a, Failed);
    LatenciesSnoc(answers, a);
  }

  lemma RecordedStatus(p: Plan, s: State, answers: seq<Answer>, a: Answer, status: int)
    requires PlanOk(p) && StatusCounted(p, s, answers, status)
    ensures StatusCounted(p, Recorded(p, s, a.index, a.outcome), answers + [a], status)
  {
    SelectedSnoc(p, answers, a, Status(status));
  }

  lemma RecordedTarget(p: Plan, s: State, answers: seq<Answer>, a: Answer, name: string)
    requires PlanOk(p) && TargetCounted(p, s, answers, name)
    ensures TargetCounted(p, Recorded(p, s, a.index, a.outcome), answers + [a], name)
  {
    SelectedSnoc(p, answers, a, Of(name));
    SelectedSnoc(p, answers, a, FailedOf(name));
    LatenciesSnoc(Selected(p, answers, Of(name)), a);
  }

  lemma RecordedCounted(p: Plan, s: State, answers: seq<Answer>, a: Answer)
    requires PlanOk(p) && Counted(p, s, answers)
    ensures Counted(p, Recorded(p, s, a.index, a.outcome), answers + [a])
  {
    var t := Recorded(p, s, a.index, a.outcome);
    RecordedTotals(p, s, answers, a);
    forall status ensures StatusCounted(p, t, answers + [a], status) {
      RecordedStatus(p, s, answers, a, status);
    }
    forall name ensures TargetCounted(p, t, answers + [a], name) {
      RecordedTarget(p, s, answers, a, name);
    }
  }

  lemma LoopCounted(p: Plan, s: State, answers: seq<Answer>, w: nat)
    requires PlanOk(p) && w < |s.workers| && Counted(p, s, answers)
    ensures Counted(p, Loop(p, s, w), answers)
  {
    var t := Loop(p, s, w);
    forall status ensures StatusCounted(p, t, answers, status) {
      assert StatusCounted(p, s, answers, status);
    }
    forall name ensures TargetCounted(p, t, answers, name) {
      assert TargetCounted(p, s, answers, name) && LatenciesOf(t, name) == LatenciesOf(s, name);
    }
  }

  lemma TurnCounted(p: Plan, s: State, answers: seq<Answer>, w: nat, o: Outcome)
    requires PlanOk(p) && Enabled(s, w) && Counted(p, s, answers)
    ensures Counted(p, Turn(p, s, w, o), answers + Taken(s, w, o))
  {
    match s.workers[w]
    case Starting =>
      LoopCounted(p, s, answers, w);
      assert answers + [] == answers;
    case Waiting(index) =>
      RecordedCounted(p, s, answers, Answer(index, o));
      LoopCounted(p, Recorded(p, s, index, o), answers + [Answer(index, o)], w);
  }

  /** After any schedule the counters are those of the answers taken so far: a status that the target does not
      expect, or none at all, is a failure of the run and of that target, and nothing else is. */
  lemma {:induction false} CountersAreAnswers(p: Plan, concurrency: nat, schedule: seq<Move>)
    requires PlanOk(p)
    ensures Counted(p, Run(p, concurrency, schedule), Answers(p, concurrency, schedule))
  {
    if schedule == [] {
      NothingCounted(p, concurrency);
    } else {
      var n := |schedule| - 1;
      CountersAreAnswers(p, concurrency, schedule[..n]);
      var s, answers := Run(p, concurrency, schedule[..n]), Answers(p, concurrency, schedule[..n]);
      if Enabled(s, schedule[n].worker) {
        TurnCounted(p, s, answers, schedule[n].worker, schedule[n].outcome);
      } else {
        assert answers + [] == answers;
      }
    }
  }

  lemma NothingCounted(p: Plan, concurrency: nat)
    requires PlanOk(p)
    ensures Counted(p, Initial(concurrency), [])
  {
  }

  // ---- Shares of the targets ----

  function NamesBelow(p: Plan, n: nat): multiset<string>
    requires PlanOk(p)
  {
    if n == 0 then multiset{} else NamesBelow(p, n - 1) + multiset{TargetOf(p, n - 1).name}
  }

  function Without(indices: seq<nat>, i: nat): seq<nat>
    requires i < |indices|
  {
    indices[..i] + indices[i + 1..]
  }

  lemma WithoutShift(indices: seq<nat>, i: nat)
    requires i < |indices| - 1
    ensures var n := |indices| - 1; Without(indices, i) == Without(indices[..n], i) + [indices[n]]
  {
  }

  lemma {:induction false} NamesWithout(p: Plan, indices: seq<nat>, i: nat)
    requires PlanOk(p) && i < |indices|
    ensures Names(p, indices) == Names(p, Without(indices, i)) + multiset{TargetOf(p, indices[i]).name}
  {
    var n := |indices| - 1;
    if i < n {
      NamesWithout(p, indices[..n], i);
      WithoutShift(indices, i);
      NamesSnoc(p, Without(indices[..n], i), indices[n]);
    } else {
      assert Without(indices, i) == indices[..n];
    }
  }

  lemma CountWithout(indices: seq<nat>, i: nat, k: nat)
    requires i < |indices|
    ensures multiset(Without(indices, i))[k] == multiset(indices)[k] - if indices[i] == k then 1 else 0
  {
    assert indices == indices[..i] + [indices[i]] + indices[i + 1..];
  }

  /** Taking the largest index out of all the indices below n leaves those below n - 1. */
  lemma WithoutLargest(indices: seq<nat>, n: nat) returns (i: nat)
    requires n > 0 && multiset(indices) == Below(n)
    ensures i < |indices| && indices[i] == n - 1 && multiset(Without(indices, i)) == Below(n - 1)
  {
    var last: nat := n - 1;
    assert last in multiset(indices);
    i :| 0 <= i < |indices| && indices[i] == last;
    var counts: multiset<nat> := multiset(Without(indices, i));
    BelowCounts(n);
    forall k: nat ensures counts[k] == if k < last then 1 else 0 {
      CountWithout(indices, i, k);
    }
    IsBelow(counts, last);
  }

  lemma {:induction false} NamesOfAll(p: Plan, indices: seq<nat>, n: nat)
    requires PlanOk(p) && multiset(indices) == Below(n)
    ensures Names(p, indices) == NamesBelow(p, n)
    decreases n
  {
    if n == 0 {
      assert |multiset(indices)| == |indices|;
    } else {
      var i := WithoutLargest(indices, n);
      NamesWithout(p, indices, i);
      NamesOfAll(p, Without(indices, i), n - 1);
    }
  }

  /** How many of the first k slots of the rotation are the target's. */
  function Slots(rotation: seq<Target>, name: string, k: nat): nat
    requires k <= |rotation|
  {
    if k == 0 then 0 else Slots(rotation, name, k - 1) + if rotation[k - 1].name == name then 1 else 0
  }

  lemma {:induction false} SlotsGrow(rotation: seq<Target>, name: string, j: nat, k: nat)
    requires j <= k <= |rotation|
    ensures Slots(rotation, name, j) <= Slots(rotation, name, k)
  {
    if j < k {
      SlotsGrow(rotation, name, j, k - 1);
    }
  }

  lemma MultipleSize(d: int, l: nat)
    ensures d >= 1 ==> d * l >= l
    ensures d <= -1 ==> d * l + l <= 0
  {
    if d >= 1 {
      assert (d - 1) * l >= 0;
    } else if d <= -1 {
      assert (-1 - d) * l >= 0;
    }
  }

  lemma DivIs(n: nat, l: nat, q: nat, r: nat)
    requires l > 0 && n == q * l + r && r < l
    ensures n / l == q && n % l == r
  {
    assert (n / l - q) * l == r - n % l;
    MultipleSize(n / l - q, l);
  }

  lemma DivNext(n: nat, l: nat)
    requires l > 0
    ensures if n % l + 1 == l then (n + 1) / l == n / l + 1 && (n + 1) % l == 0
      else (n + 1) / l == n / l && (n + 1) % l == n % l + 1
  {
    var q, r := n / l, n % l;
    if r + 1 == l {
      assert (q + 1) * l == q * l + l;
      DivIs(n + 1, l, q + 1, 0);
    } else {
      DivIs(n + 1, l, q, r + 1);
    }
  }

  /** Whole rounds of the rotation, and part of one. */
  lemma {:induction false} ShareIs(p: Plan, n: nat, name: string)
    requires PlanOk(p)
    ensures var l := |p.rotation|;
      NamesBelow(p, n)[name] == (n / l) * Slots(p.rotation, name, l) + Slots(p.rotation, name, n % l)
  {
    var l := |p.rotation|;
    if n > 0 {
      ShareIs(p, n - 1, name);
      DivNext(n - 1, l);
      var w := Slots(p.rotation, name, l);
      assert ((n - 1) / l + 1) * w == ((n - 1) / l) * w + w;
    }
  }

  /** Each target received its weight in every whole round, and at most its weight more. */
  lemma FairShare(p: Plan, concurrency: nat, schedule: seq<Move>, name: string)
    requires PlanOk(p) && concurrency > 0 && Ended(Run(p, concurrency, schedule))
    ensures var weight, rounds := Slots(p.rotation, name, |p.rotation|), p.requests / |p.rotation|;
      rounds * weight <= Run(p, concurrency, schedule).targetRequests[name] <= rounds * weight + weight
  {
    EndAccounts(p, concurrency, schedule);
    ShareIs(p, p.requests, name);
    SlotsGrow(p.rotation, name, p.requests % |p.rotation|, |p.rotation|);
  }

  function WeightOf(targets: seq<Target>, name: string): nat {
    if targets == [] then 0
    else WeightOf(targets[..|targets| - 1], name) + if targets[|targets| - 1].name == name then targets[|targets| - 1].weight else 0
  }

  lemma {:induction false} SlotsConcat(a: seq<Target>, b: seq<Target>, name: string)
    ensures Slots(a + b, name, |a + b|) == Slots(a, name, |a|) + Slots(b, name, |b|)
    decreases |b|
  {
    if b == [] {
      assert a + b == a;
    } else {
      var n := |b| - 1;
      SlotsConcat(a, b[..n], name);
      SlotsPrefix(a + b, name, |a| + n);
      SlotsPrefix(b, name, n);
      assert (a + b)[..|a| + n] == a + b[..n];
    }
  }

  lemma {:induction false} SlotsPrefix(rotation: seq<Target>, name: string, k: nat)
    requires k <= |rotation|
    ensures Slots(rotation, name, k) == Slots(rotation[..k], name, k)
    decreases k, |rotation|
  {
    if k > 0 {
      SlotsPrefix(rotation, name, k - 1);
      SlotsPrefix(rotation[..k], name, k - 1);
      assert rotation[..k][..k - 1] == rotation[..k - 1];
    }
  }

  lemma {:induction false} SlotsTimes(t: Target, n: nat, name: string)
    ensures |Times(t, n)| == n && Slots(Times(t, n), name, n) == if t.name == name then n else 0
  {
    if n > 0 {
      SlotsTimes(t, n - 1, name);
      SlotsPrefix(Times(t, n), name, n - 1);
      assert Times(t, n)[..n - 1] == Times(t, n - 1);
    }
  }

  /** The slots of a name in the expanded rotation are the weights of the targets of that name. */
  lemma {:induction false} SlotsAreWeight(targets: seq<Target>, name: string)
    ensures Slots(Expanded(targets), name, |Expanded(targets)|) == WeightOf(targets, name)
  {
    if targets != [] {
      var last := targets[|targets| - 1];
      SlotsAreWeight(targets[..|targets| - 1], name);
      SlotsTimes(last, last.weight, name);
      SlotsConcat(Expanded(targets[..|targets| - 1]), Times(last, last.weight), name);
    }
  }

  function TotalWeight(targets: seq<Target>): nat {
    if targets == [] then 0 else TotalWeight(targets[..|targets| - 1]) + targets[|targets| - 1].weight
  }

  /** The rotation lists the targets in the profile's order, each as often in a row as its weight says. */
  lemma {:induction false} ExpandedInOrder(targets: seq<Target>, k: nat, i: nat)
    requires k < |targets| && i < targets[k].weight
    ensures |Expanded(targets)| == TotalWeight(targets)
    ensures TotalWeight(targets[..k]) + i < |Expanded(targets)|
    ensures Expanded(targets)[TotalWeight(targets[..k]) + i] == targets[k]
  {
    var n := |targets| - 1;
    ExpandedSize(targets);
    ExpandedSize(targets[..n]);
    TimesAre(targets[n], targets[n].weight);
    if k < n {
      ExpandedInOrder(targets[..n], k, i);
      assert targets[..n][..k] == targets[..k];
    }
  }

  lemma {:induction false} ExpandedSize(targets: seq<Target>)
    ensures |Expanded(targets)| == TotalWeight(targets)
  {
    if targets != [] {
      ExpandedSize(targets[..|targets| - 1]);
      TimesAre(targets[|targets| - 1], targets[|targets| - 1].weight);
    }
  }

  lemma {:induction false} TimesAre(t: Target, n: nat)
    ensures |Times(t, n)| == n && forall i :: 0 <= i < n ==> Times(t, n)[i] == t
  {
    if n > 0 {
      TimesAre(t, n - 1);
    }
  }

  /** Each index was completed once, and every counter numbers the requests. */
  ghost predicate Accounted(p: Plan, s: State) {
    && multiset(s.completed) == Below(p.requests)
    && s.executed == p.requests == |s.statuses| == |s.latencies| && s.failures == |s.targetFailures|
  }

  lemma InitialKeeps(p: Plan, concurrency: nat)
    requires PlanOk(p)
    ensures Inv(p, Initial(concurrency))
  {
    AllStarting(Initial(concurrency).workers);
  }

  lemma TurnAccounts(p: Plan, s: State, w: nat, o: Outcome)
    requires PlanOk(p) && Inv(p, s) && Enabled(s, w)
    ensures Inv(p, Turn(p, s, w, o))
    ensures Ended(Turn(p, s, w, o)) ==> Accounted(p, Turn(p, s, w, o))
  {
    TurnKeeps(p, s, w, o);
    if Ended(Turn(p, s, w, o)) {
      AllCompleted(p, Turn(p, s, w, o));
    }
  }

  // ---- The run's shared variables ----

  class CapacityRun {
    const p: Plan
    var nextIndex: nat
    var executed: nat
    var failures: nat
    var statuses: multiset<int>
    var latencies: seq<real>
    var targetRequests: multiset<string>
    var targetFailures: multiset<string>
    var targetLatencies: map<string, seq<real>>
    var workers: seq<Worker>
    ghost var completed: seq<nat>

    ghost function View(): State
      reads this
    {
      State(nextIndex, executed, failures, statuses, latencies, targetRequests, targetFailures, targetLatencies, workers, completed)
    }

    /** The invariant that every schedule keeps. */
    ghost predicate Valid()
      reads this
    {
      PlanOk(p) && Inv(p, View())
    }

    constructor (p: Plan, concurrency: nat)
      requires PlanOk(p)
      ensures this.p == p && View() == Initial(concurrency) && Valid()
    {
      InitialKeeps(p, concurrency);
      this.p := p;
      nextIndex, executed, failures := 0, 0, 0;
      statuses, latencies := multiset{}, [];
      targetRequests, targetFailures, targetLatencies := multiset{}, multiset{}, map[];
      workers := seq(concurrency, _ => Starting);
      completed := [];
    }

    method RecordTotals(o: Outcome, error: bool)
      modifies this`executed, this`failures, this`statuses, this`latencies
      ensures View() == CountTotals(old(View()), o, error)
    {
      executed := executed + 1;
      if error {
        failures := failures + 1;
      }
      statuses := statuses + multiset{StatusOf(o)};
      latencies := latencies + [o.latency];
    }

    method RecordTarget(name: string, latency: real, error: bool)
      modifies this`targetLatencies, this`targetRequests, this`targetFailures
      ensures View() == CountTarget(old(View()), name, latency, error)
    {
      var observed := if name in targetLatencies then targetLatencies[name] else [];
      targetLatencies := targetLatencies[name := observed + [latency]];
      targetRequests := targetRequests + multiset{name};
      if error {
        targetFailures := targetFailures + multiset{name};
      }
    }

    method Record(index: nat, o: Outcome)
      requires PlanOk(p)
      modifies this
      ensures View() == Recorded(p, old(View()), index, o)
    {
      var target := TargetOf(p, index);
      var error := Failing(target, o);
      RecordTotals(o, error);
      RecordTarget(target.name, o.latency, error);
      completed := completed + [index];
    }

    method Advance(w: nat, o: Outcome)
      requires PlanOk(p) && Enabled(View(), w)
      modifies this
      ensures View() == Turn(p, old(View()), w, o)
    {
      if workers[w].Waiting? {
        Record(workers[w].index, o);
      }
      if nextIndex < p.requests {
        var index := nextIndex;
        nextIndex := nextIndex + 1;
        workers := workers[w := Waiting(index)];
      } else {
        workers := workers[w := Finished];
      }
    }

    /** One worker, from where it last awaited to its next await or its end. When the last worker ends, the
        counters account for every request. */
    method Resume(w: nat, o: Outcome)
      requires Valid() && Enabled(View(), w)
      modifies this
      ensures Valid() && View() == Turn(p, old(View()), w, o)
      ensures Ended(View()) ==> Accounted(p, View())
    {
      TurnAccounts(p, View(), w, o);
      Advance(w, o);
    }
  }

  // ---- Percentiles ----

  function Insert(sorted: seq<real>, x: real): seq<real> {
    if sorted == [] || x <= sorted[0] then [x] + sorted else [sorted[0]] + Insert(sorted[1..], x)
  }

  function Sorted(values: seq<real>): seq<real> {
    if values == [] then [] else Insert(Sorted(values[1..]), values[0])
  }

  function Ceil(x: real): int {
    -(-x).Floor
  }

  function Rank(n: nat, quantile: real): int {
    Ceil(n as real * quantile)
  }

  function Percentile(values: seq<real>, quantile: real): real
    requires 0.0 <= quantile <= 1.0
  {
    if values == [] then 0.0
    else
      RankInRange(|values|, quantile);
      SortedSize(values);
      var index := if Rank(|values|, quantile) < 1 then 0 else Rank(|values|, quantile) - 1;
      Sorted(values)[index]
  }

  lemma RankInRange(n: nat, quantile: real)
    requires 0.0 <= quantile <= 1.0
    ensures 0 <= Rank(n, quantile) <= n
  {
    assert 0.0 <= n as real * quantile <= n as real;
  }

  predicate Ascending(s: seq<real>) {
    forall i, j :: 0 <= i < j < |s| ==> s[i] <= s[j]
  }

  /** How many of the values are not above x. */
  function NotAbove(values: seq<real>, x: real): nat {
    if values == [] then 0 else NotAbove(values[1..], x) + if values[0] <= x then 1 else 0
  }

  lemma {:induction false} InsertMembers(s: seq<real>, x: real)
    ensures multiset(Insert(s, x)) == multiset(s) + multiset{x}
  {
    if s != [] && x > s[0] {
      InsertMembers(s[1..], x);
      assert s == [s[0]] + s[1..];
    }
  }

  lemma {:induction false} InsertAscending(s: seq<real>, x: real)
    requires Ascending(s)
    ensures Ascending(Insert(s, x))
  {
    if s != [] && x > s[0] {
      InsertAscending(s[1..], x);
      InsertMembers(s[1..], x);
      var rest := Insert(s[1..], x);
      forall i | 0 <= i < |rest| ensures s[0] <= rest[i] {
        assert rest[i] in multiset(rest);
      }
    }
  }

  lemma {:induction false} InsertCount(s: seq<real>, x: real, y: real)
    ensures NotAbove(Insert(s, x), y) == NotAbove(s, y) + if x <= y then 1 else 0
  {
    if s != [] && x > s[0] {
      InsertCount(s[1..], x, y);
    }
  }

  lemma {:induction false} SortedKeeps(values: seq<real>, y: real)
    ensures Ascending(Sorted(values)) && multiset(Sorted(values)) == multiset(values)
    ensures NotAbove(Sorted(values), y) == NotAbove(values, y)
  {
    if values != [] {
      SortedKeeps(values[1..], y);
      InsertMembers(Sorted(values[1..]), values[0]);
      InsertAscending(Sorted(values[1..]), values[0]);
      InsertCount(Sorted(values[1..]), values[0], y);
      assert values == [values[0]] + values[1..];
    }
  }

  lemma SortedSize(values: seq<real>)
    ensures |Sorted(values)| == |values|
  {
    SortedKeeps(values, 0.0);
    assert |multiset(Sorted(values))| == |multiset(values)|;
  }

  /** In ascending order, the values not above x are a prefix. */
  lemma {:induction false} NotAbovePrefix(s: seq<real>, x: real, k: nat)
    requires Ascending(s) && k <= |s|
    ensures (k > 0 ==> s[k - 1] <= x) ==> NotAbove(s, x) >= k
    ensures (k < |s| ==> x < s[k]) ==> NotAbove(s, x) <= k
  {
    if s != [] {
      NotAbovePrefix(s[1..], x, if k > 0 then k - 1 else 0);
    }
  }

  lemma AtIndex(s: seq<real>, k: nat)
    requires Ascending(s) && k < |s|
    ensures NotAbove(s, s[k]) >= k + 1
    ensures forall v :: v < s[k] ==> NotAbove(s, v) <= k
  {
    NotAbovePrefix(s, s[k], k + 1);
    forall v | v < s[k] ensures NotAbove(s, v) <= k {
      NotAbovePrefix(s, v, k);
    }
  }

  lemma FirstIsLeast(values: seq<real>, v: real)
    requires v in values
    ensures Sorted(values) != [] && Sorted(values)[0] <= v
  {
    SortedKeeps(values, v);
    assert v in multiset(Sorted(values));
  }

  /** The percentile is the least observation with at least ceil(n * quantile) observations not above it. */
  lemma PercentileIsLeast(values: seq<real>, quantile: real)
    requires values != [] && 0.0 <= quantile <= 1.0
    ensures var r := Percentile(values, quantile);
      && r in values && NotAbove(values, r) >= Rank(|values|, quantile)
      && forall v :: v in values && NotAbove(values, v) >= Rank(|values|, quantile) ==> r <= v
  {
    var s, rank := Sorted(values), Rank(|values|, quantile);
    var index: nat := if rank < 1 then 0 else rank - 1;
    RankInRange(|values|, quantile);
    SortedSize(values);
    var r := Percentile(values, quantile);
    SortedKeeps(values, r);
    assert r in multiset(s) && r in multiset(values);
    AtIndex(s, index);
    forall v | v in values && NotAbove(values, v) >= rank ensures r <= v {
      SortedKeeps(values, v);
      FirstIsLeast(values, v);
    }
  }

  /** In other words, it is the least observation that at least the quantile's part of all do not exceed. */
  lemma PercentileIsQuantile(values: seq<real>, quantile: real)
    requires values != [] && 0.0 <= quantile <= 1.0
    ensures var r := Percentile(values, quantile);
      && r in values && NotAbove(values, r) as real >= |values| as real * quantile
      && forall v :: v in values && NotAbove(values, v) as real >= |values| as real * quantile ==> r <= v
  {
    PercentileIsLeast(values, quantile);
    forall v ensures NotAbove(values, v) as real >= |values| as real * quantile <==> NotAbove(values, v) >= Rank(|values|, quantile) {
    }
  }
}
