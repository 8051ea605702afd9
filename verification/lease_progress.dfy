/** lease_task makes progress: an incapable task is blocked once, never handed out and never in the way. */
module LeaseProgress {
  import opened Wrappers
  import opened Tasks
  import opened TaskInvariants
  import opened Effects

  /** The connector's queued-or-expired tasks. */
  function Candidates(s: State, connector: Id, now: Instant): set<Id> {
    set t | 0 <= t < |s.tasks| && Leasable(Reclaim(s, connector, now), connector, t)
  }

  /** The connector's queued or running tasks. */
  function Live(s: State, connector: Id): set<Id> {
    set t | 0 <= t < |s.tasks| && s.tasks[t].connector == Some(connector) && s.tasks[t].status in {Queued, Running}
  }

  /** The connector, and the agent that the row names, hold the row's capability. */
  ghost predicate Capable(s: State, connector: Id, t: Id)
    requires t < |s.tasks|
  {
    ConnectorHolds(s, connector, s.tasks[t]) && AgentHolds(s, connector, s.tasks[t])
  }

  ghost predicate Open(env: Platform, s: State, connector: Id) {
    Inv(env, s) && LiveConnector(s, connector) && !Prohibits(s)
  }

  /** One lease call, undisturbed: with nothing queued or expired it returns nothing; otherwise it takes the
      oldest candidate, and leases it exactly when its connector and agent are still capable, or else blocks
      it and has one candidate fewer. */
  lemma LeaseAdvances(env: Platform, s: State, connector: Id, pick: Option<Id>, now: Instant)
    requires Open(env, s, connector) && OldestQueued(Reclaim(s, connector, now), connector, pick)
    ensures LeaseTask(env, s, connector, pick, now).Success?
    ensures var lease := LeaseTask(env, s, connector, pick, now).value;
      && Open(env, lease.state, connector)
      && (Candidates(s, connector, now) == {} <==> pick.None?)
      && (pick.None? ==> lease.leased.None? && lease.state == Reclaim(s, connector, now))
    ensures var lease := LeaseTask(env, s, connector, pick, now).value;
      pick.Some? ==>
        && pick.value in Candidates(s, connector, now)
        && (forall t :: t in Candidates(s, connector, now) ==> s.tasks[pick.value].createdAt <= s.tasks[t].createdAt)
        && (lease.leased.Some? <==> Capable(s, connector, pick.value))
        && (lease.leased.Some? ==> lease.leased.value.0 == pick.value && lease.state.tasks[pick.value].status == Running)
        && (lease.leased.None? ==>
          && lease.state.tasks[pick.value].status == Blocked
          && Candidates(lease.state, connector, now) == Candidates(s, connector, now) - {pick.value}
          && Live(lease.state, connector) == Live(s, connector) - {pick.value})
  {
    if pick.Some? {
      assert pick.value in Candidates(s, connector, now);
      LeaseMoves(env, s, connector, pick.value, now);
    } else {
      ReclaimKeeps(env, s, connector, now);
    }
  }

  lemma LeaseMoves(env: Platform, s: State, connector: Id, p: Id, now: Instant)
    requires Open(env, s, connector) && Leasable(Reclaim(s, connector, now), connector, p)
    ensures LeaseTask(env, s, connector, Some(p), now).Success?
    ensures var lease := LeaseTask(env, s, connector, Some(p), now).value;
      && Open(env, lease.state, connector)
      && |lease.state.tasks| == |s.tasks|
      && (lease.leased.Some? <==> Capable(s, connector, p))
      && (lease.leased.None? ==>
        && lease.state.tasks[p].status == Blocked
        && Candidates(lease.state, connector, now) == Candidates(s, connector, now) - {p}
        && Live(lease.state, connector) == Live(s, connector) - {p})
  {
    LeaseExactly(env, s, connector, p, now);
    LeaseKeeps(env, s, connector, Some(p), now);
    var s' := LeaseTask(env, s, connector, Some(p), now).value.state;
    if !Capable(s, connector, p) {
      IncapableIsBlocked(env, s, connector, p, now);
      BlockedLeaves(s, s', connector, p, now);
    }
  }

  /** Blocking one candidate takes it, and only it, out of both sets. */
  lemma BlockedLeaves(s: State, s': State, connector: Id, p: Id, now: Instant)
    requires p < |s.tasks| == |s'.tasks| && s'.tasks[p].status == Blocked
    requires forall t :: 0 <= t < |s.tasks| && t != p ==> s'.tasks[t] == ReclaimOne(s.tasks[t], connector, now)
    ensures Candidates(s', connector, now) == Candidates(s, connector, now) - {p}
    ensures Live(s', connector) == Live(s, connector) - {p}
  {
  }

  datatype Try = Try(pick: Option<Id>, at: Instant)

  /** Consecutive lease calls of one connector that all come back empty. */
  ghost predicate Barren(env: Platform, s: State, connector: Id, tries: seq<Try>)
    decreases |tries|
  {
    tries == [] ||
    var lease := LeaseTask(env, s, connector, tries[0].pick, tries[0].at);
    && OldestQueued(Reclaim(s, connector, tries[0].at), connector, tries[0].pick)
    && lease.Success? && lease.value.leased.None?
    && Barren(env, lease.value.state, connector, tries[1..])
  }

  /** While a capable task waits, at any clock readings, fewer empty replies in a row than the connector has
      queued or running tasks: that many calls always reach a leasable task. */
  lemma {:induction false} LeaseReachesWork(env: Platform, s: State, connector: Id, g: Id, tries: seq<Try>)
    requires Open(env, s, connector)
    requires Leasable(s, connector, g) && Capable(s, connector, g)
    requires Barren(env, s, connector, tries)
    ensures |tries| < |Live(s, connector)|
    decreases |tries|
  {
    assert g in Live(s, connector);
    if tries != [] {
      var pick, now := tries[0].pick, tries[0].at;
      var r := Reclaim(s, connector, now);
      assert Leasable(r, connector, g);
      LeaseAdvances(env, s, connector, pick, now);
      var s' := LeaseTask(env, s, connector, pick, now).value.state;
      assert pick.Some? && pick.value != g;
      assert s'.tasks[g] == s.tasks[g];
      LeaseReachesWork(env, s', connector, g, tries[1..]);
      assert pick.value in Live(s, connector);
    }
  }
}
