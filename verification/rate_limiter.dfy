/** server.py: the sliding-window limiter of operator requests. Clock readings are taken before the lock, so in
    lock order they may run backwards. */
module RateLimiter {

  const WINDOW: real := 60.0
  const LIMIT: nat := 10

  // ---- One identity's list, as a function of its readings in lock order ----

  function Recent(instants: seq<real>, now: real): seq<real> {
    if instants == [] then []
    else
      var n := |instants| - 1;
      var rest := Recent(instants[..n], now);
      if now - instants[n] < WINDOW then rest + [instants[n]] else rest
  }

  predicate Admits(instants: seq<real>, now: real) {
    |Recent(instants, now)| < LIMIT
  }

  function Next(instants: seq<real>, now: real): seq<real> {
    if Admits(instants, now) then Recent(instants, now) + [now] else Recent(instants, now)
  }

  function Kept(readings: seq<real>): seq<real> {
    if readings == [] then []
    else Next(Kept(readings[..|readings| - 1]), readings[|readings| - 1])
  }

  /** The readings that were accepted. */
  function Accepted(readings: seq<real>): seq<real> {
    if readings == [] then []
    else
      var n := |readings| - 1;
      if Admits(Kept(readings[..n]), readings[n]) then Accepted(readings[..n]) + [readings[n]] else Accepted(readings[..n])
  }

  /** How many instants lie in [from, to). */
  function CountIn(instants: seq<real>, from: real, to: real): nat {
    if instants == [] then 0
    else
      var n := |instants| - 1;
      CountIn(instants[..n], from, to) + if from <= instants[n] < to then 1 else 0
  }

  /** No reading runs behind an earlier one by more than d. */
  ghost predicate Disorder(readings: seq<real>, d: real) {
    forall i, j :: 0 <= i < j < |readings| ==> readings[i] - readings[j] <= d
  }

  // ---- Counting ----

  lemma CountSnoc(instants: seq<real>, t: real, from: real, to: real)
    ensures CountIn(instants + [t], from, to) == CountIn(instants, from, to) + if from <= t < to then 1 else 0
  {
    assert (instants + [t])[..|instants|] == instants;
  }

  lemma {:induction false} CountAtMost(instants: seq<real>, from: real, to: real)
    ensures CountIn(instants, from, to) <= |instants|
  {
    if instants != [] {
      CountAtMost(instants[..|instants| - 1], from, to);
    }
  }

  /** Pruning at t spares what lies in a window that starts less than WINDOW before t. */
  lemma {:induction false} RecentCount(instants: seq<real>, now: real, from: real, to: real)
    requires now < from + WINDOW
    ensures CountIn(Recent(instants, now), from, to) == CountIn(instants, from, to)
  {
    if instants != [] {
      var n := |instants| - 1;
      RecentCount(instants[..n], now, from, to);
      if now - instants[n] < WINDOW {
        CountSnoc(Recent(instants[..n], now), instants[n], from, to);
      }
    }
  }

  /** While no reading has reached from + WINDOW, nothing at or after `from` was pruned. */
  lemma {:induction false} KeptCount(readings: seq<real>, from: real, to: real)
    requires forall i :: 0 <= i < |readings| ==> readings[i] < from + WINDOW
    ensures CountIn(Kept(readings), from, to) == CountIn(Accepted(readings), from, to)
  {
    if readings != [] {
      var n := |readings| - 1;
      var before, now := readings[..n], readings[n];
      KeptCount(before, from, to);
      RecentCount(Kept(before), now, from, to);
      if Admits(Kept(before), now) {
        CountSnoc(Recent(Kept(before), now), now, from, to);
        CountSnoc(Accepted(before), now, from, to);
      }
    }
  }

  lemma {:induction false} KeptAtMostLimit(readings: seq<real>)
    ensures |Kept(readings)| <= 10
  {
    if readings != [] {
      KeptAtMostLimit(readings[..|readings| - 1]);
      RecentShorter(Kept(readings[..|readings| - 1]), readings[|readings| - 1]);
    }
  }

  lemma {:induction false} RecentShorter(instants: seq<real>, now: real)
    ensures |Recent(instants, now)| <= |instants|
  {
    if instants != [] {
      RecentShorter(instants[..|instants| - 1], now);
    }
  }

  // ---- At most ten in any window shorter than the disorder allows ----

  lemma {:induction false} AtMostTen(readings: seq<real>, d: real, from: real, to: real)
    requires Disorder(readings, d) && 0.0 <= d && to - from <= 60.0 - d
    ensures CountIn(Accepted(readings), from, to) <= 10
  {
    if readings != [] {
      var n := |readings| - 1;
      var before, now := readings[..n], readings[n];
      AtMostTen(before, d, from, to);
      if Admits(Kept(before), now) {
        CountSnoc(Accepted(before), now, from, to);
        if from <= now < to {
          forall i | 0 <= i < n ensures before[i] < from + WINDOW {
            assert readings[i] - readings[n] <= d;
          }
          KeptCount(before, from, to);
          RecentCount(Kept(before), now, from, to);
          CountAtMost(Recent(Kept(before), now), from, to);
        }
      }
    }
  }

  // ---- The bound is exact ----

  function Repeat(t: real, n: nat): (s: seq<real>)
    ensures |s| == n && forall i :: 0 <= i < n ==> s[i] == t
  {
    if n == 0 then [] else Repeat(t, n - 1) + [t]
  }

  lemma {:induction false} RecentOfRepeat(t: real, n: nat, now: real)
    ensures Recent(Repeat(t, n), now) == if now - t < WINDOW then Repeat(t, n) else []
  {
    if n > 0 {
      assert Repeat(t, n)[..n - 1] == Repeat(t, n - 1);
      RecentOfRepeat(t, n - 1, now);
    }
  }

  lemma {:induction false} BurstAccepted(n: nat)
    requires n <= LIMIT
    ensures Kept(Repeat(0.0, n)) == Accepted(Repeat(0.0, n)) == Repeat(0.0, n)
  {
    if n > 0 {
      assert Repeat(0.0, n)[..n - 1] == Repeat(0.0, n - 1);
      BurstAccepted(n - 1);
      RecentOfRepeat(0.0, n - 1, 0.0);
    }
  }

  lemma AcceptedSnoc(readings: seq<real>, now: real)
    ensures Kept(readings + [now]) == Next(Kept(readings), now)
    ensures Accepted(readings + [now]) == if Admits(Kept(readings), now) then Accepted(readings) + [now] else Accepted(readings)
  {
    assert (readings + [now])[..|readings|] == readings;
  }

  lemma BurstThenPrune(d: real)
    requires 0.0 <= d <= WINDOW
    ensures Accepted(Repeat(0.0, LIMIT) + [WINDOW] + [WINDOW - d]) == Repeat(0.0, LIMIT) + [WINDOW] + [WINDOW - d]
  {
    var burst := Repeat(0.0, LIMIT);
    BurstAccepted(LIMIT);
    RecentOfRepeat(0.0, LIMIT, WINDOW);
    AcceptedSnoc(burst, WINDOW);
    assert Kept(burst + [WINDOW]) == [WINDOW];
    assert Recent([WINDOW], WINDOW - d) == [WINDOW] by {
      assert [WINDOW][..0] == [];
    }
    AcceptedSnoc(burst + [WINDOW], WINDOW - d);
  }

  /** Ten requests at zero, one at sixty that prunes them, and one that read its clock d earlier. */
  lemma BurstAfterPrune(d: real, length: real)
    requires 0.0 <= d <= WINDOW && length > WINDOW - d
    ensures exists readings :: Disorder(readings, d) && CountIn(Accepted(readings), 0.0, length) > LIMIT
  {
    var burst := Repeat(0.0, LIMIT);
    var all := burst + [WINDOW] + [WINDOW - d];
    BurstThenPrune(d);
    CountSnoc(burst + [WINDOW], WINDOW - d, 0.0, length);
    CountSnoc(burst, WINDOW, 0.0, length);
    BurstCount(LIMIT, length);
    assert Disorder(all, d);
  }

  lemma {:induction false} BurstCount(n: nat, length: real)
    requires length > 0.0
    ensures CountIn(Repeat(0.0, n), 0.0, length) == n
  {
    if n > 0 {
      BurstCount(n - 1, length);
      CountSnoc(Repeat(0.0, n - 1), 0.0, 0.0, length);
    }
  }

  /** With readings that run back by at most d, the limiter accepts at most ten requests in every window up to
      a length if and only if that length is at most sixty less d. */
  lemma TenPerWindowExactly(d: real, length: real)
    requires 0.0 <= d <= 60.0
    ensures length <= 60.0 - d <==> forall readings, from, to ::
      Disorder(readings, d) && to - from <= length ==> CountIn(Accepted(readings), from, to) <= 10
  {
    if length <= WINDOW - d {
      forall readings, from, to | Disorder(readings, d) && to - from <= length
        ensures CountIn(Accepted(readings), from, to) <= LIMIT
      {
        AtMostTen(readings, d, from, to);
      }
    } else {
      BurstAfterPrune(d, length);
    }
  }

  // ---- With a monotone clock, pruning is invisible ----

  lemma RecentOfConcat(a: seq<real>, t: real, now: real)
    ensures Recent(a + [t], now) == if now - t < WINDOW then Recent(a, now) + [t] else Recent(a, now)
  {
    assert (a + [t])[..|a|] == a;
  }

  lemma {:induction false} RecentTwice(instants: seq<real>, earlier: real, now: real)
    requires earlier <= now
    ensures Recent(Recent(instants, earlier), now) == Recent(instants, now)
  {
    if instants != [] {
      var n := |instants| - 1;
      RecentTwice(instants[..n], earlier, now);
      if earlier - instants[n] < WINDOW {
        RecentOfConcat(Recent(instants[..n], earlier), instants[n], now);
      }
    }
  }

  /** The decision is the one that counting the whole accepted history would make. */
  lemma {:induction false} PruningInvisible(readings: seq<real>, now: real)
    requires Disorder(readings, 0.0) && forall i :: 0 <= i < |readings| ==> readings[i] <= now
    ensures Recent(Kept(readings), now) == Recent(Accepted(readings), now)
    ensures Admits(Kept(readings), now) <==> Admits(Accepted(readings), now)
  {
    if readings != [] {
      var n := |readings| - 1;
      var before, last := readings[..n], readings[n];
      forall i | 0 <= i < n ensures before[i] <= last {
        assert readings[i] - readings[n] <= 0.0;
      }
      PruningInvisible(before, now);
      PruneOnce(Kept(before), Accepted(before), last, now);
      assert readings == before + [last];
      AcceptedSnoc(before, last);
    }
  }

  lemma PruneOnce(kept: seq<real>, accepted: seq<real>, last: real, now: real)
    requires last <= now && Recent(kept, now) == Recent(accepted, now)
    ensures Recent(Next(kept, last), now) == Recent(if Admits(kept, last) then accepted + [last] else accepted, now)
  {
    RecentTwice(kept, last, now);
    RecentOfConcat(Recent(kept, last), last, now);
    RecentOfConcat(accepted, last, now);
  }

  // ---- The server's lists ----

  class MissionControl {
    var requests: map<string, seq<real>>
    ghost var readings: map<string, seq<real>>

    /** Each identity's list is what its readings leave. */
    ghost predicate Valid()
      reads this
    {
      requests.Keys == readings.Keys && forall id :: id in requests ==> requests[id] == Kept(readings[id])
    }

    constructor ()
      ensures Valid() && readings == map[]
    {
      requests, readings := map[], map[];
    }

    ghost function ReadingsOf(identity: string): seq<real>
      reads this
    {
      if identity in readings then readings[identity] else []
    }

    method PruneInstants(instants: seq<real>, now: real) returns (recent: seq<real>)
      ensures recent == Recent(instants, now)
    {
      recent := [];
      for i := 0 to |instants|
        invariant recent == Recent(instants[..i], now)
      {
        assert instants[..i + 1][..i] == instants[..i];
        if now - instants[i] < WINDOW {
          recent := recent + [instants[i]];
        }
      }
      assert instants[..|instants|] == instants;
    }

    method AllowControlRequest(identity: string, now: real) returns (allowed: bool)
      requires Valid()
      modifies this
      ensures Valid()
      ensures readings == old(readings)[identity := old(ReadingsOf(identity)) + [now]]
      ensures allowed <==> Admits(Kept(old(ReadingsOf(identity))), now)
      ensures Accepted(ReadingsOf(identity)) ==
        if allowed then Accepted(old(ReadingsOf(identity))) + [now] else Accepted(old(ReadingsOf(identity)))
      ensures forall id :: id != identity && id in requests ==> id in old(requests) && requests[id] == old(requests)[id]
    {
      var instants := if identity in requests then requests[identity] else [];
      var recent := PruneInstants(instants, now);
      allowed := |recent| < LIMIT;
      if allowed {
        recent := recent + [now];
      }
      AcceptedSnoc(ReadingsOf(identity), now);
      readings := readings[identity := ReadingsOf(identity) + [now]];
      requests := requests[identity := recent];
    }
  }
}
