/** clearance.py: single-use clearances. Processes race on one pruned nonce ledger, under a lock, with an
    atomic replace, and any of them may crash between two steps. */
module Clearance {
  import opened Wrappers

  type Nonce = nat
  type Process = nat
  type Time = int // microseconds, the resolution of a datetime

  const SECOND := 1_000_000
  const TTL := 300 * SECOND
  const RETENTION := TTL * 24
  const MAX_ENTRIES := 10_000

  /** A ledger record: its "at" parses, or is there but does not parse, or is missing. */
  datatype Record = At(time: Time) | BadText | NoField

  datatype File = Absent | Undecodable | NotJson | NotObject | Entries(used: map<Nonce, Record>)

  datatype Refusal = LedgerCorrupt | Replay | LedgerFull | Untyped

  // ---- The locked critical section ----

  predicate Kept(r: Record, now: Time) {
    r.At? ==> now - r.time <= RETENTION
  }

  function Prune(used: map<Nonce, Record>, now: Time): map<Nonce, Record> {
    map n | n in used && Kept(used[n], now) :: used[n]
  }

  /** What _consume_locked writes back, or why it refuses. A replayed nonce whose record has no "at" escapes
      as a KeyError, and undecodable bytes as a UnicodeDecodeError: refusals too, but untyped. */
  function Consume(file: File, nonce: Nonce, now: Time): Result<map<Nonce, Record>, Refusal> {
    match file
    case Undecodable => Failure(Untyped)
    case NotJson => Failure(LedgerCorrupt)
    case NotObject => Failure(LedgerCorrupt)
    case Absent => ConsumeFrom(map[], nonce, now)
    case Entries(used) => ConsumeFrom(used, nonce, now)
  }

  function ConsumeFrom(used: map<Nonce, Record>, nonce: Nonce, now: Time): Result<map<Nonce, Record>, Refusal> {
    if nonce in used then Failure(if used[nonce].NoField? then Untyped else Replay)
    else if |Prune(used, now)| >= MAX_ENTRIES then Failure(LedgerFull)
    else Success(Prune(used, now)[nonce := At(now)])
  }

  class NonceLedger {
    var file: File

    constructor (file: File)
      ensures this.file == file
    {
      this.file := file;
    }

    /** _prune: a loop that fills a dict with the records worth keeping. */
    method PruneEntries(used: map<Nonce, Record>, now: Time) returns (kept: map<Nonce, Record>)
      ensures kept == Prune(used, now)
    {
      kept := map[];
      var rest := used.Keys;
      while rest != {}
        invariant rest <= used.Keys
        invariant kept == map n | n in used && n !in rest && Kept(used[n], now) :: used[n]
        decreases |rest|
      {
        var nonce :| nonce in rest;
        rest := rest - {nonce};
        match used[nonce] {
          case At(seen) =>
            if now - seen <= RETENTION {
              kept := kept[nonce := used[nonce]];
            }
          case _ => kept := kept[nonce := used[nonce]];
        }
      }
    }

    method ConsumeLocked(nonce: Nonce, now: Time) returns (r: Result<(), Refusal>)
      modifies this
      ensures match Consume(old(file), nonce, now)
        case Success(used) => r.Success? && file == Entries(used)
        case Failure(e) => r == Failure(e) && file == old(file)
    {
      var used := map[];
      if file.Undecodable? {
        return Failure(Untyped);
      }
      if file.NotJson? || file.NotObject? {
        return Failure(LedgerCorrupt);
      }
      if file.Entries? {
        used := file.used;
      }
      if nonce in used {
        return Failure(if used[nonce].NoField? then Untyped else Replay);
      }
      used := PruneEntries(used, now);
      if |used| >= MAX_ENTRIES {
        return Failure(LedgerFull);
      }
      file := Entries(used[nonce := At(now)]);
      return Success(());
    }
  }

  /** The ceiling holds for ever, and a fresh nonce is recorded; whatever was pruned was too old. */
  lemma ConsumeRecords(file: File, nonce: Nonce, now: Time)
    requires Consume(file, nonce, now).Success?
    ensures var used := Consume(file, nonce, now).value;
      && |used| <= MAX_ENTRIES && nonce in used && used[nonce] == At(now)
      && (file.Entries? ==> nonce !in file.used && forall n :: n in file.used ==>
          (n in used && used[n] == file.used[n]) || (n !in used && file.used[n].At? && now - file.used[n].time > 7_200 * SECOND))
  {
    var before := if file.Entries? then file.used else map[];
    var pruned := Prune(before, now);
    assert pruned[nonce := At(now)].Keys == pruned.Keys + {nonce};
  }

  // ---- Racing processes ----

  datatype Phase = Waiting | Holding | Decided(next: map<Nonce, Record>) | Written(next: map<Nonce, Record>) | Replaced

  datatype Verifier = Verifier(nonce: Nonce, now: Time, phase: Phase)

  datatype Use = Use(nonce: Nonce, time: Time)

  /** The shared file and lock, every live process, and what an observer saw: the clock readings in the order
      the lock was taken, the uses recorded in the file and the clearances accepted. */
  datatype World = World(
    file: File, lock: Option<Process>, live: map<Process, Verifier>,
    readings: seq<Time>, recorded: seq<Use>, accepted: seq<Use>
  )

  datatype Step =
    | Verify(p: Process, nonce: Nonce, now: Time) // read the clock once, check the validity window
    | Acquire(p: Process)
    | GiveUp(p: Process)                          // the lock's timeout passes
    | Read(p: Process)                            // read, check and prune
    | WriteTemp(p: Process)
    | Replace(p: Process)
    | Release(p: Process)                         // consume returns: the clearance is accepted
    | Crash(p: Process)                           // or a failed write: the lock is freed, the file is as it was

  /** `issued` gives the time at which the clearance holding a nonce was issued: nonces are fresh and
      clearances signed, so there is one per nonce. */
  predicate InWindow(issued: Nonce -> Time, nonce: Nonce, now: Time) {
    issued(nonce) <= now <= issued(nonce) + TTL
  }

  function Leave(w: World, p: Process): World {
    w.(live := w.live - {p}, lock := if w.lock == Some(p) then None else w.lock)
  }

  function Phased(w: World, p: Process, phase: Phase): World
    requires p in w.live
  {
    w.(live := w.live[p := w.live[p].(phase := phase)])
  }

  function Apply(issued: Nonce -> Time, w: World, step: Step): World {
    match step
    case Verify(p, nonce, now) =>
      if p in w.live || !InWindow(issued, nonce, now) then w
      else w.(live := w.live[p := Verifier(nonce, now, Waiting)])
    case Acquire(p) =>
      if p !in w.live || !w.live[p].phase.Waiting? || w.lock.Some? then w
      else Phased(w, p, Holding).(lock := Some(p), readings := w.readings + [w.live[p].now])
    case GiveUp(p) =>
      if p !in w.live || !w.live[p].phase.Waiting? then w else Leave(w, p)
    case Read(p) =>
      if p !in w.live || !w.live[p].phase.Holding? then w
      else
        var next := Consume(w.file, w.live[p].nonce, w.live[p].now);
        if next.Failure? then Leave(w, p) else Phased(w, p, Decided(next.value))
    case WriteTemp(p) =>
      if p !in w.live || !w.live[p].phase.Decided? then w else Phased(w, p, Written(w.live[p].phase.next))
    case Replace(p) =>
      if p !in w.live || !w.live[p].phase.Written? then w
      else Phased(w, p, Replaced).(
        file := Entries(w.live[p].phase.next),
        recorded := w.recorded + [Use(w.live[p].nonce, w.live[p].now)])
    case Release(p) =>
      if p !in w.live || !w.live[p].phase.Replaced? then w
      else Leave(w, p).(accepted := w.accepted + [Use(w.live[p].nonce, w.live[p].now)])
    case Crash(p) =>
      if p !in w.live then w else Leave(w, p)
  }

  function Start(file: File): World {
    World(file, None, map[], [], [], [])
  }

  function Run(issued: Nonce -> Time, w: World, steps: seq<Step>): World {
    if steps == [] then w else Apply(issued, Run(issued, w, steps[..|steps| - 1]), steps[|steps| - 1])
  }

  /** In lock order the clock never runs back by more than d. */
  ghost predicate Disorder(readings: seq<Time>, d: int) {
    forall i, j :: 0 <= i <= j < |readings| ==> readings[i] - readings[j] <= d
  }

  predicate Fresh(uses: seq<Use>) {
    forall i, j :: 0 <= i < j < |uses| ==> uses[i].nonce != uses[j].nonce
  }

  // ---- The invariant ----

  /** Still in the ledger, or pruned by a lock holder who read a clock past the retention time. */
  ghost predicate Remembered(w: World, u: Use) {
    || (w.file.Entries? && u.nonce in w.file.used && w.file.used[u.nonce] == At(u.time))
    || (exists k :: 0 <= k < |w.readings| && w.readings[k] - u.time > RETENTION)
  }

  /** The lock's holder read the clock last, and what it is about to write was computed from the file as it is. */
  ghost predicate HolderOk(w: World, p: Process)
    requires p in w.live
  {
    var v := w.live[p];
    && (!v.phase.Waiting? <==> w.lock == Some(p))
    && (!v.phase.Waiting? ==> |w.readings| > 0 && w.readings[|w.readings| - 1] == v.now)
    && (v.phase.Decided? || v.phase.Written? ==> Consume(w.file, v.nonce, v.now) == Success(v.phase.next))
  }

  /** Uses recorded but not (yet) accepted. */
  ghost function InFlight(w: World): multiset<Use> {
    if w.lock.Some? && w.lock.value in w.live && w.live[w.lock.value].phase.Replaced?
    then multiset{Use(w.live[w.lock.value].nonce, w.live[w.lock.value].now)} else multiset{}
  }

  ghost predicate Inv(issued: Nonce -> Time, w: World) {
    && (w.lock.Some? ==> w.lock.value in w.live)
    && (forall p :: p in w.live ==> HolderOk(w, p) && InWindow(issued, w.live[p].nonce, w.live[p].now))
    && (forall u :: u in w.recorded ==> InWindow(issued, u.nonce, u.time) && Remembered(w, u))
    && multiset(w.accepted) + InFlight(w) <= multiset(w.recorded)
  }

  lemma AcquireKeeps(issued: Nonce -> Time, w: World, p: Process)
    requires Inv(issued, w)
    ensures Inv(issued, Apply(issued, w, Acquire(p)))
  {
    var w' := Apply(issued, w, Acquire(p));
    if w' != w {
      forall u | u in w.recorded ensures Remembered(w', u) {
        assert Remembered(w, u);
        if k :| 0 <= k < |w.readings| && w.readings[k] - u.time > RETENTION {
          assert w'.readings[k] == w.readings[k];
        }
      }
      forall q | q in w'.live ensures HolderOk(w', q) && InWindow(issued, w'.live[q].nonce, w'.live[q].now) {
        assert q in w.live && HolderOk(w, q);
      }
    }
  }

  /** The replacing process's nonce was never recorded before, if the clock is orderly enough. */
  lemma ReplaceIsFirst(issued: Nonce -> Time, w: World, p: Process)
    requires Inv(issued, w) && Disorder(w.readings, RETENTION - TTL)
    requires p in w.live && w.live[p].phase.Written?
    ensures forall u :: u in w.recorded ==> u.nonce != w.live[p].nonce
  {
    var v := w.live[p];
    assert HolderOk(w, p);
    forall u | u in w.recorded ensures u.nonce != v.nonce {
      assert InWindow(issued, u.nonce, u.time) && InWindow(issued, v.nonce, v.now) && Remembered(w, u);
      if k :| 0 <= k < |w.readings| && w.readings[k] - u.time > RETENTION {
        assert w.readings[k] - w.readings[|w.readings| - 1] <= RETENTION - TTL;
      }
    }
  }

  lemma ReplaceKeeps(issued: Nonce -> Time, w: World, p: Process)
    requires Inv(issued, w) && p in w.live && w.live[p].phase.Written?
    ensures Inv(issued, Apply(issued, w, Replace(p)))
  {
    var w' := Apply(issued, w, Replace(p));
    var v := w.live[p];
    assert HolderOk(w, p);
    ConsumeRecords(w.file, v.nonce, v.now);
    forall u | u in w'.recorded ensures InWindow(issued, u.nonce, u.time) && Remembered(w', u) {
      if u in w.recorded {
        assert Remembered(w, u);
        assert w.readings[|w.readings| - 1] == v.now;
      }
    }
    forall q | q in w'.live ensures HolderOk(w', q) && InWindow(issued, w'.live[q].nonce, w'.live[q].now) {
      assert q in w.live && HolderOk(w, q);
    }
  }

  lemma StepKeeps(issued: Nonce -> Time, w: World, step: Step)
    requires Inv(issued, w)
    ensures Inv(issued, Apply(issued, w, step))
  {
    var w' := Apply(issued, w, step);
    match step
    case Acquire(p) => AcquireKeeps(issued, w, p);
    case Replace(p) =>
      if w' != w {
        ReplaceKeeps(issued, w, p);
      }
    case Verify(p, nonce, now) => VerifyKeeps(issued, w, p, nonce, now);
    case GiveUp(p) => LeaveKeeps(issued, w, p);
    case Crash(p) => LeaveKeeps(issued, w, p);
    case Read(p) => ReadKeeps(issued, w, p);
    case WriteTemp(p) => WriteTempKeeps(issued, w, p);
    case Release(p) => ReleaseKeeps(issued, w, p);
  }

  lemma VerifyKeeps(issued: Nonce -> Time, w: World, p: Process, nonce: Nonce, now: Time)
    requires Inv(issued, w)
    ensures Inv(issued, Apply(issued, w, Verify(p, nonce, now)))
  {
    SameFileKeeps(issued, w, Apply(issued, w, Verify(p, nonce, now)));
  }

  lemma WriteTempKeeps(issued: Nonce -> Time, w: World, p: Process)
    requires Inv(issued, w)
    ensures Inv(issued, Apply(issued, w, WriteTemp(p)))
  {
    if Apply(issued, w, WriteTemp(p)) != w {
      assert HolderOk(w, p);
      SameFileKeeps(issued, w, Apply(issued, w, WriteTemp(p)));
    }
  }

  /** A step that leaves the file and the history alone, and the other processes as they were. */
  lemma SameFileKeeps(issued: Nonce -> Time, w: World, w': World)
    requires Inv(issued, w)
    requires w'.file == w.file && w'.readings == w.readings && w'.recorded == w.recorded
    requires w'.lock.Some? ==> w'.lock == w.lock && w'.lock.value in w'.live
    requires forall p :: p in w'.live ==>
      || (p in w.live && w'.live[p] == w.live[p] && (w'.lock == Some(p) <==> w.lock == Some(p)))
      || (HolderOk(w', p) && InWindow(issued, w'.live[p].nonce, w'.live[p].now))
    requires multiset(w'.accepted) + InFlight(w') <= multiset(w.accepted) + InFlight(w)
    ensures Inv(issued, w')
  {
    forall u | u in w'.recorded ensures Remembered(w', u) {
      assert Remembered(w, u);
    }
    forall p | p in w'.live ensures HolderOk(w', p) && InWindow(issued, w'.live[p].nonce, w'.live[p].now) {
      assert p in w.live ==> HolderOk(w, p);
    }
  }

  lemma LeaveKeeps(issued: Nonce -> Time, w: World, p: Process)
    requires Inv(issued, w)
    ensures Inv(issued, Leave(w, p))
  {
    forall q | q in w.live ensures HolderOk(w, q) {}
    SameFileKeeps(issued, w, Leave(w, p));
  }

  lemma ReadKeeps(issued: Nonce -> Time, w: World, p: Process)
    requires Inv(issued, w)
    ensures Inv(issued, Apply(issued, w, Read(p)))
  {
    var w' := Apply(issued, w, Read(p));
    if w' == Leave(w, p) {
      LeaveKeeps(issued, w, p);
    } else if w' != w {
      assert HolderOk(w, p);
      SameFileKeeps(issued, w, w');
    }
  }

  lemma ReleaseKeeps(issued: Nonce -> Time, w: World, p: Process)
    requires Inv(issued, w)
    ensures Inv(issued, Apply(issued, w, Release(p)))
  {
    var w' := Apply(issued, w, Release(p));
    if w' != w {
      assert HolderOk(w, p);
      var u := Use(w.live[p].nonce, w.live[p].now);
      assert InFlight(w) == multiset{u} && InFlight(w') == multiset{};
      assert multiset(w'.accepted) == multiset(w.accepted) + multiset{u};
      SameFileKeeps(issued, w, w');
    }
  }

  lemma DisorderBefore(readings: seq<Time>, later: seq<Time>, d: int)
    requires readings <= later && Disorder(later, d)
    ensures Disorder(readings, d)
  {
    forall i, j | 0 <= i <= j < |readings| ensures readings[i] - readings[j] <= d {
      assert later[i] == readings[i] && later[j] == readings[j];
    }
  }

  lemma ReadingsGrow(issued: Nonce -> Time, w: World, step: Step)
    ensures w.readings <= Apply(issued, w, step).readings
  {
  }

  lemma {:induction false} RecordedOnce(issued: Nonce -> Time, file: File, steps: seq<Step>)
    ensures var w := Run(issued, Start(file), steps);
      Inv(issued, w) && (Disorder(w.readings, RETENTION - TTL) ==> Fresh(w.recorded))
  {
    if steps != [] {
      var step := steps[|steps| - 1];
      RecordedOnce(issued, file, steps[..|steps| - 1]);
      var w := Run(issued, Start(file), steps[..|steps| - 1]);
      var w' := Apply(issued, w, step);
      StepKeeps(issued, w, step);
      if Disorder(w'.readings, RETENTION - TTL) {
        ReadingsGrow(issued, w, step);
        DisorderBefore(w.readings, w'.readings, RETENTION - TTL);
        if step.Replace? && w' != w {
          ReplaceIsFirst(issued, w, step.p);
        }
      }
    }
  }

  /** In every interleaving of any number of processes, crashing anywhere, over any ledger file, no nonce is
      accepted twice, provided the clock readings in lock order run back by at most retention less lifetime. */
  lemma NoDoubleAccept(issued: Nonce -> Time, file: File, steps: seq<Step>)
    requires Disorder(Run(issued, Start(file), steps).readings, RETENTION - TTL)
    ensures Fresh(Run(issued, Start(file), steps).accepted)
  {
    RecordedOnce(issued, file, steps);
    var w := Run(issued, Start(file), steps);
    FreshWithin(w.accepted, w.recorded);
  }

  lemma FreshWithin(a: seq<Use>, b: seq<Use>)
    requires Fresh(b) && multiset(a) <= multiset(b)
    ensures Fresh(a)
  {
    forall i, j | 0 <= i < j < |a| ensures a[i].nonce != a[j].nonce {
      assert a[i] in multiset(b) && a[j] in multiset(b);
      if a[i].nonce == a[j].nonce {
        assert a[i] == a[j];
        TwiceCounted(a, i, j);
        OnceCounted(b, a[i]);
      }
    }
  }

  lemma TwiceCounted(a: seq<Use>, i: nat, j: nat)
    requires i < j < |a| && a[i] == a[j]
    ensures multiset(a)[a[i]] >= 2
  {
    assert a == a[..i] + [a[i]] + a[i + 1..j] + [a[j]] + a[j + 1..];
  }

  lemma {:induction false} OnceCounted(b: seq<Use>, u: Use)
    requires Fresh(b)
    ensures multiset(b)[u] <= 1
  {
    if b != [] {
      var n := |b| - 1;
      OnceCounted(b[..n], u);
      assert b == b[..n] + [b[n]];
      if u == b[n] {
        assert u !in b[..n];
      }
    }
  }

  // ---- The bound is exact ----

  lemma {:induction false} RunAppend(issued: Nonce -> Time, w: World, a: seq<Step>, b: seq<Step>)
    ensures Run(issued, w, a + b) == Run(issued, Run(issued, w, a), b)
  {
    if b == [] {
      assert a + b == a;
    } else {
      var n := |b| - 1;
      RunAppend(issued, w, a, b[..n]);
      assert (a + b)[..|a + b| - 1] == a + b[..n];
    }
  }

  /** One process from its clock reading to its acceptance. */
  function Pass(p: Process, nonce: Nonce, now: Time): seq<Step> {
    [Verify(p, nonce, now), Acquire(p), Read(p), WriteTemp(p), Replace(p), Release(p)]
  }

  /** Undisturbed, a clearance in its window whose nonce the ledger does not hold is recorded and accepted. */
  lemma PassAccepts(issued: Nonce -> Time, w: World, p: Process, nonce: Nonce, now: Time)
    requires w.lock.None? && p !in w.live && InWindow(issued, nonce, now)
    requires w.file.Absent? || (w.file.Entries? && nonce !in w.file.used)
    requires |Live(w.file, now)| < 10_000
    ensures Consume(w.file, nonce, now).Success?
    ensures Run(issued, w, Pass(p, nonce, now)) == w.(
      file := Entries(Consume(w.file, nonce, now).value), readings := w.readings + [now],
      recorded := w.recorded + [Use(nonce, now)], accepted := w.accepted + [Use(nonce, now)])
  {
    ConsumeExactly(w.file, nonce, now);
    var next := Consume(w.file, nonce, now).value;
    var held := w.(lock := Some(p), readings := w.readings + [now]);
    var enter, write, finish := [Verify(p, nonce, now), Acquire(p)], [Read(p), WriteTemp(p)], [Replace(p), Release(p)];
    assert Pass(p, nonce, now) == enter + write + finish;
    RunAppend(issued, w, enter + write, finish);
    RunAppend(issued, w, enter, write);
    Enters(issued, w, p, nonce, now);
    Writes(issued, held, p, nonce, now, next);
    Finishes(issued, held, p, nonce, now, next);
  }

  function With(w: World, p: Process, v: Verifier): World {
    w.(live := w.live[p := v])
  }

  lemma RunTwo(issued: Nonce -> Time, w: World, a: Step, b: Step)
    ensures Run(issued, w, [a, b]) == Apply(issued, Apply(issued, w, a), b)
  {
    assert [a, b][..1] == [a] && [a][..0] == [];
    assert Run(issued, w, [a]) == Apply(issued, w, a);
  }

  lemma Enters(issued: Nonce -> Time, w: World, p: Process, nonce: Nonce, now: Time)
    requires w.lock.None? && p !in w.live && InWindow(issued, nonce, now)
    ensures Run(issued, w, [Verify(p, nonce, now), Acquire(p)])
      == With(w.(lock := Some(p), readings := w.readings + [now]), p, Verifier(nonce, now, Holding))
  {
    RunTwo(issued, w, Verify(p, nonce, now), Acquire(p));
    var w1 := Apply(issued, w, Verify(p, nonce, now));
    assert w1.live[p := Verifier(nonce, now, Holding)] == w.live[p := Verifier(nonce, now, Holding)];
  }

  lemma Writes(issued: Nonce -> Time, w: World, p: Process, nonce: Nonce, now: Time, next: map<Nonce, Record>)
    requires Consume(w.file, nonce, now) == Success(next)
    ensures Run(issued, With(w, p, Verifier(nonce, now, Holding)), [Read(p), WriteTemp(p)])
      == With(w, p, Verifier(nonce, now, Written(next)))
  {
    RunTwo(issued, With(w, p, Verifier(nonce, now, Holding)), Read(p), WriteTemp(p));
    var w1 := Apply(issued, With(w, p, Verifier(nonce, now, Holding)), Read(p));
    assert w1.live == w.live[p := Verifier(nonce, now, Decided(next))];
    assert w1.live[p := Verifier(nonce, now, Written(next))] == w.live[p := Verifier(nonce, now, Written(next))];
  }

  lemma Finishes(issued: Nonce -> Time, w: World, p: Process, nonce: Nonce, now: Time, next: map<Nonce, Record>)
    requires w.lock == Some(p) && p !in w.live
    ensures Run(issued, With(w, p, Verifier(nonce, now, Written(next))), [Replace(p), Release(p)]) == w.(
      file := Entries(next), lock := None,
      recorded := w.recorded + [Use(nonce, now)], accepted := w.accepted + [Use(nonce, now)])
  {
    var w0 := With(w, p, Verifier(nonce, now, Written(next)));
    RunTwo(issued, w0, Replace(p), Release(p));
    assert w0.live[p := Verifier(nonce, now, Replaced)] - {p} == w.live;
  }

  /** A refusal, typed or not, accepts nothing and leaves the file as it was; the lock is free again. */
  lemma PassRefused(issued: Nonce -> Time, w: World, p: Process, nonce: Nonce, now: Time)
    requires w.lock.None? && p !in w.live && InWindow(issued, nonce, now)
    requires Consume(w.file, nonce, now).Failure?
    ensures Run(issued, w, Pass(p, nonce, now)) == w.(readings := w.readings + [now])
  {
    var enter, write, finish := [Verify(p, nonce, now), Acquire(p)], [Read(p), WriteTemp(p)], [Replace(p), Release(p)];
    assert Pass(p, nonce, now) == enter + write + finish;
    RunAppend(issued, w, enter + write, finish);
    RunAppend(issued, w, enter, write);
    Enters(issued, w, p, nonce, now);
    ReadRefused(issued, w.(readings := w.readings + [now]), p, nonce, now);
    RunTwo(issued, w.(readings := w.readings + [now]), Replace(p), Release(p));
  }

  lemma ReadRefused(issued: Nonce -> Time, w: World, p: Process, nonce: Nonce, now: Time)
    requires w.lock.None? && p !in w.live && Consume(w.file, nonce, now).Failure?
    ensures Run(issued, With(w.(lock := Some(p)), p, Verifier(nonce, now, Holding)), [Read(p), WriteTemp(p)]) == w
  {
    var held := With(w.(lock := Some(p)), p, Verifier(nonce, now, Holding));
    RunTwo(issued, held, Read(p), WriteTemp(p));
    assert held.live - {p} == w.live;
  }

  // ---- Failing closed ----

  /** The records that a consume at this time keeps: those without a readable time, and those young enough. */
  function Live(file: File, now: Time): set<Nonce> {
    if file.Entries? then set n | n in file.used && (file.used[n].At? ==> now - file.used[n].time <= RETENTION) else {}
  }

  /** A nonce is consumed if and only if the ledger is absent or readable, does not hold the nonce, and has fewer
      than ten thousand live records; otherwise the refusal says why. */
  lemma ConsumeExactly(file: File, nonce: Nonce, now: Time)
    ensures var r := Consume(file, nonce, now);
      && (r.Success? <==>
        (file.Absent? || (file.Entries? && nonce !in file.used)) && |Live(file, now)| < 10_000)
      && (r == Failure(LedgerCorrupt) <==> file.NotJson? || file.NotObject?)
      && (r == Failure(Replay) <==> file.Entries? && nonce in file.used && !file.used[nonce].NoField?)
      && (r == Failure(LedgerFull) <==>
        (file.Absent? || (file.Entries? && nonce !in file.used)) && |Live(file, now)| >= 10_000)
  {
    var used := if file.Entries? then file.used else map[];
    assert Prune(used, now).Keys == Live(file, now);
    assert |Prune(used, now)| == |Prune(used, now).Keys|;
  }

  predicate Corrupt(file: File) {
    file.Undecodable? || file.NotJson? || file.NotObject?
  }

  /** Nothing was recorded or accepted, and no process is past the check. */
  ghost predicate Closed(w: World, file: File) {
    && w.file == file && w.recorded == [] && w.accepted == []
    && forall p :: p in w.live ==> w.live[p].phase.Waiting? || w.live[p].phase.Holding?
  }

  /** A ledger that cannot be read fails closed: in every interleaving of any number of processes nothing is ever
      accepted or recorded, and the file stays as it is. */
  lemma {:induction false} CorruptFailsClosed(issued: Nonce -> Time, file: File, steps: seq<Step>)
    requires Corrupt(file)
    ensures Closed(Run(issued, Start(file), steps), file)
  {
    if steps != [] {
      CorruptFailsClosed(issued, file, steps[..|steps| - 1]);
      ClosedStep(issued, Run(issued, Start(file), steps[..|steps| - 1]), file, steps[|steps| - 1]);
    }
  }

  lemma ClosedStep(issued: Nonce -> Time, w: World, file: File, step: Step)
    requires Corrupt(file) && Closed(w, file)
    ensures Closed(Apply(issued, w, step), file)
  {
    if step.Read? && step.p in w.live {
      ConsumeExactly(file, w.live[step.p].nonce, w.live[step.p].now);
    }
  }

  // ---- Untyped refusals ----

  /** A refusal is untyped if and only if the ledger's bytes do not decode, or the nonce was used and its record
      has no time at all. */
  lemma UntypedExactly(file: File, nonce: Nonce, now: Time)
    ensures Consume(file, nonce, now) == Failure(Untyped) <==>
      file.Undecodable? || (file.Entries? && nonce in file.used && file.used[nonce].NoField?)
  {
  }

  /** A process meets such a record: its refusal is untyped, it accepts nothing, and the ledger stands. */
  lemma MeetsUntimedRecord(issued: Nonce -> Time, p: Process, nonce: Nonce, now: Time)
    requires InWindow(issued, nonce, now)
    ensures var file := Entries(map[nonce := NoField]);
      var w := Run(issued, Start(file), Pass(p, nonce, now));
      Consume(file, nonce, now) == Failure(Untyped) && w.accepted == [] && w.file == file && w.lock.None?
  {
    PassRefused(issued, Start(Entries(map[nonce := NoField])), p, nonce, now);
  }

  /** The record stands, no process is past the check with its nonce, and no use of the nonce was recorded. */
  ghost predicate Untouched(w: World, nonce: Nonce, record: Record) {
    && w.file.Entries? && nonce in w.file.used && w.file.used[nonce] == record
    && (forall u :: u in w.recorded || u in w.accepted ==> u.nonce != nonce)
    && (forall p :: p in w.live ==> PastCheckWithout(w.live[p], nonce, record))
  }

  ghost predicate PastCheckWithout(v: Verifier, nonce: Nonce, record: Record) {
    && (v.phase.Decided? || v.phase.Written? || v.phase.Replaced? ==> v.nonce != nonce)
    && (v.phase.Decided? || v.phase.Written? ==> nonce in v.phase.next && v.phase.next[nonce] == record)
  }

  lemma UntouchedStep(issued: Nonce -> Time, w: World, step: Step, nonce: Nonce, record: Record)
    requires Untouched(w, nonce, record) && !record.At?
    ensures Untouched(Apply(issued, w, step), nonce, record)
  {
    match step
    case Replace(p) => assert p in w.live ==> PastCheckWithout(w.live[p], nonce, record);
    case Release(p) => assert p in w.live ==> PastCheckWithout(w.live[p], nonce, record);
    case _ =>
  }

  /** A record without a readable time is never pruned, so in every interleaving its nonce is never accepted. */
  lemma {:induction false} UntimedNeverAccepted(issued: Nonce -> Time, used: map<Nonce, Record>, nonce: Nonce, steps: seq<Step>)
    requires nonce in used && !used[nonce].At?
    ensures Untouched(Run(issued, Start(Entries(used)), steps), nonce, used[nonce])
    ensures forall u :: u in Run(issued, Start(Entries(used)), steps).accepted ==> u.nonce != nonce
  {
    if steps != [] {
      UntimedNeverAccepted(issued, used, nonce, steps[..|steps| - 1]);
      UntouchedStep(issued, Run(issued, Start(Entries(used)), steps[..|steps| - 1]), steps[|steps| - 1], nonce, used[nonce]);
    }
  }

  // ---- The bound is exact ----

  /** Nonce 0 was issued at time 0 and nonce 1 just past the retention time. */
  function TwoClearances(n: Nonce): Time {
    if n == 0 then 0 else RETENTION + 1
  }

  function Race(): seq<Step> {
    Pass(0, 0, 0) + Pass(1, 1, RETENTION + 1) + Pass(2, 0, TTL)
  }

  /** Nonce 0 is accepted in its window ... */
  lemma FirstPass()
    ensures var w := Run(TwoClearances, Start(Absent), Pass(0, 0, 0));
      && w.lock.None? && w.live == map[] && w.file == Entries(map[0 := At(0)])
      && w.readings == [0] && w.accepted == [Use(0, 0)]
  {
    assert Prune(map[], 0) == map[];
    PassAccepts(TwoClearances, Start(Absent), 0, 0, 0);
  }

  /** ... nonce 1 is accepted by a process whose clock is past the retention time, which prunes nonce 0 ... */
  lemma SecondPass(w: World)
    requires w.lock.None? && w.live == map[] && w.file == Entries(map[0 := At(0)])
    ensures var w' := Run(TwoClearances, w, Pass(1, 1, RETENTION + 1));
      && w'.lock.None? && w'.live == map[] && w'.file == Entries(map[1 := At(RETENTION + 1)])
      && w'.readings == w.readings + [RETENTION + 1] && w'.accepted == w.accepted + [Use(1, RETENTION + 1)]
  {
    assert Prune(map[0 := At(0)], RETENTION + 1) == map[];
    assert Live(w.file, RETENTION + 1) == {};
    PassAccepts(TwoClearances, w, 1, 1, RETENTION + 1);
  }

  /** ... and nonce 0 is accepted again by a process whose clock still shows its last moment. */
  lemma ThirdPass(w: World)
    requires w.lock.None? && w.live == map[] && w.file == Entries(map[1 := At(RETENTION + 1)])
    ensures var w' := Run(TwoClearances, w, Pass(2, 0, TTL));
      w'.readings == w.readings + [TTL] && w'.accepted == w.accepted + [Use(0, TTL)]
  {
    assert Prune(map[1 := At(RETENTION + 1)], TTL) == map[1 := At(RETENTION + 1)];
    assert Live(w.file, TTL) == {1};
    PassAccepts(TwoClearances, w, 2, 0, TTL);
  }

  /** One microsecond of disorder more than retention less lifetime, and a run accepts a nonce twice: a late
      clock prunes the record while an early one still finds the clearance valid. So the bound of
      NoDoubleAccept cannot be weakened for any d. */
  lemma DoubleAccept(d: int)
    requires d > RETENTION - TTL
    ensures var w := Run(TwoClearances, Start(Absent), Race());
      Disorder(w.readings, d) && !Fresh(w.accepted)
  {
    var w0 := Start(Absent);
    RunAppend(TwoClearances, w0, Pass(0, 0, 0) + Pass(1, 1, RETENTION + 1), Pass(2, 0, TTL));
    RunAppend(TwoClearances, w0, Pass(0, 0, 0), Pass(1, 1, RETENTION + 1));
    FirstPass();
    var w1 := Run(TwoClearances, w0, Pass(0, 0, 0));
    SecondPass(w1);
    var w2 := Run(TwoClearances, w1, Pass(1, 1, RETENTION + 1));
    ThirdPass(w2);
    var w3 := Run(TwoClearances, w2, Pass(2, 0, TTL));
    assert w3.accepted[0].nonce == w3.accepted[2].nonce;
  }

  /** No run whose clock readings are disordered by at most d accepts a nonce twice. */
  ghost predicate ReplaySafe(d: int) {
    forall issued: Nonce -> Time, file, steps ::
      Disorder(Run(issued, Start(file), steps).readings, d) ==> Fresh(Run(issued, Start(file), steps).accepted)
  }

  lemma ReplaySafeExactly(d: int)
    ensures ReplaySafe(d) <==> d <= 6_900 * SECOND
  {
    if d <= RETENTION - TTL {
      forall issued: Nonce -> Time, file, steps | Disorder(Run(issued, Start(file), steps).readings, d)
        ensures Fresh(Run(issued, Start(file), steps).accepted)
      {
        NoDoubleAccept(issued, file, steps);
      }
    } else {
      DoubleAccept(d);
    }
  }
}
