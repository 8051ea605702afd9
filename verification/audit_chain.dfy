/** audit.py: one tenant's hash-chained audit events, appended and verified, and appended by sessions whose
    view of the organization row may be stale. */
module AuditChain {
  import opened Wrappers
  import opened Security

  /** SHA-256 of canonical JSON: injective, and never the genesis text. */
  datatype Hash = Genesis | Sha256(material: Material)

  datatype Material = Material(
    organization: string, sequence: nat, actor: string, action: string, targetType: string, targetId: string,
    detail: string, // the canonical JSON of the scrubbed detail
    previousHash: Hash, createdAt: int
  )

  datatype Event = Event(
    sequence: nat, actor: string, action: string, targetType: string, targetId: string, detail: string,
    previousHash: Hash, eventHash: Hash, createdAt: int
  )

  /** What a service call asks to have recorded. */
  datatype Entry = Entry(actor: string, action: string, targetType: string, targetId: string, detail: string)

  function MaterialOf(organization: string, e: Event): Material {
    Material(organization, e.sequence, e.actor, e.action, e.targetType, e.targetId, e.detail, e.previousHash, e.createdAt)
  }

  function NewEvent(organization: string, sequence: nat, head: Hash, entry: Entry, now: int): Event {
    var e := Event(sequence, Take(entry.actor, 320), Take(entry.action, 96), Take(entry.targetType, 64),
                   Take(entry.targetId, 80), entry.detail, head, Genesis, now);
    e.(eventHash := Sha256(MaterialOf(organization, e)))
  }

  /** The hash an event must link to. */
  function Before(events: seq<Event>, i: nat): Hash
    requires i <= |events|
  {
    if i == 0 then Genesis else events[i - 1].eventHash
  }

  function Head(events: seq<Event>): Hash {
    Before(events, |events|)
  }

  predicate GoodAt(organization: string, events: seq<Event>, i: nat)
    requires i < |events|
  {
    && events[i].previousHash == Before(events, i)
    && events[i].eventHash == Sha256(MaterialOf(organization, events[i]))
  }

  predicate Verifies(organization: string, events: seq<Event>) {
    forall i :: 0 <= i < |events| ==> GoodAt(organization, events, i)
  }

  /** The chain an organization row describes: sequences 1..n, linked, ending in its head. */
  ghost predicate ChainOk(organization: string, events: seq<Event>, auditSeq: nat, auditHead: Hash) {
    && Verifies(organization, events)
    && (forall i :: 0 <= i < |events| ==> events[i].sequence == i + 1)
    && auditSeq == |events| && auditHead == Head(events)
  }

  datatype Report = Report(ok: bool, entries: nat, failedAt: Option<nat>, head: Hash)

  /** Event i is the first that does not belong, and the report says so. */
  ghost predicate FailsAt(organization: string, events: seq<Event>, i: nat, report: Report) {
    && i < |events| && !GoodAt(organization, events, i) && Verifies(organization, events[..i])
    && report.failedAt == Some(events[i].sequence) && report.head == Before(events, i)
  }

  class Tenant {
    const organization: string
    var auditSeq: nat
    var auditHead: Hash
    var events: seq<Event>

    ghost predicate Valid()
      reads this
    {
      ChainOk(organization, events, auditSeq, auditHead)
    }

    constructor (organization: string)
      ensures Valid() && this.organization == organization && events == []
    {
      this.organization := organization;
      auditSeq, auditHead, events := 0, Genesis, [];
    }

    method AppendAudit(entry: Entry, now: int) returns (event: Event)
      requires Valid()
      modifies this
      ensures Valid()
      ensures events == old(events) + [event]
      ensures event == NewEvent(organization, |old(events)| + 1, Head(old(events)), entry, now)
      ensures event.sequence == |events| && event.previousHash == Head(old(events)) && event.createdAt == now
      ensures event.actor == Take(entry.actor, 320) && event.action == Take(entry.action, 96)
      ensures event.targetType == Take(entry.targetType, 64) && event.targetId == Take(entry.targetId, 80)
      ensures event.detail == entry.detail && event.eventHash == Sha256(MaterialOf(organization, event))
    {
      var sequence := auditSeq + 1;
      event := NewEvent(organization, sequence, auditHead, entry, now);
      events := events + [event];
      auditSeq := sequence;
      auditHead := event.eventHash;
      ChainExtends(organization, old(events), event);
    }

    /** Recomputes every hash; on failure names the first bad event and the head before it. */
    method VerifyAudit() returns (report: Report)
      ensures report.ok <==> Verifies(organization, events)
      ensures report.entries == |events|
      ensures report.ok ==> report.failedAt.None? && report.head == Head(events)
      ensures !report.ok ==> exists i :: FailsAt(organization, events, i, report)
    {
      var previous := Genesis;
      for i := 0 to |events|
        invariant previous == Before(events, i)
        invariant forall j :: 0 <= j < i ==> GoodAt(organization, events, j)
      {
        var event := events[i];
        if event.previousHash != previous || event.eventHash != Sha256(MaterialOf(organization, event)) {
          PrefixVerifies(organization, events, i);
          report := Report(false, |events|, Some(event.sequence), previous);
          assert FailsAt(organization, events, i, report);
          return;
        }
        previous := event.eventHash;
      }
      return Report(true, |events|, None, previous);
    }
  }

  lemma ChainExtends(organization: string, events: seq<Event>, e: Event)
    requires Verifies(organization, events)
    requires e.previousHash == Head(events) && e.eventHash == Sha256(MaterialOf(organization, e))
    ensures Verifies(organization, events + [e]) && Head(events + [e]) == e.eventHash
  {
    var longer := events + [e];
    forall i | 0 <= i < |longer| ensures GoodAt(organization, longer, i) {
      assert i < |events| ==> GoodAt(organization, events, i) && Before(longer, i) == Before(events, i);
    }
  }

  lemma PrefixVerifies(organization: string, events: seq<Event>, n: nat)
    requires n <= |events| && forall j :: 0 <= j < n ==> GoodAt(organization, events, j)
    ensures Verifies(organization, events[..n])
  {
    forall i | 0 <= i < n ensures GoodAt(organization, events[..n], i) {
      assert GoodAt(organization, events, i);
    }
  }

  /** The verifier looks at links only: it accepts every truncation of a chain it accepts. */
  lemma TruncationVerifies(organization: string, events: seq<Event>, n: nat)
    requires Verifies(organization, events) && n <= |events|
    ensures Verifies(organization, events[..n])
  {
    PrefixVerifies(organization, events, n);
  }

  /** ... but the head commits to everything before it: two chains that verify and end in the same hash are
      the same chain, so no edit, deletion or reordering keeps the head. */
  lemma {:induction false} HeadDeterminesChain(organization: string, a: seq<Event>, b: seq<Event>)
    requires Verifies(organization, a) && Verifies(organization, b) && Head(a) == Head(b)
    ensures a == b
    decreases |a|
  {
    if a == [] {
      assert b != [] ==> GoodAt(organization, b, |b| - 1);
    } else {
      var m, n := |a| - 1, |b| - 1;
      assert GoodAt(organization, a, m);
      assert b != [] && GoodAt(organization, b, n);
      TruncationVerifies(organization, a, m);
      TruncationVerifies(organization, b, n);
      HeadDeterminesChain(organization, a[..m], b[..n]);
      assert a == a[..m] + [a[m]] && b == b[..n] + [b[n]];
    }
  }

  // ---- Sessions with stale snapshots ----

  /** An open transaction: the sequence and head its session read, and the rows it would insert. */
  datatype Transaction = Transaction(snapshotSeq: nat, snapshotHead: Hash, pending: seq<Event>)

  datatype Store = Store(auditSeq: nat, auditHead: Hash, events: seq<Event>, open: map<nat, Transaction>)

  datatype Move =
    | Begin(session: nat)
    | Append(session: nat, entry: Entry, now: int)
    | Commit(session: nat)
    | Abort(session: nat)

  function LastSeq(t: Transaction): nat {
    t.snapshotSeq + |t.pending|
  }

  function LastHead(t: Transaction): Hash {
    if t.pending == [] then t.snapshotHead else t.pending[|t.pending| - 1].eventHash
  }

  predicate Used(events: seq<Event>, sequence: nat) {
    exists i :: 0 <= i < |events| && events[i].sequence == sequence
  }

  /** The database refuses a commit that repeats an (organization, sequence) pair. */
  predicate Unique(events: seq<Event>, pending: seq<Event>) {
    forall j :: 0 <= j < |pending| ==> !Used(events, pending[j].sequence)
  }

  function Apply(organization: string, s: Store, m: Move): Store {
    match m
    case Begin(session) => s.(open := s.open[session := Transaction(s.auditSeq, s.auditHead, [])])
    case Append(session, entry, now) =>
      if session !in s.open then s
      else
        var t := s.open[session];
        var e := NewEvent(organization, LastSeq(t) + 1, LastHead(t), entry, now);
        s.(open := s.open[session := t.(pending := t.pending + [e])])
    case Commit(session) =>
      if session !in s.open then s
      else
        var t := s.open[session];
        var closed := s.(open := s.open - {session});
        if t.pending == [] || !Unique(s.events, t.pending) then closed
        else closed.(events := s.events + t.pending, auditSeq := LastSeq(t), auditHead := LastHead(t))
    case Abort(session) => s.(open := s.open - {session})
  }

  function Schedule(organization: string, moves: seq<Move>): Store {
    if moves == [] then Store(0, Genesis, [], map[])
    else Apply(organization, Schedule(organization, moves[..|moves| - 1]), moves[|moves| - 1])
  }

  /** A session's snapshot was true of some prefix of the committed chain, and its rows extend that prefix. */
  ghost predicate SessionOk(organization: string, events: seq<Event>, t: Transaction) {
    && t.snapshotSeq <= |events| && t.snapshotHead == Before(events, t.snapshotSeq)
    && Verifies(organization, events[..t.snapshotSeq] + t.pending)
    && forall j :: 0 <= j < |t.pending| ==> t.pending[j].sequence == t.snapshotSeq + 1 + j
  }

  ghost predicate StoreOk(organization: string, s: Store) {
    && ChainOk(organization, s.events, s.auditSeq, s.auditHead)
    && forall i :: i in s.open ==> SessionOk(organization, s.events, s.open[i])
  }

  lemma SessionSurvives(organization: string, events: seq<Event>, more: seq<Event>, t: Transaction)
    requires SessionOk(organization, events, t)
    ensures SessionOk(organization, events + more, t)
  {
    assert (events + more)[..t.snapshotSeq] == events[..t.snapshotSeq];
  }

  lemma SequenceUsed(events: seq<Event>, k: nat)
    requires forall i :: 0 <= i < |events| ==> events[i].sequence == i + 1
    ensures k < |events| ==> Used(events, k + 1)
  {
    assert k < |events| ==> events[k].sequence == k + 1;
  }

  /** A commit that passes the uniqueness check was based on the latest head. */
  lemma UniqueMeansLatest(organization: string, s: Store, t: Transaction)
    requires StoreOk(organization, s) && SessionOk(organization, s.events, t)
    requires t.pending != [] && Unique(s.events, t.pending)
    ensures t.snapshotSeq == |s.events|
    ensures ChainOk(organization, s.events + t.pending, LastSeq(t), LastHead(t))
  {
    assert t.pending[0].sequence == t.snapshotSeq + 1;
    SequenceUsed(s.events, t.snapshotSeq);
    assert s.events[..t.snapshotSeq] == s.events;
    var all := s.events + t.pending;
    forall i | 0 <= i < |all| ensures all[i].sequence == i + 1 {
      if i >= |s.events| {
        assert all[i] == t.pending[i - |s.events|];
      }
    }
  }

  lemma MoveKeeps(organization: string, s: Store, m: Move)
    requires StoreOk(organization, s)
    ensures StoreOk(organization, Apply(organization, s, m))
    ensures s.events <= Apply(organization, s, m).events
  {
    match m
    case Begin(session) =>
      assert s.events[..|s.events|] + [] == s.events;
    case Append(session, entry, now) =>
      if session in s.open {
        var t := s.open[session];
        var base := s.events[..t.snapshotSeq] + t.pending;
        var e := NewEvent(organization, LastSeq(t) + 1, LastHead(t), entry, now);
        assert Head(base) == LastHead(t);
        ChainExtends(organization, base, e);
        assert base + [e] == s.events[..t.snapshotSeq] + (t.pending + [e]);
      }
    case Commit(session) =>
      if session in s.open && s.open[session].pending != [] && Unique(s.events, s.open[session].pending) {
        var t := s.open[session];
        UniqueMeansLatest(organization, s, t);
        forall i | i in s.open && i != session ensures SessionOk(organization, s.events + t.pending, s.open[i]) {
          SessionSurvives(organization, s.events, t.pending, s.open[i]);
        }
      }
    case Abort(session) =>
  }

  /** Whatever the schedule and however stale the snapshots, the tenant's chain never forks: sequences stay
      1..n, every event links to its predecessor, verification succeeds and ends in the organization's head. */
  lemma {:induction false} NeverForks(organization: string, moves: seq<Move>)
    ensures var s := Schedule(organization, moves);
      StoreOk(organization, s) && Verifies(organization, s.events) && Head(s.events) == s.auditHead
  {
    if moves != [] {
      NeverForks(organization, moves[..|moves| - 1]);
      MoveKeeps(organization, Schedule(organization, moves[..|moves| - 1]), moves[|moves| - 1]);
    }
  }

  /** Of two sessions that appended from the same snapshot, the second to commit is refused. */
  lemma SecondCommitRefused(organization: string, s: Store, first: nat, second: nat)
    requires StoreOk(organization, s) && first != second && first in s.open && second in s.open
    requires s.open[first].snapshotSeq == s.open[second].snapshotSeq
    requires s.open[first].pending != [] && s.open[second].pending != [] && Unique(s.events, s.open[first].pending)
    ensures var after := Apply(organization, s, Commit(first));
      Apply(organization, after, Commit(second)).events == after.events == s.events + s.open[first].pending
  {
    var a, b := s.open[first], s.open[second];
    var events := s.events + a.pending;
    assert events[|s.events|].sequence == a.pending[0].sequence == b.pending[0].sequence;
    assert Used(events, b.pending[0].sequence);
  }
}
