/** ledger.py: a hash chain of records in a file of JSON lines, read back line by line. */
module Ledgers {
  import opened Wrappers
  import opened Values
  import opened Canonical

  const MAX_BYTES: nat := 1_000_000

  function Zeros(n: nat): (s: string)
    ensures |s| == n && forall i :: 0 <= i < n ==> s[i] == '0'
  {
    if n == 0 then "" else Zeros(n - 1) + "0"
  }

  /** A line after strip: nothing, the text of a JSON value with its length in bytes, or other text. */
  datatype Line = Blank | Json(value: Value, size: nat) | Other

  /** The lines of the file, and whether the last one ends with a newline. */
  datatype File = File(lines: seq<Line>, terminated: bool)

  datatype Record = Record(sequence: Value, prevHash: Value, recordHash: Value, payload: Value)

  // ---- Writing ----

  /** _record_hash, with the fields normalized one level down; None when canonicalization refuses one. */
  ghost function RecordHash(p: Platform, prev: Value, payload: Value, sequence: Value): Option<string> {
    Hashed(p, Normalized(p, prev, 1), Normalized(p, sequence, 1), Normalized(p, payload, 1))
  }

  function Hashed(p: Platform, prev: Option<Value>, sequence: Option<Value>, payload: Option<Value>): Option<string> {
    if prev.Some? && sequence.Some? && payload.Some? then Some(p.sha(Material(prev.value, sequence.value, payload.value))) else None
  }

  function Written(r: Record): Value {
    Obj(map["sequence" := r.sequence, "prev_hash" := r.prevHash, "record_hash" := r.recordHash, "payload" := r.payload])
  }

  /** A value's text after an unfinished last line continues it, and what comes before a whole value on its line
      makes it no JSON. */
  function Joined(last: Line, line: Line): Line
    requires line.Json?
  {
    if last.Blank? then line else Other
  }

  /** The file with one more value and a newline. */
  function Extended(file: File, line: Line): File
    requires line.Json?
  {
    if file.lines == [] || file.terminated then File(file.lines + [line], true)
    else File(file.lines[..|file.lines| - 1] + [Joined(file.lines[|file.lines| - 1], line)], true)
  }

  // ---- Reading ----

  predicate HasFields(v: Value) {
    && v.Obj?
    && "sequence" in v.fields && "prev_hash" in v.fields && "record_hash" in v.fields && "payload" in v.fields
  }

  function RecordIn(v: Value): Record
    requires HasFields(v)
  {
    Record(v.fields["sequence"], v.fields["prev_hash"], v.fields["record_hash"], v.fields["payload"])
  }

  /** A line that reading does not stop at. */
  ghost predicate Readable(p: Platform, line: Line) {
    line.Blank? ||
    (line.Json? && line.size <= MAX_BYTES && Normalized(p, line.value, 0).Some? && HasFields(Normalized(p, line.value, 0).value))
  }

  ghost predicate AllReadable(p: Platform, lines: seq<Line>) {
    forall i :: 0 <= i < |lines| ==> Readable(p, lines[i])
  }

  /** The records of the lines, blank ones skipped. */
  ghost function Records(p: Platform, lines: seq<Line>): seq<Record>
    requires AllReadable(p, lines)
  {
    if lines == [] then []
    else
      var n := |lines| - 1;
      Records(p, lines[..n]) + if lines[n].Blank? then [] else [RecordIn(Normalized(p, lines[n].value, 0).value)]
  }

  method ReadLine(p: Platform, line: Line) returns (r: Result<Option<Record>, ()>)
    ensures r.Success? <==> Readable(p, line)
    ensures r.Success? ==>
      r.value == if line.Blank? then None else Some(RecordIn(Normalized(p, line.value, 0).value))
  {
    if line.Blank? {
      return Success(None);
    }
    if line.Other? || line.size > MAX_BYTES {
      return Failure(());
    }
    var raw := Normalize(p, line.value, 0);
    if raw.None? || !HasFields(raw.value) {
      return Failure(());
    }
    return Success(Some(RecordIn(raw.value)));
  }

  // ---- The chain ----

  ghost function LastHash(records: seq<Record>): Value {
    if records == [] then Str(Zeros(64)) else records[|records| - 1].recordHash
  }

  ghost function LastSequence(records: seq<Record>): Value {
    if records == [] then Int(-1) else records[|records| - 1].sequence
  }

  /** Python's value + 1; None where it raises TypeError. */
  function Succ(v: Value): Option<Value> {
    match v
    case Bool(b) => Some(Int(if b then 2 else 1))
    case Int(i) => Some(Int(i + 1))
    case Float(f) => Some(Float(f + 1.0))
    case NonFinite => Some(NonFinite)
    case _ => None
  }

  ghost predicate Linked(p: Platform, records: seq<Record>, i: nat)
    requires i < |records|
  {
    var r := records[i];
    && PyEq(r.sequence, Int(i))
    && r.prevHash == LastHash(records[..i])
    && var hash := RecordHash(p, r.prevHash, r.payload, r.sequence);
      hash.Some? && r.recordHash == Str(hash.value)
  }

  /** What verify accepts. */
  ghost predicate Chained(p: Platform, records: seq<Record>) {
    forall i :: 0 <= i < |records| ==> Linked(p, records, i)
  }

  ghost predicate Verifies(p: Platform, file: File) {
    AllReadable(p, file.lines) && Chained(p, Records(p, file.lines))
  }

  lemma LinkedInPrefix(p: Platform, records: seq<Record>, n: nat, i: nat)
    requires i < n <= |records|
    ensures Linked(p, records[..n], i) <==> Linked(p, records, i)
  {
    assert records[..n][..i] == records[..i];
  }

  lemma ChainSnoc(p: Platform, records: seq<Record>, r: Record)
    ensures Chained(p, records + [r]) <==> Chained(p, records) && Linked(p, records + [r], |records|)
  {
    var longer := records + [r];
    assert longer[..|records|] == records;
    forall i | 0 <= i < |records| ensures Linked(p, longer, i) <==> Linked(p, records, i) {
      LinkedInPrefix(p, longer, |records|, i);
    }
  }

  lemma RecordsSnoc(p: Platform, lines: seq<Line>, line: Line)
    requires AllReadable(p, lines) && Readable(p, line)
    ensures AllReadable(p, lines + [line])
    ensures Records(p, lines + [line]) == Records(p, lines) + if line.Blank? then [] else [RecordIn(Normalized(p, line.value, 0).value)]
  {
    assert (lines + [line])[..|lines|] == lines;
  }

  // ---- What is written is read back ----

  /** A text that normalization leaves alone, such as a digest. */
  ghost predicate Settled(v: Value) {
    v.Str? && Plain(v.s) && |v.s| == 64
  }

  lemma SettledIsNormal(p: Platform, v: Value, depth: nat)
    requires Sane(p) && Settled(v) && depth <= MAX_DEPTH
    ensures Normal(p, v, depth)
  {
    PlainText(p, v.s);
  }

  lemma NumberIsNormal(p: Platform, v: Value, depth: nat)
    requires Numeric(v).Some? && depth <= MAX_DEPTH
    ensures Normal(p, v, depth)
  {
  }

  /** The hash covers the payload as reading will return it: one level down in the hashed object, as in the line. */
  lemma HashOf(p: Platform, prev: Value, payload: Value, sequence: Value)
    requires Sane(p) && Settled(prev) && Numeric(sequence).Some?
    ensures var normal := Normalized(p, payload, 1);
      RecordHash(p, prev, payload, sequence) == if normal.Some? then Some(p.sha(Material(prev, sequence, normal.value))) else None
  {
    SettledIsNormal(p, prev, 1);
    NumberIsNormal(p, sequence, 1);
  }

  lemma PlainNames()
    ensures Plain("sequence") && Plain("prev_hash") && Plain("record_hash") && Plain("payload")
  {
  }

  lemma WrittenKeySet(r: Record)
    ensures Written(r).fields.Keys == {"sequence", "prev_hash", "record_hash", "payload"} && |Written(r).fields| == 4
  {
  }

  lemma WrittenKeys(r: Record)
    ensures PlainKeys(Written(r).fields.Keys) && |Written(r).fields| == 4
  {
    WrittenKeySet(r);
    PlainNames();
  }

  lemma WrittenValues(r: Record, k: string)
    requires k in Written(r).fields && k != "payload"
    ensures Written(r).fields[k] in [r.sequence, r.prevHash, r.recordHash]
  {
  }

  lemma WrittenUpdated(r: Record, payload: Value)
    ensures var v := Obj(Written(r).fields["payload" := payload]);
      HasFields(v) && RecordIn(v) == r.(payload := payload)
  {
  }

  lemma WrittenNormal(p: Platform, r: Record, k: string)
    requires Sane(p) && Numeric(r.sequence).Some? && Settled(r.prevHash) && Settled(r.recordHash)
    requires k in Written(r).fields && k != "payload"
    ensures Normal(p, Written(r).fields[k], 1)
  {
    WrittenValues(r, k);
    SettledIsNormal(p, r.prevHash, 1);
    SettledIsNormal(p, r.recordHash, 1);
    NumberIsNormal(p, r.sequence, 1);
  }

  /** An object with plain names, normal in all its fields but the payload. */
  ghost predicate RawInPayload(p: Platform, v: Value, payload: Value) {
    && v.Obj? && PlainKeys(v.fields.Keys) && |v.fields| == 4 && "payload" in v.fields && v.fields["payload"] == payload
    && forall k :: k in v.fields && k != "payload" ==> Normal(p, v.fields[k], 1)
  }

  lemma WrittenIsRaw(p: Platform, r: Record)
    requires Sane(p) && Numeric(r.sequence).Some? && Settled(r.prevHash) && Settled(r.recordHash)
    ensures RawInPayload(p, Written(r), r.payload)
  {
    WrittenKeys(r);
    forall k | k in Written(r).fields && k != "payload" ensures Normal(p, Written(r).fields[k], 1) {
      WrittenNormal(p, r, k);
    }
  }

  lemma RawNormalizes(p: Platform, v: Value, payload: Value)
    requires Sane(p) && RawInPayload(p, v, payload) && Normalized(p, payload, 1).Some?
    ensures Normalized(p, v, 0) == Some(Obj(v.fields["payload" := Normalized(p, payload, 1).value]))
  {
    OneRawValue(p, v, 0, "payload");
  }

  lemma WrittenReadsBack(p: Platform, r: Record)
    requires Sane(p) && Numeric(r.sequence).Some? && Settled(r.prevHash) && Settled(r.recordHash) && Normalized(p, r.payload, 1).Some?
    ensures Normalized(p, Written(r), 0).Some? && HasFields(Normalized(p, Written(r), 0).value)
    ensures RecordIn(Normalized(p, Written(r), 0).value) == r.(payload := Normalized(p, r.payload, 1).value)
  {
    WrittenIsRaw(p, r);
    RawNormalizes(p, Written(r), r.payload);
    WrittenUpdated(r, Normalized(p, r.payload, 1).value);
  }

  // ---- Appending to a ledger that verifies ----

  lemma LastIsSettled(p: Platform, records: seq<Record>)
    requires Sane(p) && Chained(p, records)
    ensures Settled(LastHash(records)) && PyEq(LastSequence(records), Int(|records| - 1))
    ensures Succ(LastSequence(records)).Some? && PyEq(Succ(LastSequence(records)).value, Int(|records|))
  {
    if records != [] {
      assert Linked(p, records, |records| - 1);
    }
  }

  /** The record append makes; None where it raises. */
  ghost function NextRecord(p: Platform, records: seq<Record>, payload: Value): Option<Record> {
    var sequence := Succ(LastSequence(records));
    if sequence.None? then None
    else
      var hash := RecordHash(p, LastHash(records), payload, sequence.value);
      if hash.None? then None
      else Some(Record(sequence.value, LastHash(records), Str(hash.value), payload))
  }

  ghost predicate AtLineBoundary(file: File) {
    file.lines == [] || file.terminated || file.lines[|file.lines| - 1].Blank?
  }

  lemma NextLinks(p: Platform, records: seq<Record>, payload: Value)
    requires Sane(p) && Chained(p, records)
    ensures var next := NextRecord(p, records, payload);
      && (next.Some? <==> Normalized(p, payload, 1).Some?)
      && (next.Some? ==> Numeric(next.value.sequence).Some? && Settled(next.value.prevHash) && Settled(next.value.recordHash))
      && (next.Some? ==> Chained(p, records + [next.value.(payload := Normalized(p, payload, 1).value)]))
  {
    LastIsSettled(p, records);
    var prev, sequence := LastHash(records), Succ(LastSequence(records)).value;
    HashOf(p, prev, payload, sequence);
    if Normalized(p, payload, 1).Some? {
      NormIdempotent(p, payload, 1);
      HashOf(p, prev, Normalized(p, payload, 1).value, sequence);
      var r := Record(sequence, prev, NextRecord(p, records, payload).value.recordHash, Normalized(p, payload, 1).value);
      assert (records + [r])[..|records|] == records;
      ChainSnoc(p, records, r);
    }
  }

  /** The line lands on a line of its own. */
  lemma OnOwnLine(p: Platform, file: File, line: Line)
    requires AllReadable(p, file.lines) && line.Json? && AtLineBoundary(file)
    ensures var after := Extended(file, line);
      && (AllReadable(p, after.lines) <==> Readable(p, line))
      && (Readable(p, line) ==> Records(p, after.lines) == Records(p, file.lines) + [RecordIn(Normalized(p, line.value, 0).value)])
  {
    var after := Extended(file, line);
    var last := |after.lines| - 1;
    var init := after.lines[..last];
    assert after.lines == init + [line] && after.lines[last] == line;
    if file.lines == [] || file.terminated {
      assert init == file.lines;
    } else {
      assert init == file.lines[..last] && file.lines == init + [Blank];
      RecordsSnoc(p, init, Blank);
    }
    if Readable(p, line) {
      RecordsSnoc(p, init, line);
    }
  }

  lemma OnOldLine(p: Platform, file: File, line: Line)
    requires line.Json? && !AtLineBoundary(file)
    ensures !AllReadable(p, Extended(file, line).lines)
  {
    var after := Extended(file, line).lines;
    assert after[|after| - 1] == Other;
  }

  /** Appending to a ledger that verifies: what is read back is the old records and the normalized payload, the
      count grows by one, and the ledger verifies, if and only if the line fits the reader's limit and does not
      continue an unfinished line. In the other case the ledger can no longer be read. */
  lemma AppendRoundTrip(p: Platform, file: File, payload: Value, r: Record)
    requires Sane(p) && Verifies(p, file) && NextRecord(p, Records(p, file.lines), payload) == Some(r)
    ensures Normalized(p, payload, 1).Some?
    ensures var after := Extended(file, Json(Written(r), p.size(Written(r))));
      && (Verifies(p, after) <==> p.size(Written(r)) <= 1_000_000 && AtLineBoundary(file))
      && (AllReadable(p, after.lines) <==> Verifies(p, after))
      && (Verifies(p, after) ==> Records(p, after.lines) == Records(p, file.lines) + [r.(payload := Normalized(p, payload, 1).value)])
  {
    NextLinks(p, Records(p, file.lines), payload);
    WrittenReadsBack(p, r);
    var line := Json(Written(r), p.size(Written(r)));
    if AtLineBoundary(file) {
      OnOwnLine(p, file, line);
    } else {
      OnOldLine(p, file, line);
    }
  }

  /** A whole value appended to an unreadable ledger, on whatever line it lands, does not mend it. */
  lemma AppendDoesNotMend(p: Platform, file: File, line: Line)
    requires !AllReadable(p, file.lines) && line.Json?
    ensures !AllReadable(p, Extended(file, line).lines)
  {
    var i :| 0 <= i < |file.lines| && !Readable(p, file.lines[i]);
    assert !Readable(p, Extended(file, line).lines[i]);
  }

  /** An unreadable ledger that ends with a newline stays unreadable, whatever lines any program adds. */
  lemma UnreadableForever(p: Platform, file: File, more: seq<Line>)
    requires file.terminated && !AllReadable(p, file.lines)
    ensures !AllReadable(p, file.lines + more)
  {
    var i :| 0 <= i < |file.lines| && !Readable(p, file.lines[i]);
    assert !Readable(p, (file.lines + more)[i]);
  }

  /** So an append that breaks a ledger breaks it for good: the file it leaves ends with a newline, whatever
      lines follow it cannot be read, and every further Append refuses. */
  lemma BrokenForGood(p: Platform, file: File, payload: Value, r: Record, more: seq<Line>)
    requires Sane(p) && Verifies(p, file) && NextRecord(p, Records(p, file.lines), payload) == Some(r)
    requires !(p.size(Written(r)) <= MAX_BYTES && AtLineBoundary(file))
    ensures var after := Extended(file, Json(Written(r), p.size(Written(r))));
      after.terminated && !AllReadable(p, after.lines) && !AllReadable(p, after.lines + more)
  {
    AppendRoundTrip(p, file, payload, r);
    UnreadableForever(p, Extended(file, Json(Written(r), p.size(Written(r)))), more);
  }

  // ---- Both failures happen ----

  function TotalSize(p: Platform, items: seq<Value>): nat {
    if items == [] then 0 else TotalSize(p, items[..|items| - 1]) + p.size(items[|items| - 1])
  }

  /** What is known of the length of compact JSON text: a text takes its quotes and at least a byte a character, a
      list at least its items, an object at least each of its fields, and a record's names and punctuation take 52
      bytes. */
  ghost predicate Sized(p: Platform) {
    && (forall s :: p.size(Str(s)) >= |s| + 2 && (Plain(s) ==> p.size(Str(s)) == |s| + 2))
    && (forall items :: p.size(Arr(items)) >= TotalSize(p, items))
    && (forall fields, k {:trigger p.size(Obj(fields)), fields[k]} :: k in fields ==> p.size(Obj(fields)) >= p.size(fields[k]))
    && p.size(Int(0)) == 1 && p.size(Obj(map[])) == 2
    && (forall r {:trigger Written(r)} ::
      p.size(Written(r)) == 52 + p.size(r.sequence) + p.size(r.prevHash) + p.size(r.recordHash) + p.size(r.payload))
  }

  function Repeated(v: Value, n: nat): (items: seq<Value>)
    ensures |items| == n && forall i :: 0 <= i < n ==> items[i] == v
  {
    if n == 0 then [] else Repeated(v, n - 1) + [v]
  }

  lemma OneTimeMore(n: nat, k: nat)
    ensures (n + 1) * k == n * k + k
  {
  }

  lemma TotalSnoc(p: Platform, items: seq<Value>, v: Value)
    ensures TotalSize(p, items + [v]) == TotalSize(p, items) + p.size(v)
  {
    assert (items + [v])[..|items|] == items;
  }

  lemma {:induction false} RepeatedSize(p: Platform, v: Value, n: nat, least: nat)
    requires p.size(v) >= least
    ensures TotalSize(p, Repeated(v, n)) >= n * least
  {
    if n > 0 {
      RepeatedSize(p, v, n - 1, least);
      TotalSnoc(p, Repeated(v, n - 1), v);
      OneTimeMore(n - 1, least);
    }
  }

  /** An object whose one field lists a text n times. */
  function Listing(text: string, n: nat): Value {
    Obj(map["data" := Arr(Repeated(Str(text), n))])
  }

  lemma FieldSize(p: Platform, fields: map<string, Value>, k: string)
    requires Sized(p) && k in fields
    ensures p.size(Obj(fields)) >= p.size(fields[k])
  {
  }

  lemma ListSize(p: Platform, items: seq<Value>)
    requires Sized(p)
    ensures p.size(Arr(items)) >= TotalSize(p, items)
  {
  }

  lemma ListingSize(p: Platform, text: string, n: nat)
    requires Sized(p)
    ensures p.size(Listing(text, n)) >= n * (|text| + 2)
  {
    RepeatedSize(p, Str(text), n, |text| + 2);
    ListSize(p, Repeated(Str(text), n));
    FieldSize(p, map["data" := Arr(Repeated(Str(text), n))], "data");
  }

  lemma ListingAccepted(p: Platform, text: string, n: nat)
    requires Sane(p) && Plain(text) && |text| <= MAX_STRING && n <= MAX_ITEMS
    ensures Normalized(p, Listing(text, n), 1).Some?
  {
    PlainText(p, text);
    assert Accepts(p, Arr(Repeated(Str(text), n)), 2);
    var fields := Listing(text, n).fields;
    assert Plain("data") && fields.Keys == {"data"} && |fields| == 1;
    PlainKeysApart(p, fields.Keys);
    ObjectAccepted(p, fields, 1);
  }

  /** Seventy texts of sixteen thousand zeros: within every limit of normalization, and over a million bytes. */
  lemma OversizedPayload(p: Platform) returns (payload: Value)
    requires Sane(p) && Sized(p)
    ensures Normalized(p, payload, 1).Some? && p.size(payload) > MAX_BYTES
  {
    var length := 16_000;
    var text := Zeros(length);
    ListingAccepted(p, text, 70);
    ListingSize(p, text, 70);
    payload := Listing(text, 70);
  }

  /** Append accepts that payload on an empty ledger, and the ledger it leaves cannot be read. */
  lemma OversizedAppendBreaks(p: Platform) returns (payload: Value, r: Record)
    requires Sane(p) && Sized(p)
    ensures Verifies(p, File([], true)) && NextRecord(p, [], payload) == Some(r)
    ensures p.size(Written(r)) > MAX_BYTES
    ensures !AllReadable(p, Extended(File([], true), Json(Written(r), p.size(Written(r)))).lines)
  {
    payload := OversizedPayload(p);
    NextLinks(p, [], payload);
    r := NextRecord(p, [], payload).value;
    assert Records(p, []) == [];
    AppendRoundTrip(p, File([], true), payload, r);
  }

  /** A ledger of one small record whose last newline is missing verifies; the next append makes it unreadable. */
  lemma UnfinishedLineBreaks(p: Platform, payload: Value) returns (file: File, r: Record)
    requires Sane(p) && Sized(p) && Normalized(p, payload, 1).Some?
    ensures Verifies(p, file) && !AtLineBoundary(file)
    ensures NextRecord(p, Records(p, file.lines), payload) == Some(r)
    ensures !AllReadable(p, Extended(file, Json(Written(r), p.size(Written(r)))).lines)
  {
    var first := FirstSmallRecord(p);
    var whole := Extended(File([], true), Json(Written(first), p.size(Written(first))));
    assert Records(p, []) == [];
    AppendRoundTrip(p, File([], true), Obj(map[]), first);
    file := File(whole.lines, false);
    NextLinks(p, Records(p, file.lines), payload);
    r := NextRecord(p, Records(p, file.lines), payload).value;
    AppendRoundTrip(p, file, payload, r);
  }

  lemma FirstSmallRecord(p: Platform) returns (r: Record)
    requires Sane(p) && Sized(p)
    ensures NextRecord(p, [], Obj(map[])) == Some(r) && p.size(Written(r)) <= MAX_BYTES
  {
    PlainKeysApart(p, {});
    ObjectAccepted(p, map[], 1);
    NextLinks(p, [], Obj(map[]));
    r := NextRecord(p, [], Obj(map[])).value;
    assert r.sequence == Int(0);
  }

  // ---- The last hash fixes the records ----

  ghost predicate RecordsNormal(p: Platform, records: seq<Record>) {
    forall i :: 0 <= i < |records| ==> Normal(p, records[i].payload, 1)
  }

  lemma FieldNormal(p: Platform, v: Value, k: string)
    requires Sane(p) && v.Obj? && Normalized(p, v, 0).Some? && k in Normalized(p, v, 0).value.fields
    ensures Normal(p, Normalized(p, v, 0).value.fields[k], 1)
  {
    NormIdempotent(p, v.fields[RawOf(p, v.fields.Keys, k)], 1);
  }

  lemma {:induction false} ReadRecordsNormal(p: Platform, lines: seq<Line>)
    requires Sane(p) && AllReadable(p, lines)
    ensures RecordsNormal(p, Records(p, lines))
  {
    if lines != [] {
      var n := |lines| - 1;
      ReadRecordsNormal(p, lines[..n]);
      assert Readable(p, lines[n]);
      if lines[n].Json? {
        FieldNormal(p, lines[n].value, "payload");
      }
    }
  }

  function MaterialIn(r: Record): Material {
    Material(r.prevHash, r.sequence, r.payload)
  }

  predicate Collide(p: Platform, m: Material, n: Material) {
    m != n && p.sha(m) == p.sha(n)
  }

  /** SHA-256 failed on these very records: two of them collide, or one hashes to sixty-four zeros. */
  ghost predicate ShaBroken(p: Platform, a: seq<Record>, b: seq<Record>) {
    || (exists i, j :: 0 <= i < |a| && 0 <= j < |b| && Collide(p, MaterialIn(a[i]), MaterialIn(b[j])))
    || (exists i :: 0 <= i < |a| && a[i].recordHash == Str(Zeros(64)))
    || (exists j :: 0 <= j < |b| && b[j].recordHash == Str(Zeros(64)))
  }

  lemma LinkedHash(p: Platform, records: seq<Record>, i: nat)
    requires Sane(p) && Chained(p, records) && RecordsNormal(p, records) && i < |records|
    ensures records[i].recordHash == Str(p.sha(MaterialIn(records[i]))) && records[i].prevHash == LastHash(records[..i])
  {
    assert Linked(p, records, i);
    LastIsSettledBefore(p, records, i);
    HashOf(p, records[i].prevHash, records[i].payload, records[i].sequence);
  }

  lemma LastIsSettledBefore(p: Platform, records: seq<Record>, i: nat)
    requires Sane(p) && Chained(p, records) && i <= |records|
    ensures Settled(LastHash(records[..i])) && Chained(p, records[..i])
  {
    forall j | 0 <= j < i ensures Linked(p, records[..i], j) {
      LinkedInPrefix(p, records, i, j);
    }
    LastIsSettled(p, records[..i]);
  }

  /** The last step of two chains with the same head. */
  lemma SameHeadStep(p: Platform, a: seq<Record>, b: seq<Record>)
    requires Sane(p) && Chained(p, a) && Chained(p, b) && RecordsNormal(p, a) && RecordsNormal(p, b)
    requires a != [] && b != [] && LastHash(a) == LastHash(b)
    ensures var m, n := |a| - 1, |b| - 1;
      || Collide(p, MaterialIn(a[m]), MaterialIn(b[n]))
      || (a[m] == b[n] && LastHash(a[..m]) == LastHash(b[..n]))
    ensures Chained(p, a[..|a| - 1]) && Chained(p, b[..|b| - 1])
  {
    LinkedHash(p, a, |a| - 1);
    LinkedHash(p, b, |b| - 1);
    LastIsSettledBefore(p, a, |a| - 1);
    LastIsSettledBefore(p, b, |b| - 1);
  }

  lemma BrokenInPrefix(p: Platform, a: seq<Record>, b: seq<Record>, m: nat, n: nat)
    requires m <= |a| && n <= |b| && ShaBroken(p, a[..m], b[..n])
    ensures ShaBroken(p, a, b)
  {
  }

  lemma EmptyAgainst(p: Platform, a: seq<Record>, b: seq<Record>)
    requires (a == [] || b == []) && LastHash(a) == LastHash(b)
    ensures a == b || ShaBroken(p, a, b)
  {
    assert a != [] ==> a[|a| - 1].recordHash == Str(Zeros(64));
    assert b != [] ==> b[|b| - 1].recordHash == Str(Zeros(64));
  }

  lemma {:induction false} SameHeadSameRecords(p: Platform, a: seq<Record>, b: seq<Record>)
    requires Sane(p) && Chained(p, a) && Chained(p, b) && RecordsNormal(p, a) && RecordsNormal(p, b)
    requires LastHash(a) == LastHash(b)
    ensures ShaBroken(p, a, b) || a == b
    decreases |a|
  {
    if a == [] || b == [] {
      EmptyAgainst(p, a, b);
    } else {
      var m, n := |a| - 1, |b| - 1;
      SameHeadStep(p, a, b);
      if !Collide(p, MaterialIn(a[m]), MaterialIn(b[n])) && !ShaBroken(p, a, b) {
        assert !ShaBroken(p, a[..m], b[..n]) by {
          if ShaBroken(p, a[..m], b[..n]) {
            BrokenInPrefix(p, a, b, m, n);
          }
        }
        SameHeadSameRecords(p, a[..m], b[..n]);
        assert a == a[..m] + [a[m]] && b == b[..n] + [b[n]];
      }
    }
  }

  /** No edit, deletion, insertion or reordering keeps the head: two files that verify and end in the same hash
      hold the same records, or exhibit a failure of SHA-256. */
  lemma HeadFixesLedger(p: Platform, f: File, g: File)
    requires Sane(p) && Verifies(p, f) && Verifies(p, g)
    requires LastHash(Records(p, f.lines)) == LastHash(Records(p, g.lines))
    ensures Records(p, f.lines) == Records(p, g.lines) || ShaBroken(p, Records(p, f.lines), Records(p, g.lines))
  {
    ReadRecordsNormal(p, f.lines);
    ReadRecordsNormal(p, g.lines);
    SameHeadSameRecords(p, Records(p, f.lines), Records(p, g.lines));
  }

  // ---- The ledger ----

  method HashRecord(p: Platform, prev: Value, payload: Value, sequence: Value) returns (hash: Option<string>)
    ensures hash == RecordHash(p, prev, payload, sequence)
  {
    var first := Normalize(p, prev, 1);
    var second := Normalize(p, sequence, 1);
    var third := Normalize(p, payload, 1);
    return Hashed(p, first, second, third);
  }

  lemma PrefixReadable(p: Platform, lines: seq<Line>, i: nat)
    requires i < |lines| && AllReadable(p, lines[..i]) && Readable(p, lines[i])
    ensures AllReadable(p, lines[..i + 1])
    ensures Records(p, lines[..i + 1]) ==
      Records(p, lines[..i]) + if lines[i].Blank? then [] else [RecordIn(Normalized(p, lines[i].value, 0).value)]
  {
    assert lines[..i + 1] == lines[..i] + [lines[i]];
    RecordsSnoc(p, lines[..i], lines[i]);
  }

  lemma LinkedLast(p: Platform, records: seq<Record>, r: Record)
    ensures Linked(p, records + [r], |records|) <==>
      PyEq(r.sequence, Int(|records|)) && r.prevHash == LastHash(records) &&
      RecordHash(p, r.prevHash, r.payload, r.sequence).Some? &&
      r.recordHash == Str(RecordHash(p, r.prevHash, r.payload, r.sequence).value)
    ensures Chained(p, records + [r]) <==> Chained(p, records) && Linked(p, records + [r], |records|)
  {
    assert (records + [r])[..|records|] == records;
    ChainSnoc(p, records, r);
  }

  lemma {:induction false} PrefixRecords(p: Platform, lines: seq<Line>, n: nat)
    requires AllReadable(p, lines) && n <= |lines|
    ensures Records(p, lines[..n]) <= Records(p, lines)
  {
    if n < |lines| {
      var m := |lines| - 1;
      assert lines[..m][..n] == lines[..n];
      PrefixRecords(p, lines[..m], n);
      assert Records(p, lines[..m]) <= Records(p, lines);
    } else {
      assert lines[..n] == lines;
    }
  }

  /** A fault in a prefix is a fault of the whole. */
  lemma BrokenPrefix(p: Platform, lines: seq<Line>, n: nat)
    requires n <= |lines| && AllReadable(p, lines[..n]) && !Chained(p, Records(p, lines[..n]))
    ensures forall f: File :: f.lines == lines ==> !Verifies(p, f)
  {
    if AllReadable(p, lines) {
      var part, whole := Records(p, lines[..n]), Records(p, lines);
      PrefixRecords(p, lines, n);
      var i :| 0 <= i < |part| && !Linked(p, part, i);
      assert part == whole[..|part|];
      LinkedInPrefix(p, whole, |part|, i);
    }
  }

  /** The three checks on one more record decide whether the chain still holds. */
  lemma RecordVerdict(p: Platform, lines: seq<Line>, i: nat, r: Record, hash: Option<string>)
    requires i < |lines| && lines[i].Json? && Readable(p, lines[i]) && r == RecordIn(Normalized(p, lines[i].value, 0).value)
    requires AllReadable(p, lines[..i]) && Chained(p, Records(p, lines[..i]))
    requires hash == RecordHash(p, r.prevHash, r.payload, r.sequence)
    ensures var records := Records(p, lines[..i]);
      var good := PyEq(r.sequence, Int(|records|)) && r.prevHash == LastHash(records) && hash.Some? && Str(hash.value) == r.recordHash;
      && AllReadable(p, lines[..i + 1]) && Records(p, lines[..i + 1]) == records + [r]
      && (if good then Chained(p, Records(p, lines[..i + 1])) else forall f: File :: f.lines == lines ==> !Verifies(p, f))
  {
    PrefixReadable(p, lines, i);
    LinkedLast(p, Records(p, lines[..i]), r);
    if !Chained(p, Records(p, lines[..i]) + [r]) {
      BrokenPrefix(p, lines, i + 1);
    }
  }

  class Ledger {
    const p: Platform
    var file: File

    constructor (p: Platform, file: File)
      ensures this.p == p && this.file == file
    {
      this.p := p;
      this.file := file;
    }

    /** Reads to the end without checking the chain. */
    method Head() returns (r: Result<(Value, Value), ()>)
      ensures r.Success? <==> AllReadable(p, file.lines)
      ensures r.Success? ==> r.value == (LastSequence(Records(p, file.lines)), LastHash(Records(p, file.lines)))
    {
      var sequence, digest := Int(-1), Str(Zeros(64));
      for i := 0 to |file.lines|
        invariant AllReadable(p, file.lines[..i])
        invariant sequence == LastSequence(Records(p, file.lines[..i])) && digest == LastHash(Records(p, file.lines[..i]))
      {
        var read := ReadLine(p, file.lines[i]);
        if read.Failure? {
          return Failure(());
        }
        PrefixReadable(p, file.lines, i);
        if read.value.Some? {
          sequence, digest := read.value.value.sequence, read.value.value.recordHash;
        }
      }
      assert file.lines[..|file.lines|] == file.lines;
      return Success((sequence, digest));
    }

    method Append(payload: Value) returns (r: Result<Record, ()>)
      modifies this
      ensures r.Success? <==>
        AllReadable(p, old(file.lines)) && NextRecord(p, Records(p, old(file.lines)), payload).Some?
      ensures r.Failure? ==> file == old(file)
      ensures r.Success? ==> Some(r.value) == NextRecord(p, Records(p, old(file.lines)), payload)
      ensures r.Success? ==> file == Extended(old(file), Json(Written(r.value), p.size(Written(r.value))))
    {
      var head := Head();
      if head.Failure? || Succ(head.value.0).None? {
        return Failure(());
      }
      var sequence, prevHash := Succ(head.value.0).value, head.value.1;
      var hash := HashRecord(p, prevHash, payload, sequence);
      if hash.None? {
        return Failure(());
      }
      var record := Record(sequence, prevHash, Str(hash.value), payload);
      file := Extended(file, Json(Written(record), p.size(Written(record))));
      return Success(record);
    }

    /** Recomputes every hash. */
    method Verify() returns (r: Result<nat, ()>)
      ensures r.Success? <==> Verifies(p, file)
      ensures r.Success? ==> r.value == |Records(p, file.lines)|
    {
      var expectedPrev := Str(Zeros(64));
      var count := 0;
      for i := 0 to |file.lines|
        invariant AllReadable(p, file.lines[..i]) && Chained(p, Records(p, file.lines[..i]))
        invariant count == |Records(p, file.lines[..i])| && expectedPrev == LastHash(Records(p, file.lines[..i]))
      {
        var read := ReadLine(p, file.lines[i]);
        if read.Failure? {
          return Failure(());
        }
        if read.value.None? {
          PrefixReadable(p, file.lines, i);
          assert Records(p, file.lines[..i + 1]) == Records(p, file.lines[..i]);
        } else {
          var record := read.value.value;
          var recomputed := HashRecord(p, record.prevHash, record.payload, record.sequence);
          RecordVerdict(p, file.lines, i, record, recomputed);
          if !PyEq(record.sequence, Int(count)) || record.prevHash != expectedPrev
            || recomputed.None? || Str(recomputed.value) != record.recordHash {
            return Failure(());
          }
          count, expectedPrev := count + 1, record.recordHash;
        }
      }
      assert file.lines[..|file.lines|] == file.lines;
      return Success(count);
    }
  }
}
