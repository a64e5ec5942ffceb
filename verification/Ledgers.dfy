/** The append-only event ledger: one hash chain for each run, in one table. */
module Ledgers {
  import opened Domain

  /** What a stored payload text reads as; `Object` is a parsed JSON object. */
  datatype Stored<+P> = BadEncoding | NotJson | NotObject | Object(payload: P)

  /** The fields that a hash covers. */
  datatype Fields<+P, +H> = Fields(run: Id, seqNo: int, kind: string, payload: P, prev: H, version: int, time: real)

  datatype Row<+P, +H> = Row(run: Id, seqNo: int, kind: string, text: Stored<P>, version: int, time: real, prev: H,
    hash: H)

  /** An event as a caller hands it over. */
  datatype Event<+P, +H> = Event(run: Id, seqNo: nat, payload: P, time: real, prev: H)

  datatype Category = PrevHash | PayloadEncoding | PayloadJson | PayloadType | HashMismatch | EventSchema

  datatype IntegrityResult = IntegrityResult(ok: bool, checked: nat, errorAt: Option<int>, category: Option<Category>)

  const MAX_SCHEMA_VERSION := 1

  /**
   * What lies outside the ledger: the hash and its empty string, the redaction of secrets, the event kinds, and
   * the catalog that reads the kind and version of a payload, or refuses it.
   */
  datatype Outside<!P, !H> = Outside(hash: Fields<P, H> -> H, empty: H, redact: P -> P, kinds: set<string>,
    catalog: P -> Option<(string, int)>)

  /** A stored payload that reads back: under a known kind, of a version that this build understands. */
  predicate Readable<P, H>(o: Outside<P, H>, kind: string, payload: P) {
    kind in o.kinds && o.catalog(payload).Some? && o.catalog(payload).value.1 <= MAX_SCHEMA_VERSION
  }

  function HashOf<P, H>(o: Outside<P, H>, r: Row<P, H>): H
    requires r.text.Object?
  {
    o.hash(Fields(r.run, r.seqNo, r.kind, r.text.payload, r.prev, r.version, r.time))
  }

  /** A row that reads back, carries its own hash and links to `prev`. */
  predicate Sound<P, H(==)>(o: Outside<P, H>, prev: H, r: Row<P, H>) {
    r.prev == prev && r.text.Object? && HashOf(o, r) == r.hash && Readable(o, r.kind, r.text.payload)
  }

  /** The hash that the next row must link to. */
  function Tip<P, H>(o: Outside<P, H>, rows: seq<Row<P, H>>): H {
    if rows == [] then o.empty else rows[|rows| - 1].hash
  }

  /** Every row is sound and links to the one before it. */
  predicate Verifies<P, H(==)>(o: Outside<P, H>, rows: seq<Row<P, H>>) {
    rows == [] || (Verifies(o, rows[..|rows| - 1]) && Sound(o, Tip(o, rows[..|rows| - 1]), rows[|rows| - 1]))
  }

  lemma {:induction false} VerifiesAt<P, H>(o: Outside<P, H>, rows: seq<Row<P, H>>, i: nat)
    requires i < |rows| && Verifies(o, rows)
    ensures Sound(o, Tip(o, rows[..i]), rows[i]) && Verifies(o, rows[..i])
    decreases |rows|
  {
    if i < |rows| - 1 {
      VerifiesAt(o, rows[..|rows| - 1], i);
      assert rows[..|rows| - 1][..i] == rows[..i];
    }
  }

  /** What is wrong with a row, in the order in which verification looks. */
  function Diagnose<P, H(==)>(o: Outside<P, H>, prev: H, r: Row<P, H>): (c: Option<Category>)
    ensures c.None? <==> Sound(o, prev, r)
  {
    if r.prev != prev then Some(PrevHash)
    else
      match r.text
      case BadEncoding => Some(PayloadEncoding)
      case NotJson => Some(PayloadJson)
      case NotObject => Some(PayloadType)
      case Object(payload) =>
        if HashOf(o, r) != r.hash then Some(HashMismatch)
        else if !Readable(o, r.kind, payload) then Some(EventSchema)
        else None
  }

  /** A broken link is found first, then text that does not read, then the hash, then a kind or version unknown. */
  lemma {:induction false} DiagnoseMeans<P, H>(o: Outside<P, H>, prev: H, r: Row<P, H>)
    ensures Diagnose(o, prev, r) == Some(PrevHash) <==> r.prev != prev
    ensures Diagnose(o, prev, r) == Some(PayloadEncoding) <==> r.prev == prev && r.text.BadEncoding?
    ensures Diagnose(o, prev, r) == Some(PayloadJson) <==> r.prev == prev && r.text.NotJson?
    ensures Diagnose(o, prev, r) == Some(PayloadType) <==> r.prev == prev && r.text.NotObject?
    ensures Diagnose(o, prev, r) == Some(HashMismatch) <==> r.prev == prev && r.text.Object? && HashOf(o, r) != r.hash
    ensures Diagnose(o, prev, r) == Some(EventSchema) <==>
      r.prev == prev && r.text.Object? && HashOf(o, r) == r.hash &&
      (r.kind !in o.kinds || o.catalog(r.text.payload).None? || o.catalog(r.text.payload).value.1 > 1)
  {
  }

  /** Verification of the rows of one run, as the database returns them. */
  method VerifyIntegrity<P, H(==)>(o: Outside<P, H>, rows: seq<Row<P, H>>) returns (r: IntegrityResult)
    ensures r.ok <==> Verifies(o, rows)
    ensures r.ok ==> r.checked == |rows|
    ensures !r.ok ==> r.checked < |rows| && Verifies(o, rows[..r.checked]) && r.errorAt == Some(rows[r.checked].seqNo)
    ensures !r.ok ==> r.category == Diagnose(o, Tip(o, rows[..r.checked]), rows[r.checked]) && r.category.Some?
  {
    var prev := o.empty;
    for i := 0 to |rows|
      invariant prev == Tip(o, rows[..i]) && Verifies(o, rows[..i])
    {
      assert rows[..i + 1][..i] == rows[..i];
      var category := Diagnose(o, prev, rows[i]);
      if category.Some? {
        if Verifies(o, rows) {
          VerifiesAt(o, rows, i);
          assert false;
        }
        return IntegrityResult(false, i, Some(rows[i].seqNo), category);
      }
      prev := rows[i].hash;
    }
    assert rows[..|rows|] == rows;
    r := IntegrityResult(true, |rows|, None, None);
  }

  /**
   * The kind beside a payload is hashed and must be known, but is never compared with the payload's own: a row that
   * is otherwise sound stays so under another known kind, hashed with it.
   */
  lemma {:induction false} StoredKindIsNotCompared<P, H>(o: Outside<P, H>, prev: H, r: Row<P, H>, kind: string)
    requires Sound(o, prev, r)
    ensures var other := r.(kind := kind, hash := HashOf(o, r.(kind := kind)));
            Sound(o, prev, other) <==> kind in o.kinds
  {
  }

  // Appending.

  /** The rows of one run, in the order they were inserted. */
  function Select<P, H>(table: seq<Row<P, H>>, run: Id): seq<Row<P, H>> {
    if table == [] then []
    else
      var last := table[|table| - 1];
      Select(table[..|table| - 1], run) + (if last.run == run then [last] else [])
  }

  lemma {:induction false} SelectSnoc<P, H>(table: seq<Row<P, H>>, r: Row<P, H>, run: Id)
    ensures Select(table + [r], run) == Select(table, run) + (if r.run == run then [r] else [])
  {
    assert (table + [r])[..|table|] == table;
  }

  /** Sequence numbers 1 to n, all of one run, each row linked to the one before and hashed. */
  predicate Chained<P, H(==)>(o: Outside<P, H>, run: Id, rows: seq<Row<P, H>>) {
    && Verifies(o, rows)
    && forall i :: 0 <= i < |rows| ==> rows[i].seqNo == i + 1 && rows[i].run == run
  }

  lemma {:induction false} ChainedSnoc<P, H>(o: Outside<P, H>, run: Id, rows: seq<Row<P, H>>, r: Row<P, H>)
    requires Chained(o, run, rows) && r.run == run && r.seqNo == |rows| + 1 && Sound(o, Tip(o, rows), r)
    ensures Chained(o, run, rows + [r])
  {
    assert (rows + [r])[..|rows|] == rows;
  }

  datatype AppendError = NewerSchema | NotFirst | NotNext | BrokenLink | PayloadRefused

  /** Why an event is refused, given the last row of its run. */
  function StoreError<P, H(==)>(o: Outside<P, H>, last: Option<Row<P, H>>, e: Event<P, H>): Option<AppendError> {
    var entry := o.catalog(e.payload);
    if entry.Some? && entry.value.1 > MAX_SCHEMA_VERSION then Some(NewerSchema)
    else if last.None? && e.seqNo != 1 then Some(NotFirst)
    else if last.Some? && e.seqNo != last.value.seqNo + 1 then Some(NotNext)
    else if last.Some? && e.prev != o.empty && e.prev != last.value.hash then Some(BrokenLink)
    else if entry.None? || !Readable(o, entry.value.0, o.redact(e.payload)) then Some(PayloadRefused)
    else None
  }

  /** The row that an accepted event becomes: redacted first, then hashed over what is stored. */
  function NewRow<P, H>(o: Outside<P, H>, last: Option<Row<P, H>>, e: Event<P, H>): Row<P, H>
    requires o.catalog(e.payload).Some?
  {
    var payload := o.redact(e.payload);
    var prev := if last.Some? then last.value.hash else o.empty;
    var (kind, version) := o.catalog(e.payload).value;
    Row(e.run, e.seqNo, kind, Object(payload), version, e.time, prev,
        o.hash(Fields(e.run, e.seqNo, kind, payload, prev, version, e.time)))
  }

  function LastRow<P, H>(rows: seq<Row<P, H>>): Option<Row<P, H>> {
    if rows == [] then None else Some(rows[|rows| - 1])
  }

  /** The event that `append_next` stores: the next number and the link to the last row. */
  function NextEvent<P, H>(o: Outside<P, H>, last: Option<Row<P, H>>, run: Id, payload: P, time: real): Event<P, H>
    requires last.Some? ==> last.value.seqNo >= 0
  {
    Event(run, if last.None? then 1 else last.value.seqNo + 1, payload, time,
      if last.None? then o.empty else last.value.hash)
  }

  /** What a row keeps of the payload it was made from is the redacted payload. */
  ghost predicate Redacted<P(!new), H>(o: Outside<P, H>, r: Row<P, H>) {
    exists payload :: RedactedFrom(o, r, payload)
  }

  predicate RedactedFrom<P(==), H>(o: Outside<P, H>, r: Row<P, H>, payload: P) {
    r.text == Object(o.redact(payload))
  }

  /** An accepted event as a row: under its own run, number and time, its payload redacted, linked to the last row. */
  predicate Records<P(==), H(==)>(o: Outside<P, H>, last: Option<Row<P, H>>, e: Event<P, H>, r: Row<P, H>) {
    && r.run == e.run && r.seqNo == e.seqNo && r.time == e.time && r.text == Object(o.redact(e.payload))
    && o.catalog(e.payload) == Some((r.kind, r.version))
    && r.prev == (if last.Some? then last.value.hash else o.empty) && r.hash == HashOf(o, r)
  }

  /** The payload is of a schema that this build does not know yet. */
  predicate IsNewer<P, H>(o: Outside<P, H>, payload: P) {
    o.catalog(payload).Some? && o.catalog(payload).value.1 > MAX_SCHEMA_VERSION
  }

  /** The event carries the next number of its run, and links to the last row or to nothing. */
  predicate Follows<P, H(==)>(o: Outside<P, H>, rows: seq<Row<P, H>>, e: Event<P, H>) {
    e.seqNo == |rows| + 1 && (rows == [] || e.prev == o.empty || e.prev == rows[|rows| - 1].hash)
  }

  /** Redacted, the payload reads back under its own kind. */
  predicate ReadsBack<P, H>(o: Outside<P, H>, payload: P) {
    o.catalog(payload).Some? && Readable(o, o.catalog(payload).value.0, o.redact(payload))
  }

  /** Which events a run of these rows refuses, and as what. */
  predicate Refuses<P, H(==)>(o: Outside<P, H>, rows: seq<Row<P, H>>, e: Event<P, H>, error: Option<AppendError>) {
    && (error.None? <==> !IsNewer(o, e.payload) && Follows(o, rows, e) && ReadsBack(o, e.payload))
    && (error == Some(NewerSchema) <==> IsNewer(o, e.payload))
    && (error == Some(PayloadRefused) <==>
          !IsNewer(o, e.payload) && Follows(o, rows, e) && !ReadsBack(o, e.payload))
    && (error == Some(BrokenLink) <==>
          !IsNewer(o, e.payload) && !Follows(o, rows, e) && e.seqNo == |rows| + 1)
    && (error == Some(NotFirst) || error == Some(NotNext) ==> if rows == [] then error.value.NotFirst?
                                                              else error.value.NotNext?)
  }

  lemma {:induction false} StoreErrorMeans<P, H>(o: Outside<P, H>, run: Id, rows: seq<Row<P, H>>, e: Event<P, H>)
    requires Chained(o, run, rows)
    ensures Refuses(o, rows, e, StoreError(o, LastRow(rows), e))
  {
  }

  ghost predicate AllChained<P(!new), H>(o: Outside<P, H>, table: seq<Row<P, H>>) {
    forall run :: Chained(o, run, Select(table, run))
  }

  ghost predicate AllRedacted<P(!new), H>(o: Outside<P, H>, table: seq<Row<P, H>>) {
    forall r :: r in table ==> Redacted(o, r)
  }

  lemma {:induction false} StoredIsSound<P, H>(o: Outside<P, H>, rows: seq<Row<P, H>>, e: Event<P, H>)
    requires StoreError(o, LastRow(rows), e).None?
    ensures Sound(o, Tip(o, rows), NewRow(o, LastRow(rows), e))
  {
  }

  /** A row that continues its run leaves every other run as it was. */
  lemma {:induction false} OneMoreRow<P(!new), H>(o: Outside<P, H>, table: seq<Row<P, H>>, row: Row<P, H>)
    requires AllChained(o, table) && row.seqNo == |Select(table, row.run)| + 1
    requires Sound(o, Tip(o, Select(table, row.run)), row)
    ensures AllChained(o, table + [row])
    ensures forall run :: run != row.run ==> Select(table + [row], run) == Select(table, run)
  {
    ChainedSnoc(o, row.run, Select(table, row.run), row);
    forall run ensures Chained(o, run, Select(table + [row], run)) {
      SelectSnoc(table, row, run);
      assert run != row.run ==> Select(table, run) + [] == Select(table, run);
    }
    forall run | run != row.run ensures Select(table + [row], run) == Select(table, run) {
      SelectSnoc(table, row, run);
      assert Select(table, run) + [] == Select(table, run);
    }
  }

  /** The table of all runs. */
  class Ledger<P(==, !new), H(==)> {
    const outside: Outside<P, H>
    var table: seq<Row<P, H>>

    /** In every run: numbers from 1, correct links, correct hashes; and redacted payloads only. */
    ghost predicate Valid()
      reads this
    {
      AllChained(outside, table) && AllRedacted(outside, table)
    }

    constructor (outside: Outside<P, H>)
      ensures Valid() && table == [] && this.outside == outside
    {
      this.outside, table := outside, [];
    }

    /** An append with the number and link chosen by the caller. */
    method Append(e: Event<P, H>) returns (error: Option<AppendError>)
      requires Valid()
      modifies this
      ensures Valid()
      ensures error == StoreError(outside, LastRow(Select(old(table), e.run)), e)
      ensures Refuses(outside, Select(old(table), e.run), e, error)
      ensures error.Some? ==> table == old(table)
      ensures error.None? ==>
        && |table| == |old(table)| + 1 && table[..|old(table)|] == old(table)
        && Records(outside, LastRow(Select(old(table), e.run)), e, table[|old(table)|])
        && table == old(table) + [NewRow(outside, LastRow(Select(old(table), e.run)), e)]
      ensures forall run :: run != e.run ==> Select(table, run) == Select(old(table), run)
    {
      var rows := Select(table, e.run);
      var last := LastRow(rows);
      error := StoreError(outside, last, e);
      StoreErrorMeans(outside, e.run, rows, e);
      if error.Some? {
        return;
      }
      var row := NewRow(outside, last, e);
      StoredIsSound(outside, rows, e);
      OneMoreRow(outside, table, row);
      assert RedactedFrom(outside, row, e.payload);
      table := table + [row];
    }

    /** An append whose number and link the ledger chooses: it can only be refused for its payload. */
    method AppendNext(run: Id, payload: P, time: real) returns (error: Option<AppendError>)
      requires Valid()
      modifies this
      ensures Valid()
      ensures error.None? <==>
        outside.catalog(payload).Some? && outside.catalog(payload).value.1 <= MAX_SCHEMA_VERSION &&
        Readable(outside, outside.catalog(payload).value.0, outside.redact(payload))
      ensures error.Some? ==> table == old(table)
      ensures error.None? ==>
        var last := LastRow(Select(old(table), run));
        (last.Some? ==> last.value.seqNo >= 0) &&
        Select(table, run) ==
          Select(old(table), run) + [NewRow(outside, last, NextEvent(outside, last, run, payload, time))]
      ensures forall other :: other != run ==> Select(table, other) == Select(old(table), other)
    {
      var rows := Select(table, run);
      var last := LastRow(rows);
      ghost var before := table;
      assert Chained(outside, run, rows);
      var e := NextEvent(outside, last, run, payload, time);
      error := Append(e);
      if error.None? {
        SelectSnoc(before, NewRow(outside, last, e), run);
      }
    }
  }

  // What tampering verification detects, when the hash has no collisions and is never empty.

  ghost predicate Collisionless<P(!new), H(!new)>(o: Outside<P, H>) {
    && (forall a, b :: o.hash(a) == o.hash(b) ==> a == b)
    && (forall a :: o.hash(a) != o.empty)
  }

  /** The hash at the tip determines everything below it. */
  lemma {:induction false} TipDetermines<P(!new), H(!new)>(o: Outside<P, H>, a: seq<Row<P, H>>, b: seq<Row<P, H>>)
    requires Collisionless(o) && Verifies(o, a) && Verifies(o, b) && Tip(o, a) == Tip(o, b)
    ensures a == b
    decreases |a|
  {
    TipIsEmptyIff(o, a);
    TipIsEmptyIff(o, b);
    if a != [] {
      var frontA, frontB := a[..|a| - 1], b[..|b| - 1];
      SameHashSameRow(o, Tip(o, frontA), a[|a| - 1], Tip(o, frontB), b[|b| - 1]);
      TipDetermines(o, frontA, frontB);
      assert a == frontA + [a[|a| - 1]] && b == frontB + [b[|b| - 1]];
    }
  }

  /** Only the first row of a chain links to nothing. */
  lemma {:induction false} TipIsEmptyIff<P(!new), H(!new)>(o: Outside<P, H>, rows: seq<Row<P, H>>)
    requires Collisionless(o) && Verifies(o, rows)
    ensures Tip(o, rows) == o.empty <==> rows == []
  {
  }

  lemma {:induction false} SameHashSameRow<P(!new), H(!new)>(o: Outside<P, H>, p: H, x: Row<P, H>, q: H, y: Row<P, H>)
    requires Collisionless(o) && Sound(o, p, x) && Sound(o, q, y) && x.hash == y.hash
    ensures x == y && p == q
  {
  }

  /** Truncation is not detected: every prefix of a chain that verifies verifies. */
  lemma {:induction false} PrefixVerifies<P, H>(o: Outside<P, H>, rows: seq<Row<P, H>>, k: nat)
    requires Verifies(o, rows) && k <= |rows|
    ensures Verifies(o, rows[..k])
  {
    if k < |rows| {
      VerifiesAt(o, rows, k);
    } else {
      assert rows[..k] == rows;
    }
  }

  /**
   * Exactly truncation is not detected: of all lists that end in a recorded hash, those that verify are the prefixes.
   * So every edit, insertion or deletion below an unchanged tip is found.
   */
  lemma {:induction false} OnlyTruncationEscapes<P(!new), H(!new)>(o: Outside<P, H>, rows: seq<Row<P, H>>,
                                                            other: seq<Row<P, H>>, k: nat)
    requires Collisionless(o) && Verifies(o, rows) && k <= |rows| && Tip(o, other) == Tip(o, rows[..k])
    ensures Verifies(o, other) <==> other == rows[..k]
  {
    PrefixVerifies(o, rows, k);
    if Verifies(o, other) {
      TipDetermines(o, rows[..k], other);
    }
  }

  // Reading.

  /** The rows after a number, in order. */
  function Since<P, H>(rows: seq<Row<P, H>>, since: int): seq<Row<P, H>> {
    if rows == [] then []
      else Since(rows[..|rows| - 1], since) + (if rows[|rows| - 1].seqNo > since then [rows[|rows| - 1]] else [])
  }

  /** At most a page of them. */
  function EventsSince<P, H>(rows: seq<Row<P, H>>, since: int, limit: nat): seq<Row<P, H>> {
    var later := Since(rows, since);
    if |later| <= limit then later else later[..limit]
  }

  lemma {:induction false} SinceIsSuffix<P, H>(rows: seq<Row<P, H>>, since: nat)
    requires forall i :: 0 <= i < |rows| ==> rows[i].seqNo == i + 1
    requires since <= |rows|
    ensures Since(rows, since) == rows[since..]
  {
    if since < |rows| {
      var front := rows[..|rows| - 1];
      SinceIsSuffix(front, since);
      assert rows[since..] == front[since..] + [rows[|rows| - 1]];
    } else {
      NothingSince(rows, since);
    }
  }

  lemma {:induction false} NothingSince<P, H>(rows: seq<Row<P, H>>, since: nat)
    requires forall i :: 0 <= i < |rows| ==> rows[i].seqNo <= since
    ensures Since(rows, since) == []
  {
    if rows != [] {
      NothingSince(rows[..|rows| - 1], since);
    }
  }

  /** On a chain a page is a slice. */
  lemma {:induction false} PageIsSlice<P, H>(o: Outside<P, H>, run: Id, rows: seq<Row<P, H>>, since: nat, limit: nat)
    requires Chained(o, run, rows) && since <= |rows|
    ensures EventsSince(rows, since, limit) == rows[since..Min(since + limit, |rows|)]
  {
    SinceIsSuffix(rows, since);
  }
}
