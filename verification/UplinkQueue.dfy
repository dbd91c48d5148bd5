/**
 The bounded store-and-forward queue of src/zediot_ha_hub_connector/queue.py.

 The `uplink_queue` table is a sequence of rows in primary-key order (the key is the
 uplink sequence number), and the four counters of `queue_metadata` are fields. Every
 method is one atomic step, which stands for one SQLite transaction. Timestamps are
 integers; the caller passes the clock reading.
 */
module UplinkQueue {
  import opened Wrappers

  datatype Kind = Event | Snapshot

  /** What is uploaded: an identity, the id Core deduplicates on, and the label set at collection time. */
  datatype Payload = Payload(id: nat, sourceEventId: Option<string>, replay: bool)

  datatype Row = Row(
    sequence: int,
    kind: Kind,
    payload: Payload,
    byteSize: nat,
    createdAt: int,
    attempts: nat,
    lastAttemptedAt: Option<int>)

  datatype QueueState = QueueState(
    rows: seq<Row>,
    nextSequence: int,
    acknowledged: int,
    dropped: int,
    reconciliation: bool)

  datatype Limits = Limits(maxBytes: int, maxAge: int)

  /** `Conflict` means that the next sequence was already taken; the transaction then rolls back. */
  datatype EnqueueOutcome = Accepted(sequence: int) | Rejected(sequence: int) | Conflict

  datatype Summary = Summary(depth: nat, bytes: nat, oldest: int, latest: int, dropped: int, reconciliation: bool)

  /** A database that was just created. */
  const FRESH := QueueState([], 1, 0, 0, false)

  // ---------- the table ----------

  /** The primary key: rows are listed in strictly increasing sequence order. */
  predicate Keyed(rows: seq<Row>) {
    forall i, j :: 0 <= i < j < |rows| ==> rows[i].sequence < rows[j].sequence
  }

  predicate Consecutive(rows: seq<Row>, first: int) {
    forall i :: 0 <= i < |rows| ==> rows[i].sequence == first + i
  }

  /** The representation invariant: the rows are exactly the interval (acknowledged, nextSequence). */
  predicate Consistent(q: QueueState) {
    && Consecutive(q.rows, q.acknowledged + 1)
    && q.nextSequence == q.acknowledged + 1 + |q.rows|
  }

  function SumBytes(rows: seq<Row>): nat {
    if rows == [] then 0 else SumBytes(rows[..|rows| - 1]) + rows[|rows| - 1].byteSize
  }

  /** The rows above cursor s, in order. */
  function After(rows: seq<Row>, s: int): seq<Row> {
    if rows == [] then []
    else if rows[0].sequence <= s then After(rows[1..], s)
    else [rows[0]] + After(rows[1..], s)
  }

  predicate HasKey(rows: seq<Row>, sequence: int) {
    exists i :: 0 <= i < |rows| && rows[i].sequence == sequence
  }

  /** The table with one more row, at its key's place in primary-key order. */
  function Insert(rows: seq<Row>, row: Row): seq<Row> {
    if rows == [] || rows[|rows| - 1].sequence < row.sequence then rows + [row]
    else Insert(rows[..|rows| - 1], row) + [rows[|rows| - 1]]
  }

  predicate AnyOlder(rows: seq<Row>, cutoff: int) {
    exists i :: 0 <= i < |rows| && rows[i].createdAt < cutoff
  }

  function Head(rows: seq<Row>, limit: int): seq<Row> {
    if limit < 0 || limit >= |rows| then rows else rows[..limit]
  }

  function Stamp(last: Option<int>, now: int): Option<int> {
    if last.None? then Some(now) else last
  }

  function Attempted(row: Row, sequences: seq<int>, now: int): Row {
    if row.sequence in sequences then row.(attempts := row.attempts + 1, lastAttemptedAt := Some(now)) else row
  }

  function Fenced(row: Row, now: int): Row {
    row.(attempts := if row.attempts == 0 then 1 else row.attempts, lastAttemptedAt := Stamp(row.lastAttemptedAt, now))
  }

  function Reopened(row: Row): Row {
    if row.attempts == 0 then row.(attempts := 1, lastAttemptedAt := Stamp(row.lastAttemptedAt, row.createdAt)) else row
  }

  // ---------- one function per operation ----------

  function RecordDrop(q: QueueState, count: int): QueueState {
    if count <= 0 then q else q.(dropped := q.dropped + count, reconciliation := true)
  }

  function Expire(q: QueueState, limits: Limits, now: int): QueueState {
    if !AnyOlder(q.rows, now - limits.maxAge) then q
    else RecordDrop(q.(rows := [], nextSequence := q.acknowledged + 1), |q.rows|)
  }

  function Fits(q: QueueState, limits: Limits, byteSize: nat): bool {
    byteSize <= limits.maxBytes && SumBytes(q.rows) + byteSize <= limits.maxBytes
  }

  function NewRow(sequence: int, kind: Kind, payload: Payload, byteSize: nat, now: int): Row {
    Row(sequence, kind, payload, byteSize, now, 0, None)
  }

  function Enqueue(q: QueueState, limits: Limits, kind: Kind, payload: Payload, byteSize: nat, now: int)
    : (QueueState, EnqueueOutcome)
  {
    var e := Expire(q, limits, now);
    if !Fits(e, limits, byteSize) then (RecordDrop(e, 1), Rejected(e.nextSequence))
    else if HasKey(e.rows, e.nextSequence) then (q, Conflict)
    else
      (e.(rows := Insert(e.rows, NewRow(e.nextSequence, kind, payload, byteSize, now)),
          nextSequence := e.nextSequence + 1),
       Accepted(e.nextSequence))
  }

  function MarkAttempted(q: QueueState, sequences: seq<int>, now: int): QueueState {
    q.(rows := seq(|q.rows|, i requires 0 <= i < |q.rows| => Attempted(q.rows[i], sequences, now)))
  }

  function MarkUncertain(q: QueueState, now: int): QueueState {
    q.(rows := seq(|q.rows|, i requires 0 <= i < |q.rows| => Fenced(q.rows[i], now)))
  }

  function Reopen(q: QueueState): QueueState {
    q.(rows := seq(|q.rows|, i requires 0 <= i < |q.rows| => Reopened(q.rows[i])))
  }

  function Acknowledge(q: QueueState, s: int): QueueState {
    q.(rows := After(q.rows, s),
       acknowledged := if s > q.acknowledged then s else q.acknowledged,
       nextSequence := if q.nextSequence <= s then s + 1 else q.nextSequence)
  }

  /** The COUNT/MIN/MAX test on the rows left above the server cursor. */
  predicate CountsAsContiguous(tail: seq<Row>, s: int) {
    || tail == []
    || (tail[0].sequence == s + 1 && |tail| == tail[|tail| - 1].sequence - tail[0].sequence + 1)
  }

  function Synchronize(q: QueueState, s: int): QueueState {
    var tail := After(q.rows, s);
    if CountsAsContiguous(tail, s) then
      q.(rows := tail, acknowledged := s,
         nextSequence := if tail == [] then s + 1 else tail[|tail| - 1].sequence + 1)
    else
      RecordDrop(q.(rows := [], acknowledged := s, nextSequence := s + 1), |tail|)
  }

  // ---------- the class ----------

  class BoundedUplinkQueue {
    var rows: seq<Row>
    var nextSequence: int
    var acknowledged: int
    var droppedCount: int
    var reconciliationRequired: bool
    const limits: Limits

    ghost predicate Valid() reads this { Keyed(rows) }

    function State(): QueueState reads this {
      QueueState(rows, nextSequence, acknowledged, droppedCount, reconciliationRequired)
    }

    /** Opening a stored database: rows that predate this process become delivery-uncertain. */
    constructor (stored: QueueState, limits: Limits)
      requires Keyed(stored.rows)
      ensures Valid() && State() == Reopen(stored) && this.limits == limits
      ensures |rows| == |stored.rows|
      ensures forall i :: 0 <= i < |rows| && stored.rows[i].attempts > 0 ==> rows[i] == stored.rows[i]
      ensures forall i :: 0 <= i < |rows| && stored.rows[i].attempts == 0 ==>
        var row := stored.rows[i];
        var stamp := if row.lastAttemptedAt.None? then Some(row.createdAt) else row.lastAttemptedAt;
        rows[i] == row.(attempts := 1, lastAttemptedAt := stamp)
    {
      this.rows := Reopen(stored).rows;
      this.nextSequence := stored.nextSequence;
      this.acknowledged := stored.acknowledged;
      this.droppedCount := stored.dropped;
      this.reconciliationRequired := stored.reconciliation;
      this.limits := limits;
    }

    method RecordDropped(count: int)
      requires Valid()
      modifies this
      ensures Valid() && State() == RecordDrop(old(State()), count)
      ensures droppedCount == old(droppedCount) + (if count > 0 then count else 0)
      ensures reconciliationRequired == (old(reconciliationRequired) || count > 0)
      ensures rows == old(rows) && nextSequence == old(nextSequence) && acknowledged == old(acknowledged)
    {
      if count <= 0 { return; }
      droppedCount := droppedCount + count;
      reconciliationRequired := true;
    }

    method ExpireStale(now: int)
      requires Valid()
      modifies this
      ensures Valid() && State() == Expire(old(State()), limits, now)
    {
      if !AnyOlder(rows, now - limits.maxAge) { return; }
      var queued := |rows|;
      rows := [];
      nextSequence := acknowledged + 1;
      RecordDropped(queued);
    }

    method Push(kind: Kind, payload: Payload, byteSize: nat, now: int) returns (outcome: EnqueueOutcome)
      requires Valid()
      modifies this
      ensures Valid()
      ensures (State(), outcome) == Enqueue(old(State()), limits, kind, payload, byteSize, now)
    {
      var before := State();
      ExpireStale(now);
      var sequence := nextSequence;
      var total := SumBytes(rows);
      if byteSize > limits.maxBytes || total + byteSize > limits.maxBytes {
        RecordDropped(1);
        return Rejected(sequence);
      }
      nextSequence := sequence + 1;
      if HasKey(rows, sequence) {
        Restore(before);
        return Conflict;
      }
      InsertKeepsKeys(rows, NewRow(sequence, kind, payload, byteSize, now));
      rows := Insert(rows, NewRow(sequence, kind, payload, byteSize, now));
      return Accepted(sequence);
    }

    /** The rollback when a transaction raises. */
    method Restore(saved: QueueState)
      requires Keyed(saved.rows)
      modifies this
      ensures Valid() && State() == saved
    {
      rows := saved.rows;
      nextSequence := saved.nextSequence;
      acknowledged := saved.acknowledged;
      droppedCount := saved.dropped;
      reconciliationRequired := saved.reconciliation;
    }

    method PeekAll(limit: int, now: int) returns (items: seq<Row>)
      requires Valid()
      modifies this
      ensures Valid() && State() == Expire(old(State()), limits, now)
      ensures items == Head(State().rows, limit)
      ensures items == if 0 <= limit < |rows| then rows[..limit] else rows
      ensures forall i :: 0 <= i < |items| ==> items[i].createdAt >= now - limits.maxAge
    {
      ExpireStale(now);
      items := Head(rows, limit);
    }

    /** Reading the summary expires the queue first; an empty queue reports sequences 0. */
    method Summarize(now: int) returns (summary: Summary)
      requires Valid()
      modifies this
      ensures Valid() && State() == Expire(old(State()), limits, now)
      ensures summary.depth == |rows| && summary.bytes == SumBytes(rows)
      ensures forall r :: r in rows ==> summary.oldest <= r.sequence <= summary.latest
      ensures rows != [] ==> HasKey(rows, summary.oldest) && HasKey(rows, summary.latest)
      ensures rows == [] ==> summary.oldest == summary.latest == 0
      ensures summary.dropped == droppedCount && summary.reconciliation == reconciliationRequired
    {
      ExpireStale(now);
      var oldest, latest := 0, 0;
      if rows != [] {
        oldest, latest := rows[0].sequence, rows[|rows| - 1].sequence;
      }
      summary := Summary(|rows|, SumBytes(rows), oldest, latest, droppedCount, reconciliationRequired);
    }

    method MarkDeliveryAttempted(sequences: seq<int>, now: int)
      requires Valid()
      modifies this
      ensures Valid() && State() == MarkAttempted(old(State()), sequences, now)
      ensures |rows| == |old(rows)|
      ensures forall i :: 0 <= i < |rows| && old(rows)[i].sequence !in sequences ==> rows[i] == old(rows)[i]
      ensures forall i :: 0 <= i < |rows| && old(rows)[i].sequence in sequences ==>
        rows[i] == old(rows)[i].(attempts := old(rows)[i].attempts + 1, lastAttemptedAt := Some(now))
    {
      if sequences == [] {
        assert MarkAttempted(State(), sequences, now).rows == rows;
        return;
      }
      rows := MarkAttempted(State(), sequences, now).rows;
    }

    method MarkPendingDeliveryUncertain(now: int)
      requires Valid()
      modifies this
      ensures Valid() && State() == MarkUncertain(old(State()), now)
      ensures |rows| == |old(rows)|
      ensures forall i :: 0 <= i < |rows| ==>
        var row := old(rows)[i];
        var stamp := if row.lastAttemptedAt.None? then Some(now) else row.lastAttemptedAt;
        rows[i] == row.(attempts := if row.attempts == 0 then 1 else row.attempts, lastAttemptedAt := stamp)
    {
      rows := MarkUncertain(State(), now).rows;
    }

    method AcknowledgeThrough(sequence: int)
      requires Valid()
      modifies this
      ensures Valid() && State() == Acknowledge(old(State()), sequence)
      ensures forall r :: r in rows <==> r in old(rows) && r.sequence > sequence
      ensures acknowledged == (if sequence > old(acknowledged) then sequence else old(acknowledged))
      ensures nextSequence == (if sequence >= old(nextSequence) then sequence + 1 else old(nextSequence))
    {
      AfterIsSelection(rows, sequence);
      assert Keyed(After(rows, sequence)) by { AfterIsSelection(rows, sequence); }
      rows := After(rows, sequence);
      if sequence > acknowledged {
        acknowledged := sequence;
      }
      if nextSequence <= sequence {
        nextSequence := sequence + 1;
      }
    }

    /** A negative cursor raises ValueError before anything is written. */
    method SynchronizeWithServerCursor(sequence: int) returns (repaired: Result<bool, string>)
      requires Valid()
      modifies this
      ensures Valid()
      ensures sequence < 0 ==> repaired.Err? && State() == old(State())
      ensures sequence >= 0 ==>
        && State() == Synchronize(old(State()), sequence)
        && repaired == Ok(!CountsAsContiguous(After(old(rows), sequence), sequence))
    {
      if sequence < 0 { return Err("server cursor must not be negative"); }
      assert Keyed(After(rows, sequence)) by { AfterIsSelection(rows, sequence); }
      rows := After(rows, sequence);
      acknowledged := sequence;
      var queued := |rows|;
      var oldest, latest := 0, 0;
      if queued > 0 {
        oldest, latest := rows[0].sequence, rows[queued - 1].sequence;
      }
      var expected := sequence + 1;
      var contiguous := queued == 0 || (oldest == expected && queued == latest - oldest + 1);
      assert contiguous == CountsAsContiguous(rows, sequence);
      if contiguous {
        nextSequence := if queued > 0 then latest + 1 else expected;
      } else {
        rows := [];
        nextSequence := expected;
        RecordDropped(queued);
      }
      repaired := Ok(!contiguous);
    }

    method NeedsReconciliation() returns (required: bool)
      ensures required == State().reconciliation
    {
      required := reconciliationRequired;
    }

    method MarkReconciliationQueued()
      requires Valid()
      modifies this
      ensures Valid() && State() == old(State()).(reconciliation := false)
    {
      reconciliationRequired := false;
    }
  }

  // ---------- facts about the table ----------

  /** The byte sum is the sum of the rows' sizes, however the table is divided. */
  lemma {:induction false} SumIsAdditive(a: seq<Row>, b: seq<Row>)
    ensures SumBytes(a + b) == SumBytes(a) + SumBytes(b)
    ensures forall row :: SumBytes([row]) == row.byteSize
    decreases |b|
  {
    forall row ensures SumBytes([row]) == row.byteSize { assert [row][..0] == []; }
    if b == [] {
      assert a + b == a;
    } else {
      SumIsAdditive(a, b[..|b| - 1]);
      assert (a + b)[..|a + b| - 1] == a + b[..|b| - 1];
    }
  }

  lemma {:induction false} InsertAddsRow(rows: seq<Row>, row: Row)
    ensures multiset(Insert(rows, row)) == multiset(rows) + multiset{row}
  {
    if rows != [] && rows[|rows| - 1].sequence >= row.sequence {
      var last := rows[|rows| - 1];
      assert rows == rows[..|rows| - 1] + [last];
      InsertAddsRow(rows[..|rows| - 1], row);
    }
  }

  lemma KeyedAppend(rows: seq<Row>, last: Row)
    requires Keyed(rows) && forall i :: 0 <= i < |rows| ==> rows[i].sequence < last.sequence
    ensures Keyed(rows + [last])
  {
  }

  lemma {:induction false} InsertKeepsKeys(rows: seq<Row>, row: Row)
    requires Keyed(rows) && !HasKey(rows, row.sequence)
    ensures Keyed(Insert(rows, row))
    ensures multiset(Insert(rows, row)) == multiset(rows) + multiset{row}
  {
    InsertAddsRow(rows, row);
    if rows == [] || rows[|rows| - 1].sequence < row.sequence {
      KeyedAppend(rows, row);
    } else {
      var front, last := rows[..|rows| - 1], rows[|rows| - 1];
      assert last.sequence != row.sequence;
      InsertKeepsKeys(front, row);
      forall i | 0 <= i < |Insert(front, row)| ensures Insert(front, row)[i].sequence < last.sequence {
        assert Insert(front, row)[i] in multiset(Insert(front, row));
      }
      KeyedAppend(Insert(front, row), last);
    }
  }

  /** After keeps exactly the rows above s, in order. */
  lemma {:induction false} AfterIsSelection(rows: seq<Row>, s: int)
    ensures forall r :: r in After(rows, s) <==> r in rows && r.sequence > s
    ensures Keyed(rows) ==> Keyed(After(rows, s))
    ensures |After(rows, s)| <= |rows|
  {
    if rows != [] {
      var rest := rows[1..];
      AfterIsSelection(rest, s);
      assert rows == [rows[0]] + rest;
      assert forall r :: r in rows <==> r == rows[0] || r in rest;
      if Keyed(rows) && rows[0].sequence > s {
        forall r | r in After(rest, s) ensures r.sequence > rows[0].sequence {
          assert r in rest;
        }
      }
    }
  }

  /** Nothing happens while no row is too old; one that is takes the whole queue with it. */
  lemma ExpireMeans(q: QueueState, limits: Limits, now: int)
    ensures (forall i :: 0 <= i < |q.rows| ==> q.rows[i].createdAt >= now - limits.maxAge) ==> Expire(q, limits, now) == q
    ensures (exists i :: 0 <= i < |q.rows| && q.rows[i].createdAt < now - limits.maxAge) ==>
      Expire(q, limits, now) == QueueState([], q.acknowledged + 1, q.acknowledged, q.dropped + |q.rows|, true)
  {
  }

  /** An item is rejected exactly when it breaks a byte limit; otherwise its row is added under the next sequence. */
  lemma EnqueueMeans(q: QueueState, limits: Limits, kind: Kind, payload: Payload, byteSize: nat, now: int)
    requires Keyed(q.rows)
    ensures var (r, outcome) := Enqueue(q, limits, kind, payload, byteSize, now);
      var kept := Expire(q, limits, now);
      && (outcome.Rejected? <==> SumBytes(kept.rows) + byteSize > limits.maxBytes || byteSize > limits.maxBytes)
      && (outcome.Rejected? ==> r.rows == kept.rows && r.dropped == kept.dropped + 1 && r.reconciliation)
      && (outcome.Accepted? ==>
            && outcome.sequence == kept.nextSequence && r.nextSequence == kept.nextSequence + 1
            && multiset(r.rows) == multiset(kept.rows) + multiset{Row(outcome.sequence, kind, payload, byteSize, now, 0, None)}
            && r.dropped == kept.dropped && r.reconciliation == kept.reconciliation)
  {
    var e := Expire(q, limits, now);
    if !HasKey(e.rows, e.nextSequence) {
      InsertKeepsKeys(e.rows, NewRow(e.nextSequence, kind, payload, byteSize, now));
    }
  }

  function Clamp(n: int, high: nat): nat {
    if n < 0 then 0 else if n > high then high else n
  }

  lemma {:induction false} AfterOfConsecutive(rows: seq<Row>, first: int, s: int)
    requires Consecutive(rows, first)
    ensures After(rows, s) == rows[Clamp(s + 1 - first, |rows|)..]
  {
    if rows != [] {
      AfterOfConsecutive(rows[1..], first + 1, s);
      assert rows == [rows[0]] + rows[1..];
      if rows[0].sequence > s {
        assert rows[1..][0..] == rows[1..];
      }
    }
  }

  lemma {:induction false} KeysAreSpaced(rows: seq<Row>, i: nat, j: nat)
    requires Keyed(rows) && i <= j < |rows|
    ensures rows[j].sequence - rows[i].sequence >= j - i
    decreases j - i
  {
    if i < j { KeysAreSpaced(rows, i, j - 1); }
  }

  /** Pigeonhole: the COUNT/MIN/MAX test passes exactly when nothing is missing above the cursor. */
  lemma CountTestIsContiguity(tail: seq<Row>, s: int)
    requires Keyed(tail)
    ensures CountsAsContiguous(tail, s) <==> Consecutive(tail, s + 1)
  {
    if CountsAsContiguous(tail, s) && tail != [] {
      forall i | 0 <= i < |tail| ensures tail[i].sequence == s + 1 + i {
        KeysAreSpaced(tail, 0, i);
        KeysAreSpaced(tail, i, |tail| - 1);
      }
    }
  }

  // ---------- what each operation keeps ----------

  /**
   Resynchronisation is self-stabilising: from any table and any counters it ends consistent with the
   server cursor, keeping the whole tail when the tail starts right above the cursor without a hole, and
   otherwise emptying the queue and counting every discarded row.
   */
  lemma SynchronizeStabilises(q: QueueState, s: int)
    requires Keyed(q.rows) && s >= 0
    ensures Consistent(Synchronize(q, s)) && Synchronize(q, s).acknowledged == s
    ensures Consecutive(After(q.rows, s), s + 1) ==>
      Synchronize(q, s) == q.(rows := After(q.rows, s), acknowledged := s, nextSequence := s + 1 + |After(q.rows, s)|)
    ensures !Consecutive(After(q.rows, s), s + 1) ==>
      Synchronize(q, s) == QueueState([], s + 1, s, q.dropped + |After(q.rows, s)|, true)
  {
    AfterIsSelection(q.rows, s);
    CountTestIsContiguity(After(q.rows, s), s);
  }

  /** On a consistent queue, the discard branch is taken exactly when the cursor is behind the last ACK and rows remain. */
  lemma SynchronizeDiscardsIff(q: QueueState, s: int)
    requires Consistent(q) && s >= 0
    ensures !CountsAsContiguous(After(q.rows, s), s) <==> s < q.acknowledged && q.rows != []
    ensures s >= q.acknowledged ==> Synchronize(q, s).dropped == q.dropped
  {
    AfterOfConsecutive(q.rows, q.acknowledged + 1, s);
  }

  lemma EnqueueKeepsConsistent(q: QueueState, limits: Limits, kind: Kind, payload: Payload, byteSize: nat, now: int)
    requires Consistent(q)
    ensures Consistent(Expire(q, limits, now))
    ensures Consistent(Enqueue(q, limits, kind, payload, byteSize, now).0)
    ensures !Enqueue(q, limits, kind, payload, byteSize, now).1.Conflict?
    ensures Fits(Expire(q, limits, now), limits, byteSize) ==>
      Enqueue(q, limits, kind, payload, byteSize, now).0.rows
      == Expire(q, limits, now).rows + [NewRow(Expire(q, limits, now).nextSequence, kind, payload, byteSize, now)]
  {
  }

  lemma AcknowledgeKeepsConsistent(q: QueueState, s: int)
    requires Consistent(q)
    ensures Consistent(Acknowledge(q, s))
    ensures Acknowledge(q, s).rows == q.rows[Clamp(s - q.acknowledged, |q.rows|)..]
  {
    AfterOfConsecutive(q.rows, q.acknowledged + 1, s);
  }
}
