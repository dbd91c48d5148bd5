/**
 Runs of the queue alone, under fixed limits: consistency, conservation of items and the byte bound
 hold after any sequence of queue operations.
 */
module QueueHistory {
  import opened UplinkQueue

  datatype QueueOp =
    | Push(kind: Kind, payload: Payload, byteSize: nat, now: int)
    | Look(now: int)                       // peek_all and summary: expire, then read
    | Attempt(sequences: seq<int>, now: int)
    | Uncertain(now: int)
    | Ack(sequence: int)
    | Sync(sequence: int)
    | Reconciled
    | Restart

  /** The queue, with the number of enqueue calls that returned and of rows removed by ACK or cursor sync. */
  datatype Counted = Counted(q: QueueState, returned: nat, removed: nat)

  function Below(rows: seq<Row>, s: int): (n: nat) {
    AfterIsSelection(rows, s);
    |rows| - |After(rows, s)|
  }

  function Step(limits: Limits, c: Counted, op: QueueOp): Counted {
    match op
    case Push(kind, payload, byteSize, now) =>
      var (q, outcome) := Enqueue(c.q, limits, kind, payload, byteSize, now);
      Counted(q, if outcome.Conflict? then c.returned else c.returned + 1, c.removed)
    case Look(now) => c.(q := Expire(c.q, limits, now))
    case Attempt(sequences, now) => c.(q := MarkAttempted(c.q, sequences, now))
    case Uncertain(now) => c.(q := MarkUncertain(c.q, now))
    case Ack(s) => c.(q := Acknowledge(c.q, s), removed := c.removed + Below(c.q.rows, s))
    case Sync(s) => if s < 0 then c else c.(q := Synchronize(c.q, s), removed := c.removed + Below(c.q.rows, s))
    case Reconciled => c.(q := c.q.(reconciliation := false))
    case Restart => c.(q := Reopen(c.q))
  }

  function Run(limits: Limits, c: Counted, ops: seq<QueueOp>): Counted
    decreases |ops|
  {
    if ops == [] then c else Run(limits, Step(limits, c, ops[0]), ops[1..])
  }

  /** Every item handed to the queue is still there, was removed by Core's cursor, or was counted as dropped. */
  predicate Conserved(c: Counted) { c.returned == |c.q.rows| + c.removed + c.q.dropped }

  predicate Sound(limits: Limits, c: Counted) {
    Consistent(c.q) && Conserved(c) && SumBytes(c.q.rows) <= limits.maxBytes
  }

  lemma {:induction false} SuffixSum(rows: seq<Row>, k: nat)
    requires k <= |rows|
    ensures SumBytes(rows[k..]) <= SumBytes(rows)
  {
    if k < |rows| {
      SuffixSum(rows[..|rows| - 1], k);
      assert rows[k..][..|rows| - k - 1] == rows[..|rows| - 1][k..];
    }
  }

  lemma {:induction false} SameSizesSameSum(a: seq<Row>, b: seq<Row>)
    requires |a| == |b| && forall i :: 0 <= i < |a| ==> a[i].byteSize == b[i].byteSize
    ensures SumBytes(a) == SumBytes(b)
  {
    if a != [] { SameSizesSameSum(a[..|a| - 1], b[..|b| - 1]); }
  }

  lemma PushKeepsSound(limits: Limits, c: Counted, op: QueueOp)
    requires op.Push? && Sound(limits, c) && limits.maxBytes >= 0
    ensures Sound(limits, Step(limits, c, op))
  {
    EnqueueKeepsConsistent(c.q, limits, op.kind, op.payload, op.byteSize, op.now);
    var e := Expire(c.q, limits, op.now);
    if Fits(e, limits, op.byteSize) {
      var row := NewRow(e.nextSequence, op.kind, op.payload, op.byteSize, op.now);
      assert (e.rows + [row])[..|e.rows|] == e.rows;
    }
  }

  lemma AckKeepsSound(limits: Limits, c: Counted, s: int)
    requires Sound(limits, c)
    ensures Sound(limits, Step(limits, c, Ack(s)))
  {
    AcknowledgeKeepsConsistent(c.q, s);
    SuffixSum(c.q.rows, Clamp(s - c.q.acknowledged, |c.q.rows|));
  }

  lemma SyncKeepsSound(limits: Limits, c: Counted, s: int)
    requires Sound(limits, c) && limits.maxBytes >= 0
    ensures Sound(limits, Step(limits, c, Sync(s)))
  {
    if s >= 0 {
      var r := Synchronize(c.q, s);
      assert Consistent(r) by { SynchronizeStabilises(c.q, s); }
      assert SumBytes(After(c.q.rows, s)) <= SumBytes(c.q.rows) by {
        AfterOfConsecutive(c.q.rows, c.q.acknowledged + 1, s);
        SuffixSum(c.q.rows, Clamp(s - c.q.acknowledged, |c.q.rows|));
      }
    }
  }

  lemma StepKeepsSound(limits: Limits, c: Counted, op: QueueOp)
    requires Sound(limits, c) && limits.maxBytes >= 0
    ensures Sound(limits, Step(limits, c, op))
  {
    match op
    case Push(_, _, _, _) => PushKeepsSound(limits, c, op);
    case Ack(s) => AckKeepsSound(limits, c, s);
    case Sync(s) => SyncKeepsSound(limits, c, s);
    case Attempt(sequences, now) => SameSizesSameSum(c.q.rows, MarkAttempted(c.q, sequences, now).rows);
    case Uncertain(now) => SameSizesSameSum(c.q.rows, MarkUncertain(c.q, now).rows);
    case Restart => SameSizesSameSum(c.q.rows, Reopen(c.q).rows);
    case _ =>
  }

  /** Conservation and the byte bound, over every run from a new database. */
  lemma {:induction false} EveryRunIsSound(limits: Limits, ops: seq<QueueOp>)
    requires limits.maxBytes >= 0
    ensures var c := Run(limits, Counted(FRESH, 0, 0), ops);
      && c.returned == |c.q.rows| + c.removed + c.q.dropped
      && SumBytes(c.q.rows) <= limits.maxBytes
      && Consistent(c.q)
  {
    RunKeepsSound(limits, Counted(FRESH, 0, 0), ops);
  }

  lemma {:induction false} RunKeepsSound(limits: Limits, c: Counted, ops: seq<QueueOp>)
    requires limits.maxBytes >= 0 && Sound(limits, c)
    ensures Sound(limits, Run(limits, c, ops))
    decreases |ops|
  {
    if ops != [] {
      StepKeepsSound(limits, c, ops[0]);
      RunKeepsSound(limits, Step(limits, c, ops[0]), ops[1..]);
    }
  }
}
