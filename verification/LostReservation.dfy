/** A concrete run in which a row is marked uploaded and expires while its execution is still running. */
module LostReservation {
  import opened Wrappers
  import opened RuleConditions
  import opened RuleStore
  import opened RuleRuntime
  import opened RuleLedger

  /** A rule without a condition always hits. */
  function Begin(key: string, now: int): Op { Start(key, map[], Null, now, now) }

  /** A whole execution. */
  function WholeRun(key: string, now: int): seq<Op> { [Begin(key, now), Dispatch, Finish(now + 1, now + 1)] }

  /** The evidence of k is read for upload, and two more executions push its row out of the full ledger. */
  function Before(k: string, l: string, j: string): seq<Op> {
    WholeRun(k, 1) + [Read({k})] + WholeRun(l, 3) + WholeRun(j, 5)
  }

  /**
   Then a duplicate event reserves k again, and the upload is answered and marks the new row. While the
   execution is still running, the next upload prunes more than the retention later.
   */
  function Ops(k: string, l: string, j: string): seq<Op> {
    Before(k, l, j) + [Begin(k, 7)] + [Mark({k}, 8, 8)] + [Read({j})] + [Mark({j}, 20, 20)] + [Dispatch] + [Finish(21, 21)]
  }

  const LIMITS := Limits(2, 10)

  const K := Execution(true, Pending, 1, 2)
  const L := Execution(true, Pending, 3, 4)
  const J := Execution(true, Pending, 5, 6)
  const AGAIN := Execution(false, Held, 7, 7)
  const MARKED := Execution(false, Uploaded, 7, 8)

  // ---------- pruning small ledgers ----------

  predicate NothingExpired(rows: Ledger, cutoff: int) {
    forall k :: k in rows ==> !(rows[k].upload == Uploaded && rows[k].updatedAt < cutoff)
  }

  lemma PruneKeepsAll(rows: Ledger, cutoff: int, maxRows: int)
    requires NothingExpired(rows, cutoff) && |rows| <= maxRows
    ensures PrunedTo(rows, rows, cutoff, maxRows)
  {
    assert Unexpired(rows, cutoff) == rows;
  }

  lemma PruneEvicts(rows: Ledger, key: string, cutoff: int, maxRows: int)
    requires NothingExpired(rows, cutoff) && key in rows && |rows| == maxRows + 1 >= 1
    requires forall k :: k in rows ==> RankedAtMost(rows[key], rows[k])
    ensures PrunedTo(rows, rows - {key}, cutoff, maxRows)
  {
    assert Unexpired(rows, cutoff) == rows;
    assert rows.Keys == (rows - {key}).Keys + {key};
  }

  lemma TwoRows(a: string, x: Execution, b: string, y: Execution)
    requires a != b
    ensures |map[a := x, b := y]| == 2
  {
    assert map[a := x, b := y].Keys == {a, b};
  }

  lemma ThreeRows(a: string, x: Execution, b: string, y: Execution, c: string, z: Execution)
    requires a != b && b != c && a != c
    ensures |map[a := x, b := y, c := z]| == 3
    ensures map[a := x, b := y, c := z] - {a} == map[b := y, c := z]
  {
    assert map[a := x, b := y, c := z].Keys == {a, b, c};
  }

  // ---------- the steps ----------

  lemma AlwaysHits()
    ensures Evaluate(map[], Null) == Hit
  {
  }

  lemma Starts(m: Machine, key: string, now: int, left: Ledger) returns (n: Machine)
    requires m.phase == Idle && key !in m.rows && Newer(m.rows, now)
    requires PrunedTo(Reserve(m.rows, key, now), left, now - LIMITS.retention, LIMITS.maxRows)
    ensures Next(LIMITS, m, Begin(key, now), n)
    ensures n.rows == left && n.phase == Reserved(key, true) && n.reading == m.reading && n.marked == None
  {
    AlwaysHits();
    var logged := m.log + [Inserted(key, map[], Null), Gone(Reserve(m.rows, key, now), left)];
    n := Machine(left, Reserved(key, true), m.reading, None, logged);
  }

  lemma Dispatches(m: Machine) returns (n: Machine)
    requires m.phase.Reserved? && m.phase.hit
    ensures Next(LIMITS, m, Dispatch, n)
    ensures n.rows == m.rows && n.phase == Dispatched(m.phase.key) && n.reading == m.reading && n.marked == m.marked
  {
    n := m.(phase := Dispatched(m.phase.key), log := m.log + [ActionsSent(m.phase.key)]);
  }

  /** Finalizing evicts nothing while the ledger is within its maximum and nothing has expired. */
  lemma Finishes(m: Machine, now: int) returns (n: Machine)
    requires m.phase.Dispatched? && m.phase.key in m.rows
    requires NothingExpired(m.rows, now - LIMITS.retention) && |m.rows| <= LIMITS.maxRows
    ensures Next(LIMITS, m, Finish(now, now), n)
    ensures n.rows == Finalize(m.rows, m.phase.key, now) && n.phase == Idle && n.reading == m.reading
  {
    var done := Finalize(m.rows, m.phase.key, now);
    assert done.Keys == m.rows.Keys && |done.Keys| == |m.rows.Keys|;
    PruneKeepsAll(done, now - LIMITS.retention, LIMITS.maxRows);
    n := Machine(done, Idle, m.reading, m.marked, m.log + [Gone(done, done)]);
  }

  lemma Reads(m: Machine, keys: set<string>) returns (n: Machine)
    requires forall k :: k in keys ==> IsPending(m.rows, k)
    ensures Next(LIMITS, m, Read(keys), n) && n == m.(reading := keys)
  {
    n := m.(reading := keys);
  }

  /** Marking all the evidence that was read expires what the retention has passed. */
  lemma MarksAll(m: Machine, now: int) returns (n: Machine)
    requires m.reading != {} && |m.rows| <= LIMITS.maxRows
    ensures Next(LIMITS, m, Mark(m.reading, now, now), n)
    ensures n.rows == Unexpired(MarkUploaded(m.rows, m.reading, now), now - LIMITS.retention)
    ensures n.phase == m.phase && n.reading == {} && n.marked == MarkedAfter(m, Mark(m.reading, now, now))
  {
    var marked := MarkUploaded(m.rows, m.reading, now);
    var left := Unexpired(marked, now - LIMITS.retention);
    assert marked.Keys == m.rows.Keys && |marked.Keys| == |m.rows.Keys|;
    SublistSize(left, marked);
    n := Machine(left, m.phase, {}, MarkedAfter(m, Mark(m.reading, now, now)), m.log + [Gone(marked, left)]);
  }

  lemma OneMoreOp(states: seq<Machine>, ops: seq<Op>, op: Op, n: Machine) returns (more: seq<Machine>)
    requires IsRun(LIMITS, states, ops) && Next(LIMITS, states[|ops|], op, n)
    ensures more == states + [n] && IsRun(LIMITS, more, ops + [op]) && more[|ops| + 1] == n
  {
    more := states + [n];
  }

  /** A whole execution: reserved and dispatched at `now`, finalized one later without evicting anything. */
  lemma Executes(states: seq<Machine>, ops: seq<Op>, key: string, now: int, left: Ledger) returns (more: seq<Machine>)
    requires IsRun(LIMITS, states, ops) && states[|ops|].phase == Idle
    requires key !in states[|ops|].rows && Newer(states[|ops|].rows, now)
    requires PrunedTo(Reserve(states[|ops|].rows, key, now), left, now - LIMITS.retention, LIMITS.maxRows)
    requires key in left && |left| <= LIMITS.maxRows && NothingExpired(left, now + 1 - LIMITS.retention)
    ensures IsRun(LIMITS, more, ops + WholeRun(key, now)) && |more| == |states| + 3
    ensures var n := more[|states| + 2];
      n.phase == Idle && n.rows == Finalize(left, key, now + 1) && n.reading == states[|ops|].reading
  {
    var a := Starts(states[|ops|], key, now, left);
    more := OneMoreOp(states, ops, Begin(key, now), a);
    var b := Dispatches(a);
    more := OneMoreOp(more, ops + [Begin(key, now)], Dispatch, b);
    var c := Finishes(b, now + 1);
    more := OneMoreOp(more, ops + [Begin(key, now)] + [Dispatch], Finish(now + 1, now + 1), c);
    assert ops + [Begin(key, now)] + [Dispatch] + [Finish(now + 1, now + 1)] == ops + WholeRun(key, now);
  }

  /** The first execution, and the upload that reads it. */
  lemma FirstExecution(k: string) returns (states: seq<Machine>)
    ensures IsRun(LIMITS, states, WholeRun(k, 1) + [Read({k})])
    ensures states[4].rows == map[k := K] && states[4].phase == Idle && states[4].reading == {k}
  {
    var m := Machine(map[], Idle, {}, None, []);
    var reserved := map[k := Execution(false, Held, 1, 1)];
    assert Reserve(m.rows, k, 1) == reserved;
    PruneKeepsAll(reserved, 1 - LIMITS.retention, LIMITS.maxRows);
    states := Executes([m], [], k, 1, reserved);
    assert [] + WholeRun(k, 1) == WholeRun(k, 1);
    var n := Reads(states[3], {k});
    states := OneMoreOp(states, WholeRun(k, 1), Read({k}), n);
  }

  /** The second execution fills the ledger. */
  lemma SecondExecution(k: string, l: string) returns (states: seq<Machine>)
    requires k != l
    ensures IsRun(LIMITS, states, WholeRun(k, 1) + [Read({k})] + WholeRun(l, 3))
    ensures states[7].rows == map[k := K, l := L] && states[7].phase == Idle && states[7].reading == {k}
  {
    states := FirstExecution(k);
    var held := Execution(false, Held, 3, 3);
    TwoRows(k, K, l, held);
    PruneKeepsAll(map[k := K, l := held], 3 - LIMITS.retention, LIMITS.maxRows);
    assert Reserve(states[4].rows, l, 3) == map[k := K, l := held];
    states := Executes(states, WholeRun(k, 1) + [Read({k})], l, 3, map[k := K, l := held]);
  }

  /** Reserving a third key evicts the oldest of two complete rows. */
  lemma ThirdEvictsOldest(a: string, x: Execution, b: string, y: Execution, c: string, now: int)
    requires a != b && b != c && a != c
    requires x.upload == Pending && y.upload == Pending && x.createdAt < y.createdAt < now
    ensures var held := Execution(false, Held, now, now);
      && PrunedTo(Reserve(map[a := x, b := y], c, now), map[b := y, c := held], now - LIMITS.retention, LIMITS.maxRows)
      && |map[b := y, c := held]| == 2
  {
    var held := Execution(false, Held, now, now);
    ThreeRows(a, x, b, y, c, held);
    TwoRows(b, y, c, held);
    PruneEvicts(map[a := x, b := y, c := held], a, now - LIMITS.retention, LIMITS.maxRows);
    assert Reserve(map[a := x, b := y], c, now) == map[a := x, b := y, c := held];
  }

  /** The third pushes k out. */
  lemma ThirdExecution(k: string, l: string, j: string) returns (states: seq<Machine>)
    requires k != l && l != j && k != j
    ensures IsRun(LIMITS, states, Before(k, l, j))
    ensures states[10].rows == map[l := L, j := J] && states[10].phase == Idle && states[10].reading == {k}
  {
    states := SecondExecution(k, l);
    ThirdEvictsOldest(k, K, l, L, j, 5);
    states := Executes(states, WholeRun(k, 1) + [Read({k})] + WholeRun(l, 3), j, 5, map[l := L, j := Execution(false, Held, 5, 5)]);
  }

  /** k is reserved again, which pushes l out, and the first upload marks its new row. */
  lemma MarkedWhileRunning(k: string, l: string, j: string) returns (states: seq<Machine>)
    requires k != l && l != j && k != j
    ensures IsRun(LIMITS, states, Before(k, l, j) + [Begin(k, 7)] + [Mark({k}, 8, 8)])
    ensures states[12].rows == map[j := J, k := MARKED] && states[12].phase == Reserved(k, true) && states[12].marked == Some(8)
  {
    states := ThirdExecution(k, l, j);
    ThirdEvictsOldest(l, L, j, J, k, 7);
    var a := Starts(states[10], k, 7, map[j := J, k := AGAIN]);
    states := OneMoreOp(states, Before(k, l, j), Begin(k, 7), a);
    var b := MarksAll(a, 8);
    assert b.rows == map[j := J, k := MARKED];
    states := OneMoreOp(states, Before(k, l, j) + [Begin(k, 7)], Mark({k}, 8, 8), b);
  }

  lemma MissesIt(m: Machine, now: int) returns (n: Machine)
    requires m.phase.Dispatched? && m.phase.key !in m.rows
    ensures Next(LIMITS, m, Finish(now, now), n) && n.log == m.log + [Missing(m.phase.key)]
  {
    n := m.(phase := Idle, log := m.log + [Missing(m.phase.key)]);
  }

  /** Finalizing the second execution of k finds its reservation missing: the mark at 20 came too late. */
  lemma ReservationGoesMissing(k: string, l: string, j: string) returns (states: seq<Machine>)
    requires k != l && l != j && k != j
    ensures IsRun(LIMITS, states, Ops(k, l, j)) && Late(LIMITS, states[13], Ops(k, l, j)[13])
    ensures Missing(k) in states[16].log
  {
    states := MarkedWhileRunning(k, l, j);
    TwoRows(j, J, k, MARKED);
    var ops := Before(k, l, j) + [Begin(k, 7)] + [Mark({k}, 8, 8)];
    var a := Reads(states[12], {j});
    states := OneMoreOp(states, ops, Read({j}), a);
    var b := MarksAll(a, 20);
    states := OneMoreOp(states, ops + [Read({j})], Mark({j}, 20, 20), b);
    var c := Dispatches(b);
    states := OneMoreOp(states, ops + [Read({j})] + [Mark({j}, 20, 20)], Dispatch, c);
    var d := MissesIt(c, 21);
    states := OneMoreOp(states, ops + [Read({j})] + [Mark({j}, 20, 20)] + [Dispatch], Finish(21, 21), d);
  }
}
