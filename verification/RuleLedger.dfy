/**
 Runs of the execution ledger: the single event thread evaluates, reserves, dispatches and finalizes (and may
 crash in between), while the rule thread reads pending evidence, uploads it, and later marks it uploaded.
 Timestamps of reservations strictly increase. Every operation carries the clock reading of its write and the
 one of its prune.
 */
module RuleLedger {
  import opened Wrappers
  import opened RuleConditions
  import opened RuleStore
  import opened RuleRuntime

  // ---------- what pruning keeps ----------

  /** Capacity never evicts evidence that still has to be uploaded while keeping some that has been. */
  lemma UploadedGoFirst(rows: Ledger, left: Ledger, cutoff: int, maxRows: int, evicted: string, kept: string)
    requires PrunedTo(rows, left, cutoff, maxRows)
    requires evicted in rows && evicted !in left && rows[evicted].upload != Uploaded && kept in left
    ensures left[kept].upload != Uploaded && rows[evicted].createdAt <= left[kept].createdAt
    ensures |left| == maxRows
  {
    var live := Unexpired(rows, cutoff);
    assert evicted in live && RankedAtMost(live[evicted], live[kept]);
    SublistSize(left, live);
  }

  // ---------- the machine ----------

  datatype Phase = Idle | Reserved(key: string, hit: bool) | Dispatched(key: string)

  datatype LogEvent =
    | Inserted(key: string, condition: map<string, Json>, context: Json)
    | ActionsSent(key: string)
    | Evicted(keys: set<string>)
    | Missing(key: string)          // LOCAL_RULE_EXECUTION_RESERVATION_MISSING

  /** The rule thread holds the evidence it read; `marked` is when the running execution's row was last marked. */
  datatype Machine = Machine(rows: Ledger, phase: Phase, reading: set<string>, marked: Option<int>, log: seq<LogEvent>)

  datatype Limits = Limits(maxRows: int, retention: int)

  datatype Op =
    | Start(key: string, condition: map<string, Json>, context: Json, now: int, pruneNow: int)
    | Dispatch
    | Finish(now: int, pruneNow: int)
    | Crash
    | Read(keys: set<string>)                             // some of the pending evidence, to be uploaded
    | Mark(accepted: set<string>, now: int, pruneNow: int) // what Core accepted of it

  predicate IsPending(rows: Ledger, key: string) { key in rows && rows[key].complete && rows[key].upload == Pending }

  function Gone(before: Ledger, after: Ledger): LogEvent { Evicted(before.Keys - after.Keys) }

  /** Core accepted some of the evidence that was read. */
  predicate Marks(m: Machine, op: Op) { op.Mark? && op.accepted != {} && op.accepted <= m.reading }

  ghost predicate Next(l: Limits, m: Machine, op: Op, n: Machine) {
    match op
    case Start(key, condition, context, now, pruneNow) =>
      if m.phase != Idle || key in m.rows then n == m
      else
        var inserted := Reserve(m.rows, key, now);
        && Newer(m.rows, now)
        && PrunedTo(inserted, n.rows, pruneNow - l.retention, l.maxRows)
        && n.phase == Reserved(key, Evaluate(condition, context) == Hit)
        && n.reading == m.reading && n.marked == None
        && n.log == m.log + [Inserted(key, condition, context), Gone(inserted, n.rows)]
    case Dispatch =>
      if m.phase.Reserved? && m.phase.hit then
        n == m.(phase := Dispatched(m.phase.key), log := m.log + [ActionsSent(m.phase.key)])
      else n == m
    case Finish(now, pruneNow) =>
      if m.phase == Idle || (m.phase.Reserved? && m.phase.hit) then n == m
      else if m.phase.key !in m.rows then n == m.(phase := Idle, log := m.log + [Missing(m.phase.key)])
      else
        var done := Finalize(m.rows, m.phase.key, now);
        && PrunedTo(done, n.rows, pruneNow - l.retention, l.maxRows)
        && n.phase == Idle && n.reading == m.reading && n.marked == m.marked
        && n.log == m.log + [Gone(done, n.rows)]
    case Crash => n == m.(phase := Idle, reading := {})
    case Read(keys) =>
      if forall k :: k in keys ==> IsPending(m.rows, k) then n == m.(reading := keys) else n == m
    case Mark(accepted, now, pruneNow) =>
      if !Marks(m, op) then n == m
      else
        var marked := MarkUploaded(m.rows, accepted, now);
        && PrunedTo(marked, n.rows, pruneNow - l.retention, l.maxRows)
        && n.phase == m.phase && n.reading == {}
        && n.marked == MarkedAfter(m, op)
        && n.log == m.log + [Gone(marked, n.rows)]
  }

  /** When the running execution's row was last marked, once `op` has marked what Core accepted. */
  function MarkedAfter(m: Machine, op: Op): Option<int>
    requires op.Mark?
  {
    if m.phase != Idle && m.phase.key in op.accepted then Some(op.now) else m.marked
  }

  /** A run from an empty ledger. */
  ghost predicate IsRun(l: Limits, states: seq<Machine>, ops: seq<Op>) {
    && |states| == |ops| + 1
    && states[0] == Machine(map[], Idle, {}, None, [])
    && forall i :: 0 <= i < |ops| ==> Next(l, states[i], ops[i], states[i + 1])
  }

  // ---------- the reservation survives ----------

  /**
   Evidence read earlier may be marked after capacity evicted its row and a duplicate event reserved the key
   again, so a row that is still being executed can be marked uploaded, and then expire. A mark is late if its
   prune falls more than the retention after the running execution's row was last marked.
   */
  predicate Late(l: Limits, m: Machine, op: Op) {
    Marks(m, op) && m.phase != Idle && MarkedAfter(m, op).Some? && MarkedAfter(m, op).value < op.pruneNow - l.retention
  }

  predicate OnTime(l: Limits, states: seq<Machine>, ops: seq<Op>) {
    forall i :: 0 <= i < |ops| && i < |states| ==> !Late(l, states[i], ops[i])
  }

  /** The row of the running execution: held, or marked while it is held. */
  predicate Running(e: Execution, marked: Option<int>) {
    !e.complete && e.upload == (if marked.Some? then Uploaded else Held) && (marked.Some? ==> e.updatedAt == marked.value)
  }

  ghost predicate Protected(l: Limits, m: Machine) {
    && |m.rows| <= l.maxRows
    && (m.phase != Idle ==> m.phase.key in m.rows && Running(m.rows[m.phase.key], m.marked))
    && forall i :: 0 <= i < |m.log| ==> !m.log[i].Missing?
  }

  lemma StartKeepsProtected(l: Limits, m: Machine, op: Op, n: Machine)
    requires l.maxRows >= 1 && Protected(l, m) && op.Start? && Next(l, m, op, n)
    ensures Protected(l, n)
  {
    if m.phase == Idle && op.key !in m.rows {
      ReservationStays(m.rows, n.rows, op.key, op.now, op.pruneNow - l.retention, l.maxRows);
    }
  }

  lemma FinishKeepsProtected(l: Limits, m: Machine, op: Op, n: Machine)
    requires l.maxRows >= 1 && Protected(l, m) && op.Finish? && Next(l, m, op, n)
    ensures Protected(l, n)
  {
    if m.phase.Dispatched? || (m.phase.Reserved? && !m.phase.hit) {
      var done := Finalize(m.rows, m.phase.key, op.now);
      PruneBounds(done, n.rows, op.pruneNow - l.retention, l.maxRows);
    }
  }

  /** Marking adds no row, so its prune only expires rows. */
  lemma MarkOnlyExpires(l: Limits, m: Machine, op: Op, n: Machine)
    requires Marks(m, op) && Next(l, m, op, n) && |m.rows| <= l.maxRows
    ensures n.rows == Unexpired(MarkUploaded(m.rows, op.accepted, op.now), op.pruneNow - l.retention)
    ensures |n.rows| <= l.maxRows
  {
    var marked := MarkUploaded(m.rows, op.accepted, op.now);
    assert marked.Keys == m.rows.Keys;
    assert |marked.Keys| == |m.rows.Keys|;
    PruneBounds(marked, n.rows, op.pruneNow - l.retention, l.maxRows);
  }

  /** The condition is exact: a mark leaves the running execution its row if and only if it is not late. */
  lemma ReservationLostIffLate(l: Limits, m: Machine, op: Op, n: Machine)
    requires Protected(l, m) && op.Mark? && Next(l, m, op, n) && m.phase != Idle
    ensures m.phase.key !in n.rows <==> Late(l, m, op)
  {
    if Marks(m, op) { MarkOnlyExpires(l, m, op, n); }
  }

  lemma MarkKeepsProtected(l: Limits, m: Machine, op: Op, n: Machine)
    requires Protected(l, m) && op.Mark? && Next(l, m, op, n) && !Late(l, m, op)
    ensures Protected(l, n)
  {
    if Marks(m, op) {
      MarkOnlyExpires(l, m, op, n);
      if m.phase != Idle { ReservationLostIffLate(l, m, op, n); }
    }
  }

  lemma {:induction false} RunIsProtected(l: Limits, states: seq<Machine>, ops: seq<Op>, i: nat)
    requires l.maxRows >= 1 && IsRun(l, states, ops) && OnTime(l, states, ops) && i <= |ops|
    ensures Protected(l, states[i])
  {
    if i > 0 {
      RunIsProtected(l, states, ops, i - 1);
      var m, op, n := states[i - 1], ops[i - 1], states[i];
      assert Next(l, m, op, n) && !Late(l, m, op);
      match op
      case Start(_, _, _, _, _) => StartKeepsProtected(l, m, op, n);
      case Finish(_, _) => FinishKeepsProtected(l, m, op, n);
      case Mark(_, _, _) => MarkKeepsProtected(l, m, op, n);
      case _ =>
    }
  }

  /**
   In every run without a late mark the reserved row is there from reserve to finalize, so finalizing never
   misses it; and the ledger never exceeds its maximum.
   */
  lemma ReservationNeverMissing(l: Limits, states: seq<Machine>, ops: seq<Op>)
    requires l.maxRows >= 1 && IsRun(l, states, ops) && OnTime(l, states, ops)
    ensures var m := states[|ops|];
      && |m.rows| <= l.maxRows
      && (m.phase != Idle ==> m.phase.key in m.rows)
      && (forall i :: 0 <= i < |m.log| ==> !m.log[i].Missing?)
  {
    RunIsProtected(l, states, ops, |ops|);
  }

  /** The first late mark of a run makes the execution it interrupts fail when it is finalized. */
  lemma LateMarkIsMissed(l: Limits, states: seq<Machine>, ops: seq<Op>, late: Op, n: Machine, finish: Op, end: Machine)
    requires l.maxRows >= 1 && IsRun(l, states, ops) && OnTime(l, states, ops)
    requires Late(l, states[|ops|], late) && Next(l, states[|ops|], late, n)
    requires finish.Finish? && Next(l, n, finish, end) && (n.phase.Reserved? ==> !n.phase.hit)
    ensures end.log[|end.log| - 1] == Missing(n.phase.key) && end.phase == Idle
  {
    RunIsProtected(l, states, ops, |ops|);
    ReservationLostIffLate(l, states[|ops|], late, n);
  }

  /** An execution that is over within the retention is never hit by a late mark. */
  lemma SwiftExecutionsAreOnTime(l: Limits, m: Machine, op: Op, reservedAt: int)
    requires op.Mark? && reservedAt <= op.now && (m.marked.Some? ==> reservedAt <= m.marked.value)
    requires op.pruneNow <= reservedAt + l.retention
    ensures !Late(l, m, op)
  {
  }

  // ---------- at most once ----------

  function CountSent(log: seq<LogEvent>, key: string): nat {
    if log == [] then 0
    else CountSent(log[..|log| - 1], key) + if log[|log| - 1] == ActionsSent(key) then 1 else 0
  }

  function CountInserted(log: seq<LogEvent>, key: string): nat {
    if log == [] then 0
    else
      var e := log[|log| - 1];
      CountInserted(log[..|log| - 1], key) + if e.Inserted? && e.key == key then 1 else 0
  }

  function CountEvicted(log: seq<LogEvent>, key: string): nat {
    if log == [] then 0
    else
      var e := log[|log| - 1];
      CountEvicted(log[..|log| - 1], key) + if e.Evicted? && key in e.keys then 1 else 0
  }

  lemma CountsAppend(log: seq<LogEvent>, e: LogEvent, key: string)
    ensures CountSent(log + [e], key) == CountSent(log, key) + if e == ActionsSent(key) then 1 else 0
    ensures CountInserted(log + [e], key) == CountInserted(log, key) + if e.Inserted? && e.key == key then 1 else 0
    ensures CountEvicted(log + [e], key) == CountEvicted(log, key) + if e.Evicted? && key in e.keys then 1 else 0
  {
    assert (log + [e])[..|log|] == log;
  }

  /** Each dispatch uses up one insertion, and a key is inserted again only after its row was evicted. */
  ghost predicate Counted(m: Machine, key: string) {
    && CountSent(m.log, key) + (if m.phase.Reserved? && m.phase.key == key then 1 else 0) <= CountInserted(m.log, key)
    && CountInserted(m.log, key) == CountEvicted(m.log, key) + (if key in m.rows then 1 else 0)
  }

  /** A prune that logs what it evicted. */
  lemma PruneKeepsCounted(rows: Ledger, left: Ledger, cutoff: int, maxRows: int, log: seq<LogEvent>, key: string)
    requires PrunedTo(rows, left, cutoff, maxRows)
    requires CountInserted(log, key) == CountEvicted(log, key) + (if key in rows then 1 else 0)
    ensures CountInserted(log + [Gone(rows, left)], key)
         == CountEvicted(log + [Gone(rows, left)], key) + (if key in left then 1 else 0)
    ensures CountSent(log + [Gone(rows, left)], key) == CountSent(log, key)
    ensures CountInserted(log + [Gone(rows, left)], key) == CountInserted(log, key)
  {
    PruneBounds(rows, left, cutoff, maxRows);
    CountsAppend(log, Gone(rows, left), key);
  }

  /** Inserting the row of a new key and pruning, with the log of both. */
  lemma InsertionKeepsCounted(rows: Ledger, left: Ledger, e: LogEvent, now: int, cutoff: int, maxRows: int,
                              log: seq<LogEvent>, key: string)
    requires e.Inserted? && e.key !in rows && PrunedTo(Reserve(rows, e.key, now), left, cutoff, maxRows)
    requires CountInserted(log, key) == CountEvicted(log, key) + (if key in rows then 1 else 0)
    ensures var after := log + [e] + [Gone(Reserve(rows, e.key, now), left)];
      && CountInserted(after, key) == CountEvicted(after, key) + (if key in left then 1 else 0)
      && CountSent(after, key) == CountSent(log, key)
      && CountInserted(after, key) == CountInserted(log, key) + (if e.key == key then 1 else 0)
  {
    CountsAppend(log, e, key);
    PruneKeepsCounted(Reserve(rows, e.key, now), left, cutoff, maxRows, log + [e], key);
  }

  lemma ReservationIsCounted(m: Machine, e: LogEvent, now: int, cutoff: int, maxRows: int, n: Machine, key: string)
    requires Counted(m, key) && m.phase == Idle && e.Inserted? && n.phase.Reserved? && n.phase.key == e.key
    requires e.key !in m.rows && PrunedTo(Reserve(m.rows, e.key, now), n.rows, cutoff, maxRows)
    requires n.log == m.log + [e] + [Gone(Reserve(m.rows, e.key, now), n.rows)]
    ensures Counted(n, key)
  {
    InsertionKeepsCounted(m.rows, n.rows, e, now, cutoff, maxRows, m.log, key);
  }

  lemma StartKeepsCounted(l: Limits, m: Machine, op: Op, n: Machine, key: string)
    requires Counted(m, key) && op.Start? && Next(l, m, op, n)
    ensures Counted(n, key)
  {
    if m.phase == Idle && op.key !in m.rows {
      var e, inserted := Inserted(op.key, op.condition, op.context), Reserve(m.rows, op.key, op.now);
      assert n.log == m.log + [e] + [Gone(inserted, n.rows)];
      ReservationIsCounted(m, e, op.now, op.pruneNow - l.retention, l.maxRows, n, key);
    }
  }

  lemma FinishKeepsCounted(l: Limits, m: Machine, op: Op, n: Machine, key: string)
    requires Counted(m, key) && op.Finish? && Next(l, m, op, n)
    ensures Counted(n, key)
  {
    if m.phase.Dispatched? || (m.phase.Reserved? && !m.phase.hit) {
      if m.phase.key in m.rows {
        var done := Finalize(m.rows, m.phase.key, op.now);
        PruneKeepsCounted(done, n.rows, op.pruneNow - l.retention, l.maxRows, m.log, key);
      } else {
        CountsAppend(m.log, Missing(m.phase.key), key);
      }
    }
  }

  lemma MarkKeepsCounted(l: Limits, m: Machine, op: Op, n: Machine, key: string)
    requires Counted(m, key) && op.Mark? && Next(l, m, op, n)
    ensures Counted(n, key)
  {
    if Marks(m, op) {
      var marked := MarkUploaded(m.rows, op.accepted, op.now);
      PruneKeepsCounted(marked, n.rows, op.pruneNow - l.retention, l.maxRows, m.log, key);
    }
  }

  lemma StepKeepsCounted(l: Limits, m: Machine, op: Op, n: Machine, key: string)
    requires Counted(m, key) && Next(l, m, op, n)
    ensures Counted(n, key)
  {
    match op
    case Start(_, _, _, _, _) => StartKeepsCounted(l, m, op, n, key);
    case Dispatch => if m.phase.Reserved? { CountsAppend(m.log, ActionsSent(m.phase.key), key); }
    case Finish(_, _) => FinishKeepsCounted(l, m, op, n, key);
    case Mark(_, _, _) => MarkKeepsCounted(l, m, op, n, key);
    case _ =>
  }

  lemma {:induction false} RunIsCounted(l: Limits, states: seq<Machine>, ops: seq<Op>, i: nat, key: string)
    requires IsRun(l, states, ops) && i <= |ops|
    ensures Counted(states[i], key)
  {
    if i > 0 {
      RunIsCounted(l, states, ops, i - 1, key);
      assert Next(l, states[i - 1], ops[i - 1], states[i]);
      StepKeepsCounted(l, states[i - 1], ops[i - 1], states[i], key);
    }
  }

  /**
   Over any run of duplicate events and crashes, the actions of a key are dispatched at most once more often
   than its row was evicted: at most once while the row is retained.
   */
  lemma ActionsAtMostOnce(l: Limits, states: seq<Machine>, ops: seq<Op>, key: string)
    requires IsRun(l, states, ops)
    ensures CountSent(states[|ops|].log, key) <= 1 + CountEvicted(states[|ops|].log, key)
    ensures (forall i :: 0 <= i < |states[|ops|].log| && states[|ops|].log[i].Evicted? ==> key !in states[|ops|].log[i].keys)
      ==> CountSent(states[|ops|].log, key) <= 1
  {
    RunIsCounted(l, states, ops, |ops|, key);
    NeverEvicted(states[|ops|].log, key);
  }

  lemma {:induction false} NeverEvicted(log: seq<LogEvent>, key: string)
    ensures (forall i :: 0 <= i < |log| && log[i].Evicted? ==> key !in log[i].keys)
      ==> CountEvicted(log, key) == 0
  {
    if log != [] { NeverEvicted(log[..|log| - 1], key); }
  }

  // ---------- only on a hit ----------

  /** log[j] inserted the key, and nothing inserted it again or dispatched it before position i. */
  predicate LatestInsertion(log: seq<LogEvent>, i: nat, key: string, j: int) {
    && 0 <= j < i <= |log| && log[j].Inserted? && log[j].key == key
    && forall k :: j < k < i ==> !(log[k].Inserted? && log[k].key == key) && log[k] != ActionsSent(key)
  }

  /** The condition evaluated to true in its context. */
  predicate WasHit(e: LogEvent) {
    && e.Inserted? && EvaluateCondition(e.condition, e.context).Ok?
    && EvaluateCondition(e.condition, e.context).value.value == Bool(true)
  }

  /** Every dispatch is the only one of the latest reservation of its key, whose condition held in its context. */
  ghost predicate SentOnHit(log: seq<LogEvent>) {
    forall i :: 0 <= i < |log| && log[i].ActionsSent? ==>
      exists j :: LatestInsertion(log, i, log[i].key, j) && WasHit(log[j])
  }

  ghost predicate PhaseIsLogged(m: Machine) {
    m.phase.Reserved? ==> exists j :: LatestInsertion(m.log, |m.log|, m.phase.key, j) && (m.phase.hit <==> WasHit(m.log[j]))
  }

  lemma InsertionExtends(log: seq<LogEvent>, e: LogEvent, i: nat, key: string, j: int)
    requires LatestInsertion(log, i, key, j)
    ensures LatestInsertion(log + [e], i, key, j) && (log + [e])[j] == log[j]
    ensures i == |log| && e != ActionsSent(key) && !(e.Inserted? && e.key == key) ==>
      LatestInsertion(log + [e], i + 1, key, j)
  {
  }

  lemma SentExtends(log: seq<LogEvent>, e: LogEvent)
    requires SentOnHit(log)
    requires e.ActionsSent? ==> exists j :: LatestInsertion(log, |log|, e.key, j) && WasHit(log[j])
    ensures SentOnHit(log + [e])
  {
    var longer := log + [e];
    forall i | 0 <= i < |longer| && longer[i].ActionsSent?
      ensures exists j :: LatestInsertion(longer, i, longer[i].key, j) && WasHit(longer[j])
    {
      assert i < |log| ==> longer[i] == log[i];
      var j :| LatestInsertion(log, i, longer[i].key, j) && WasHit(log[j]);
      InsertionExtends(log, e, i, longer[i].key, j);
    }
  }

  lemma StartIsLogged(l: Limits, m: Machine, op: Op, n: Machine)
    requires SentOnHit(m.log) && PhaseIsLogged(m) && op.Start? && Next(l, m, op, n)
    ensures SentOnHit(n.log) && PhaseIsLogged(n)
  {
    if m.phase == Idle && op.key !in m.rows {
      var e, g := Inserted(op.key, op.condition, op.context), n.log[|m.log| + 1];
      SentExtends(m.log, e);
      SentExtends(m.log + [e], g);
      assert n.log == m.log + [e] + [g];
      assert LatestInsertion(n.log, |n.log|, op.key, |m.log|) && n.log[|m.log|] == e;
    }
  }

  /** Any other event of the log leaves the running reservation the latest of its key. */
  lemma QuietEventIsLogged(m: Machine, e: LogEvent, n: Machine)
    requires SentOnHit(m.log) && PhaseIsLogged(m) && n.log == m.log + [e] && (e.Evicted? || e.Missing?)
    requires n.phase == m.phase || n.phase == Idle
    ensures SentOnHit(n.log) && PhaseIsLogged(n)
  {
    SentExtends(m.log, e);
    if n.phase.Reserved? {
      var j :| LatestInsertion(m.log, |m.log|, m.phase.key, j) && (m.phase.hit <==> WasHit(m.log[j]));
      InsertionExtends(m.log, e, |m.log|, m.phase.key, j);
    }
  }

  lemma StepIsLogged(l: Limits, m: Machine, op: Op, n: Machine)
    requires SentOnHit(m.log) && PhaseIsLogged(m) && Next(l, m, op, n)
    ensures SentOnHit(n.log) && PhaseIsLogged(n)
  {
    match op
    case Start(_, _, _, _, _) => StartIsLogged(l, m, op, n);
    case Dispatch => if n != m { SentExtends(m.log, ActionsSent(m.phase.key)); }
    case Finish(_, _) => if n != m { QuietEventIsLogged(m, n.log[|m.log|], n); }
    case Mark(_, _, _) => if Marks(m, op) { QuietEventIsLogged(m, n.log[|m.log|], n); }
    case _ =>
  }

  /**
   Over any run, actions are dispatched only for a reservation whose condition evaluated to a hit in its own
   context, and at most once for each reservation.
   */
  lemma {:induction false} ActionsOnlyOnHit(l: Limits, states: seq<Machine>, ops: seq<Op>, i: nat)
    requires IsRun(l, states, ops) && i <= |ops|
    ensures SentOnHit(states[i].log) && PhaseIsLogged(states[i])
  {
    if i > 0 {
      ActionsOnlyOnHit(l, states, ops, i - 1);
      assert Next(l, states[i - 1], ops[i - 1], states[i]);
      StepIsLogged(l, states[i - 1], ops[i - 1], states[i]);
    }
  }
}
