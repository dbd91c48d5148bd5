/** Every loss is followed by a full reconciliation snapshot, or the flag that asks for one is set. */
module LossCoverage {
  import opened Wrappers
  import opened UplinkQueue
  import opened UplinkProtocol
  import opened ExactlyOnce
  import opened DeliveryLabels

  predicate IsDrop(e: HistoryEvent) { e.Refused? || e.Dropped? }

  predicate NoDropAfter(h: seq<HistoryEvent>, i: int) {
    forall k :: 0 <= k < |h| && i < k ==> !IsDrop(h[k])
  }

  predicate WasAcked(h: seq<HistoryEvent>, id: nat) {
    exists k :: 0 <= k < |h| && h[k].Acked? && id in h[k].ids
  }

  predicate Queued(rows: seq<Row>, id: nat, kind: Kind) {
    exists i :: 0 <= i < |rows| && rows[i].payload.id == id && rows[i].kind == kind
  }

  /** A full snapshot was accepted and nothing was lost since. */
  predicate SnapshotSince(h: seq<HistoryEvent>, id: nat) {
    AcceptedSnapshot(h, id) && NoDropAfter(h, id)
  }

  /** Items lost so far: one per refusal, every row of a discard. */
  function CountDropped(h: seq<HistoryEvent>): nat {
    if h == [] then 0
    else
      CountDropped(h[..|h| - 1]) +
      match h[|h| - 1]
      case Refused => 1
      case Dropped(ids) => |ids|
      case _ => 0
  }

  /** Since the last loss, every admitted item is still queued or was removed by an acknowledgement. */
  ghost predicate Tracked(rows: seq<Row>, h: seq<HistoryEvent>) {
    forall id: nat :: WasAdmitted(h, id) && NoDropAfter(h, id) ==> Queued(rows, id, h[id].kind) || WasAcked(h, id)
  }

  ghost predicate Requested(q: QueueState, h: seq<HistoryEvent>) {
    q.reconciliation || NoDropAfter(h, -1) || exists id: nat :: SnapshotSince(h, id)
  }

  /** A discard loses at least one row. */
  predicate DropsAreReal(h: seq<HistoryEvent>) {
    forall k :: 0 <= k < |h| && h[k].Dropped? ==> h[k].ids != []
  }

  /** Items lost before the event `id`, which is what the drop counter showed when that item was accepted. */
  function CounterAt(h: seq<HistoryEvent>, id: nat): nat
    requires id < |h|
  {
    CountDropped(h[..id])
  }

  /** The flag is cleared for a snapshot only while the drop counter stands where it stood at its acceptance. */
  predicate InTime(s: System, step: Step) {
    step.Clear? && AcceptedSnapshot(s.history, step.snapshot) ==> CounterAt(s.history, step.snapshot) == s.q.dropped
  }

  predicate InTimeRun(s: System, steps: seq<Step>)
    decreases |steps|
  {
    steps == [] || (InTime(s, steps[0]) && InTimeRun(Apply(s, steps[0]), steps[1..]))
  }

  ghost predicate Covered(s: System) {
    && NoGap(s)
    && DropsAreReal(s.history)
    && Tracked(s.q.rows, s.history)
    && Requested(s.q, s.history)
    && s.q.dropped == CountDropped(s.history)
  }

  // ---------- one event at a time ----------

  lemma CountAppend(h: seq<HistoryEvent>, e: HistoryEvent)
    ensures CountDropped(h + [e]) == CountDropped(h) + match e case Refused => 1 case Dropped(ids) => |ids| case _ => 0
  {
    assert (h + [e])[..|h|] == h;
  }

  lemma AckedAppend(h: seq<HistoryEvent>, e: HistoryEvent, id: nat)
    ensures WasAcked(h + [e], id) <==> WasAcked(h, id) || (e.Acked? && id in e.ids)
  {
    if WasAcked(h, id) {
      var k :| 0 <= k < |h| && h[k].Acked? && id in h[k].ids;
      assert (h + [e])[k] == h[k];
    }
    if e.Acked? && id in e.ids { assert (h + [e])[|h|] == e; }
  }

  lemma NoDropPrefix(h: seq<HistoryEvent>, e: HistoryEvent, i: int)
    requires i < |h|
    ensures NoDropAfter(h + [e], i) <==> NoDropAfter(h, i) && !IsDrop(e)
  {
    assert forall k :: 0 <= k < |h| ==> (h + [e])[k] == h[k];
    assert (h + [e])[|h|] == e;
  }

  lemma RequestedAppend(q: QueueState, h: seq<HistoryEvent>, e: HistoryEvent)
    requires Requested(q, h) && !IsDrop(e)
    ensures Requested(q, h + [e])
  {
    NoDropPrefix(h, e, -1);
    if !q.reconciliation && !NoDropAfter(h, -1) {
      var id: nat :| SnapshotSince(h, id);
      NoDropPrefix(h, e, id);
      assert SnapshotSince(h + [e], id);
    }
  }

  /** Rows may only disappear if an acknowledgement names them, or a drop is recorded. */
  lemma TrackedAppend(rows: seq<Row>, h: seq<HistoryEvent>, e: HistoryEvent, left: seq<Row>)
    requires Tracked(rows, h) && !e.Admitted?
    requires !IsDrop(e) ==> forall id, kind :: Queued(rows, id, kind) ==> Queued(left, id, kind) || (e.Acked? && id in e.ids)
    ensures Tracked(left, h + [e])
  {
    forall id: nat | WasAdmitted(h + [e], id) && NoDropAfter(h + [e], id)
      ensures Queued(left, id, (h + [e])[id].kind) || WasAcked(h + [e], id)
    {
      NoDropPrefix(h, e, id);
      AckedAppend(h, e, id);
      assert WasAdmitted(h, id) && (h + [e])[id] == h[id];
    }
  }

  lemma SameRowsQueued(rows: seq<Row>, left: seq<Row>)
    requires |left| == |rows|
    requires forall i :: 0 <= i < |rows| ==> left[i].payload == rows[i].payload && left[i].kind == rows[i].kind
    ensures forall id, kind :: Queued(rows, id, kind) ==> Queued(left, id, kind)
  {
    forall id, kind | Queued(rows, id, kind) ensures Queued(left, id, kind) {
      var i :| 0 <= i < |rows| && rows[i].payload.id == id && rows[i].kind == kind;
      assert left[i].payload.id == id;
    }
  }

  lemma {:induction false} UpToOrAfter(rows: seq<Row>, c: int)
    ensures forall r :: r in rows ==> r in UpTo(rows, c) || r in After(rows, c)
  {
    if rows != [] {
      UpToOrAfter(rows[1..], c);
      assert rows == [rows[0]] + rows[1..];
    }
  }

  lemma RemovedRowsAreNamed(rows: seq<Row>, c: int)
    ensures forall id, kind :: Queued(rows, id, kind) ==> Queued(After(rows, c), id, kind) || id in Ids(UpTo(rows, c))
  {
    UpToOrAfter(rows, c);
    forall id, kind | Queued(rows, id, kind)
      ensures Queued(After(rows, c), id, kind) || id in Ids(UpTo(rows, c))
    {
      var i :| 0 <= i < |rows| && rows[i].payload.id == id && rows[i].kind == kind;
      if rows[i] in UpTo(rows, c) {
        var k :| 0 <= k < |UpTo(rows, c)| && UpTo(rows, c)[k] == rows[i];
        assert Ids(UpTo(rows, c))[k] == id;
      } else {
        assert rows[i] in After(rows, c);
      }
    }
  }

  // ---------- the steps ----------

  /** An event that loses nothing, with the rows it leaves. */
  lemma EventKeepsCovered(s: System, e: HistoryEvent, left: seq<Row>, t: System)
    requires Covered(s) && NoGap(t) && !e.Admitted? && !IsDrop(e)
    requires forall id, kind :: Queued(s.q.rows, id, kind) ==> Queued(left, id, kind) || (e.Acked? && id in e.ids)
    requires t.q.rows == left && t.history == s.history + [e]
    requires t.q.dropped == s.q.dropped && t.q.reconciliation == s.q.reconciliation
    ensures Covered(t)
  {
    TrackedAppend(s.q.rows, s.history, e, left);
    RequestedAppend(s.q, s.history, e);
    CountAppend(s.history, e);
  }

  /** A recorded loss always raises the flag. */
  lemma DropKeepsCovered(s: System, e: HistoryEvent, t: System)
    requires Covered(s) && NoGap(t) && IsDrop(e) && (e.Dropped? ==> e.ids != [])
    requires t.history == s.history + [e] && t.q.reconciliation
    requires t.q.dropped == s.q.dropped + (if e.Dropped? then |e.ids| else 1)
    ensures Covered(t)
  {
    TrackedAppend(s.q.rows, s.history, e, t.q.rows);
    CountAppend(s.history, e);
  }

  lemma ExpireKeepsCovered(s: System, now: int)
    requires Covered(s)
    ensures Covered(ExpireNow(s, now))
  {
    AdmitKeepsNoGap(s, Event, None, 0, now);
    if Stale(s, now) { DropKeepsCovered(s, Dropped(Ids(s.q.rows)), ExpireNow(s, now)); }
  }

  lemma GrowthKeepsCovered(e: System, row: Row)
    requires Covered(e) && NoGap(AdmittedItem(e, row)) && row.payload.id == |e.history|
    ensures Covered(AdmittedItem(e, row))
    ensures row.kind == Snapshot ==> SnapshotSince(AdmittedItem(e, row).history, |e.history|)
  {
    var t, h, event := AdmittedItem(e, row), e.history, Admitted(row.kind, e.offline);
    forall id: nat | WasAdmitted(t.history, id) && NoDropAfter(t.history, id)
      ensures Queued(t.q.rows, id, t.history[id].kind) || WasAcked(t.history, id)
    {
      if id == |h| {
        assert t.q.rows[|e.q.rows|] == row;
      } else {
        assert WasAdmitted(h, id) && t.history[id] == h[id];
        NoDropPrefix(h, event, id);
        AckedAppend(h, event, id);
        if Queued(e.q.rows, id, h[id].kind) {
          var i :| 0 <= i < |e.q.rows| && e.q.rows[i].payload.id == id && e.q.rows[i].kind == h[id].kind;
          assert t.q.rows[i] == e.q.rows[i];
        }
      }
    }
    RequestedAppend(e.q, h, event);
    CountAppend(h, event);
  }

  lemma AdmitKeepsCovered(s: System, kind: Kind, id: Option<string>, byteSize: nat, now: int)
    requires Covered(s)
    ensures var (t, outcome) := Admit(s, kind, id, byteSize, now);
      && Covered(t)
      && (outcome.Accepted? && kind == Snapshot ==> exists k: nat :: SnapshotSince(t.history, k))
  {
    ExpireKeepsCovered(s, now);
    AdmitCases(s, kind, id, byteSize, now);
    AdmitKeepsNoGap(s, kind, id, byteSize, now);
    var e := ExpireNow(s, now);
    if Fits(e.q, s.limits, byteSize) {
      GrowthKeepsCovered(e, AdmittedRow(s, kind, id, byteSize, now));
    } else {
      DropKeepsCovered(e, Refused, RefusedItem(e));
    }
  }

  /** The drop counter has moved since an item was accepted exactly when something was lost since. */
  lemma {:induction false} CounterTellsDrops(h: seq<HistoryEvent>, id: nat)
    requires id < |h| && h[id].Admitted? && DropsAreReal(h)
    ensures CounterAt(h, id) <= CountDropped(h)
    ensures CounterAt(h, id) == CountDropped(h) <==> NoDropAfter(h, id)
    decreases |h|
  {
    var front, last := h[..|h| - 1], h[|h| - 1];
    assert h == front + [last];
    CountAppend(front, last);
    if id == |h| - 1 {
      assert front == h[..id];
    } else {
      assert front[..id] == h[..id];
      CounterTellsDrops(front, id);
      NoDropPrefix(front, last, id);
    }
  }

  lemma ClearKeepsCovered(s: System, id: nat)
    requires Covered(s) && InTime(s, Clear(id))
    ensures Covered(Cleared(s, id))
  {
    StepKeepsNoGap(s, Clear(id));
    if AcceptedSnapshot(s.history, id) {
      CounterTellsDrops(s.history, id);
      assert SnapshotSince(s.history, id);
    }
  }

  lemma BeginKeepsCovered(s: System, limit: int, now: int)
    requires Covered(s)
    ensures Covered(Begun(s, limit, now))
  {
    BeginKeepsNoGap(s, limit, now);
    if s.sender.Idle? && s.session != 0 {
      ExpireKeepsCovered(s, now);
      SameLossesCovered(ExpireNow(s, now), Begun(s, limit, now));
    }
  }

  lemma SameLossesCovered(s: System, t: System)
    requires Covered(s) && NoGap(t) && t.q == s.q && t.history == s.history
    ensures Covered(t)
  {
  }

  lemma RowUpdateKeepsCovered(s: System, e: HistoryEvent, t: System)
    requires Covered(s) && NoGap(t) && (e.Tried? || e.Failed? || e.Reopened?)
    requires |t.q.rows| == |s.q.rows|
    requires forall i :: 0 <= i < |s.q.rows| ==>
      t.q.rows[i].payload == s.q.rows[i].payload && t.q.rows[i].kind == s.q.rows[i].kind
    requires t.history == s.history + [e]
    requires t.q.dropped == s.q.dropped && t.q.reconciliation == s.q.reconciliation
    ensures Covered(t)
  {
    SameRowsQueued(s.q.rows, t.q.rows);
    EventKeepsCovered(s, e, t.q.rows, t);
  }

  lemma AttemptKeepsCovered(s: System, now: int)
    requires Covered(s)
    ensures Covered(Tries(s, now))
  {
    StepKeepsNoGap(s, Attempt(now));
    if s.sender.Sending? { RowUpdateKeepsCovered(s, Tried(Ids(s.sender.items)), Tries(s, now)); }
  }

  lemma FailKeepsCovered(s: System, now: int)
    requires Covered(s)
    ensures Covered(Failing(s, now))
  {
    StepKeepsNoGap(s, FailAttempt(now));
    if s.sender.Sending? && s.sender.attempt > 0 { RowUpdateKeepsCovered(s, Failed, Failing(s, now)); }
  }

  lemma RestartKeepsCovered(s: System)
    requires Covered(s)
    ensures Covered(Restarted(s))
  {
    StepKeepsNoGap(s, Restart);
    RowUpdateKeepsCovered(s, UplinkProtocol.HistoryEvent.Reopened, Restarted(s));
  }

  lemma FinishKeepsCovered(s: System, c: int)
    requires Covered(s)
    ensures Covered(Finished(s, c))
  {
    FinishKeepsNoGap(s, c);
    RemovedRowsAreNamed(s.q.rows, c);
    if s.sender.Sending? && c in s.answers {
      EventKeepsCovered(s, Acked(Ids(UpTo(s.q.rows, c))), After(s.q.rows, c), Finished(s, c));
    }
  }

  lemma DiscardKeepsTracked(rows: seq<Row>, h: seq<HistoryEvent>, c: int)
    requires Tracked(rows, h)
    ensures Tracked([], h + [Acked(Ids(UpTo(rows, c)))] + [Dropped(Ids(After(rows, c)))])
  {
    var left, e := After(rows, c), Acked(Ids(UpTo(rows, c)));
    RemovedRowsAreNamed(rows, c);
    TrackedAppend(rows, h, e, left);
    TrackedAppend(left, h + [e], Dropped(Ids(left)), []);
  }

  lemma DiscardIsCounted(h: seq<HistoryEvent>, acked: seq<nat>, dropped: seq<nat>)
    requires DropsAreReal(h) && dropped != []
    ensures DropsAreReal(h + [Acked(acked)] + [Dropped(dropped)])
    ensures CountDropped(h + [Acked(acked)] + [Dropped(dropped)]) == CountDropped(h) + |dropped|
  {
    CountAppend(h, Acked(acked));
    CountAppend(h + [Acked(acked)], Dropped(dropped));
  }

  /** The discard branch acknowledges up to the cursor and loses the rest, and raises the flag. */
  lemma DiscardKeepsCovered(s: System, c: int)
    requires Covered(s) && c in s.answers && c >= 0 && Discards(s.q, c) && NoGap(Synced(s, c))
    ensures Covered(Synced(s, c))
  {
    DiscardKeepsTracked(s.q.rows, s.history, c);
    DiscardIsCounted(s.history, Ids(UpTo(s.q.rows, c)), Ids(After(s.q.rows, c)));
  }

  lemma SyncKeepsCovered(s: System, c: int)
    requires Covered(s)
    ensures Covered(Synced(s, c))
  {
    SyncKeepsNoGap(s, c);
    RemovedRowsAreNamed(s.q.rows, c);
    if c in s.answers && c >= 0 {
      if Discards(s.q, c) {
        DiscardKeepsCovered(s, c);
      } else {
        EventKeepsCovered(s, Acked(Ids(UpTo(s.q.rows, c))), After(s.q.rows, c), Synced(s, c));
      }
    }
  }

  lemma StepKeepsCovered(s: System, step: Step)
    requires Covered(s) && InTime(s, step)
    ensures Covered(Apply(s, step))
  {
    match step
    case Collect(kind, id, byteSize, now) => AdmitKeepsCovered(s, kind, id, byteSize, now);
    case Clear(id) => ClearKeepsCovered(s, id);
    case Look(now) => ExpireKeepsCovered(s, now);
    case Begin(limit, now) => BeginKeepsCovered(s, limit, now);
    case Attempt(now) => AttemptKeepsCovered(s, now);
    case FailAttempt(now) => FailKeepsCovered(s, now);
    case Finish(c) => FinishKeepsCovered(s, c);
    case Sync(c) => SyncKeepsCovered(s, c);
    case Restart => RestartKeepsCovered(s);
    case _ => StepKeepsNoGap(s, step);
  }

  lemma {:induction false} RunKeepsCovered(s: System, steps: seq<Step>)
    requires Covered(s) && InTimeRun(s, steps)
    ensures Covered(Run(s, steps))
    decreases |steps|
  {
    if steps != [] {
      StepKeepsCovered(s, steps[0]);
      RunKeepsCovered(Apply(s, steps[0]), steps[1..]);
    }
  }

  // ---------- the main results ----------

  lemma {:induction false} SomeDrop(h: seq<HistoryEvent>)
    ensures CountDropped(h) > 0 ==> !NoDropAfter(h, -1)
  {
    if h != [] {
      SomeDrop(h[..|h| - 1]);
      assert h == h[..|h| - 1] + [h[|h| - 1]];
      NoDropPrefix(h[..|h| - 1], h[|h| - 1], -1);
    }
  }

  /**
   After a loss either the flag asks for reconciliation, or a full snapshot accepted after the last loss is
   still queued or was removed by an acknowledgement.
   */
  ghost predicate LossIsCovered(s: System) {
    s.q.dropped > 0 && !s.q.reconciliation ==>
      exists id: nat :: SnapshotSince(s.history, id) && (Queued(s.q.rows, id, Snapshot) || WasAcked(s.history, id))
  }

  lemma CoveredMeansCovered(s: System)
    requires Covered(s)
    ensures LossIsCovered(s)
  {
    SomeDrop(s.history);
    if s.q.dropped > 0 && !s.q.reconciliation {
      var id: nat :| SnapshotSince(s.history, id);
      assert WasAdmitted(s.history, id);
    }
  }

  /**
   In every run that clears the flag only in time, the drop counter is exactly what the history lost and
   every loss is covered, whatever comes between the acceptance of a snapshot and the clearing of the flag.
   */
  lemma EveryLossIsCovered(limits: Limits, steps: seq<Step>)
    requires InTimeRun(Init(limits), steps)
    ensures var s := Run(Init(limits), steps); s.q.dropped == CountDropped(s.history) && LossIsCovered(s)
  {
    RunKeepsCovered(Init(limits), steps);
    CoveredMeansCovered(Run(Init(limits), steps));
  }

  /** Some accepted snapshot still finds the drop counter where it stood at its acceptance. */
  ghost predicate SomeSnapshotInTime(s: System) {
    exists k: nat :: AcceptedSnapshot(s.history, k) && CounterAt(s.history, k) == s.q.dropped
  }

  lemma InTimeSnapshotCovers(s: System, snapshot: nat, k: nat)
    requires Covered(s) && AcceptedSnapshot(s.history, snapshot)
    requires AcceptedSnapshot(s.history, k) && CounterAt(s.history, k) == s.q.dropped
    ensures LossIsCovered(Cleared(s, snapshot))
  {
    ClearKeepsCovered(s, k);
    CoveredMeansCovered(Cleared(s, k));
  }

  /**
   The condition is exact: after any run that cleared in time, clearing the flag for an accepted snapshot
   keeps losses covered if and only if the drop counter has not moved since some snapshot was accepted; and
   for the newest snapshot, if and only if it has not moved since that one was.
   */
  lemma ClearIsSafeIffInTime(limits: Limits, steps: seq<Step>, snapshot: nat)
    requires InTimeRun(Init(limits), steps) && AcceptedSnapshot(Run(Init(limits), steps).history, snapshot)
    ensures var s := Run(Init(limits), steps);
      && (LossIsCovered(Cleared(s, snapshot)) <==> SomeSnapshotInTime(s))
      && ((forall k: nat :: AcceptedSnapshot(s.history, k) ==> k <= snapshot) ==>
            (LossIsCovered(Cleared(s, snapshot)) <==> CounterAt(s.history, snapshot) == s.q.dropped))
  {
    var s := Run(Init(limits), steps);
    RunKeepsCovered(Init(limits), steps);
    forall k: nat | AcceptedSnapshot(s.history, k)
      ensures CounterAt(s.history, k) <= s.q.dropped
      ensures CounterAt(s.history, k) == s.q.dropped <==> NoDropAfter(s.history, k)
      ensures CounterAt(s.history, k) == s.q.dropped ==> LossIsCovered(Cleared(s, snapshot))
    {
      CounterTellsDrops(s.history, k);
      if CounterAt(s.history, k) == s.q.dropped { InTimeSnapshotCovers(s, snapshot, k); }
    }
  }

  /** Enqueueing the snapshot and clearing the flag with nothing in between is always in time. */
  lemma AtOnceIsInTime(s: System, byteSize: nat, now: int)
    requires Covered(s) && Admit(s, Snapshot, None, byteSize, now).1.Accepted?
    ensures var t := Admit(s, Snapshot, None, byteSize, now).0;
      AcceptedSnapshot(t.history, |t.history| - 1) && InTime(t, Clear(|t.history| - 1))
  {
    AdmitKeepsCovered(s, Snapshot, None, byteSize, now);
    AdmitCases(s, Snapshot, None, byteSize, now);
    var t := Admit(s, Snapshot, None, byteSize, now).0;
    CounterTellsDrops(t.history, |t.history| - 1);
  }

  // ---------- after a late clear ----------

  /** A loss that nothing asks to be repaired. */
  ghost predicate Uncovered(s: System) {
    && s.q.dropped > 0 && !s.q.reconciliation && forall id: nat :: !SnapshotSince(s.history, id)
  }

  /** Nothing was lost and no snapshot was accepted from the i-th event on. */
  predicate Uneventful(h: seq<HistoryEvent>, i: nat) {
    forall k :: i <= k < |h| ==> !IsDrop(h[k]) && !(h[k].Admitted? && h[k].kind == Snapshot)
  }

  /** The drop counter and the flag change only together with a recorded loss, and a step never takes a loss back. */
  lemma CounterMovesWithLosses(s: System, step: Step)
    requires NoGap(s) && !s.q.reconciliation && Uneventful(Apply(s, step).history, |s.history|)
    ensures s.history <= Apply(s, step).history
    ensures !Apply(s, step).q.reconciliation && Apply(s, step).q.dropped == s.q.dropped
  {
    StepExtends(s, step);
    var t := Apply(s, step);
    match step
    case Collect(kind, id, byteSize, now) => AdmissionIsRecorded(s, kind, id, byteSize, now);
    case Look(now) => ExpiryIsRecorded(s, now);
    case Begin(_, now) => ExpiryIsRecorded(s, now);
    case Sync(c) => DiscardIsRecorded(s, c);
    case _ =>
  }

  lemma ExpiryIsRecorded(s: System, now: int)
    ensures Stale(s, now) ==> !Uneventful(ExpireNow(s, now).history, |s.history|)
  {
    if Stale(s, now) { assert IsDrop(ExpireNow(s, now).history[|s.history|]); }
  }

  lemma AdmissionIsRecorded(s: System, kind: Kind, id: Option<string>, byteSize: nat, now: int)
    requires NoGap(s) && Uneventful(Admit(s, kind, id, byteSize, now).0.history, |s.history|)
    ensures !Stale(s, now) && Admit(s, kind, id, byteSize, now).1.Accepted?
  {
    AdmitCases(s, kind, id, byteSize, now);
    var t := Admit(s, kind, id, byteSize, now).0;
    assert Stale(s, now) || !Fits(s.q, s.limits, byteSize) ==> IsDrop(t.history[|s.history|]);
  }

  lemma DiscardIsRecorded(s: System, c: int)
    ensures c in s.answers && c >= 0 && Discards(s.q, c) ==> !Uneventful(Synced(s, c).history, |s.history|)
  {
    if c in s.answers && c >= 0 && Discards(s.q, c) { assert IsDrop(Synced(s, c).history[|s.history| + 1]); }
  }

  lemma EarlierSnapshot(h: seq<HistoryEvent>, g: seq<HistoryEvent>, id: nat)
    ensures h <= g && id < |h| && SnapshotSince(g, id) ==> SnapshotSince(h, id)
  {
    if h <= g { assert forall k :: 0 <= k < |h| ==> h[k] == g[k]; }
  }

  lemma UncoveredStep(s: System, step: Step)
    requires NoGap(s) && Uncovered(s) && Uneventful(Apply(s, step).history, |s.history|)
    ensures Uncovered(Apply(s, step))
  {
    CounterMovesWithLosses(s, step);
    var h, g := s.history, Apply(s, step).history;
    forall id: nat ensures !SnapshotSince(g, id) { EarlierSnapshot(h, g, id); }
  }

  /** A loss left uncovered stays so, with the flag down, until a further loss or an unrelated snapshot. */
  lemma {:induction false} LateClearIsForgotten(s: System, rest: seq<Step>)
    requires NoGap(s) && Uncovered(s) && Uneventful(Run(s, rest).history, |s.history|)
    ensures Uncovered(Run(s, rest))
    decreases |rest|
  {
    if rest != [] {
      var t := Apply(s, rest[0]);
      StepKeepsNoGap(s, rest[0]);
      StepExtends(s, rest[0]);
      RunExtends(t, rest[1..]);
      assert forall k :: 0 <= k < |t.history| ==> t.history[k] == Run(t, rest[1..]).history[k];
      UncoveredStep(s, rest[0]);
      LateClearIsForgotten(t, rest[1..]);
    }
  }

  /** In a tame run the covering snapshot has reached Core or is still queued: an ACK never removes it unseen. */
  lemma LossIsRepairedEndToEnd(limits: Limits, steps: seq<Step>)
    requires TameRun(Init(limits), steps) && InTimeRun(Init(limits), steps)
    ensures var s := Run(Init(limits), steps);
      s.q.dropped > 0 && !s.q.reconciliation ==>
        exists id: nat :: SnapshotSince(s.history, id) && (Holds(s.core.log, id) || Holds(Payloads(s.q.rows), id))
  {
    EveryLossIsCovered(limits, steps);
    ExactlyOnceDelivery(limits, steps);
    TameRunKeepsExact(Init(limits), steps);
    var s := Run(Init(limits), steps);
    if s.q.dropped > 0 && !s.q.reconciliation {
      var id: nat :| SnapshotSince(s.history, id);
      assert WasAdmitted(s.history, id) && !WasDropped(s.history, id);
    }
  }
}
