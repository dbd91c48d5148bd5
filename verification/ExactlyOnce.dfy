/**
 End-to-end exactly-once delivery: when it holds over whole runs, and the exact condition on age expiry
 and resynchronisation that it needs.
 */
module ExactlyOnce {
  import opened Wrappers
  import opened UplinkQueue
  import opened UplinkProtocol

  // ---------- what is kept ----------

  /** The items carry the payloads currently assigned to sequences start, start + 1, ... */
  predicate InLedger(items: seq<Payload>, start: int, ledger: seq<Payload>) {
    1 <= start && start - 1 + |items| <= |ledger| && items == ledger[start - 1..start - 1 + |items|]
  }

  ghost predicate QueueOwns(q: QueueState, ledger: seq<Payload>) {
    && |ledger| == q.nextSequence - 1
    && 0 <= q.acknowledged <= |ledger|
    && Payloads(q.rows) == ledger[q.acknowledged..]
  }

  /** Requests of the current session generation, the only ones Core still serves. */
  ghost predicate WireOwns(net: seq<Message>, generation: nat, ledger: seq<Payload>) {
    forall i :: 0 <= i < |net| && net[i].generation == generation ==> InLedger(net[i].items, net[i].start, ledger)
  }

  ghost predicate SenderOwns(sender: Sender, ledger: seq<Payload>) {
    sender.Sending? && sender.items != [] ==> InLedger(Payloads(sender.items), sender.items[0].sequence, ledger)
  }

  ghost predicate NotFromTheFuture(net: seq<Message>, session: nat, generation: nat) {
    session <= generation && forall i :: 0 <= i < |net| ==> net[i].generation <= generation
  }

  ghost predicate Ordered(ledger: seq<Payload>, bound: nat) {
    && (forall i, j :: 0 <= i < j < |ledger| ==> ledger[i].id < ledger[j].id)
    && (forall i :: 0 <= i < |ledger| ==> ledger[i].id < bound)
  }

  ghost predicate Aligned(s: System) {
    && NoGap(s)
    && QueueOwns(s.q, s.ledger)
    && s.core.log <= s.ledger
    && WireOwns(s.net, s.core.generation, s.ledger)
    && SenderOwns(s.sender, s.ledger)
    && NotFromTheFuture(s.net, s.session, s.core.generation)
    && Ordered(s.ledger, |s.history|)
  }

  predicate WasAdmitted(h: seq<HistoryEvent>, id: int) { 0 <= id < |h| && h[id].Admitted? }

  predicate WasDropped(h: seq<HistoryEvent>, id: int) {
    exists j :: 0 <= j < |h| && h[j].Dropped? && id in h[j].ids
  }

  predicate Holds(items: seq<Payload>, id: int) { exists i :: 0 <= i < |items| && items[i].id == id }

  /** Every admitted item that was not dropped still owns a sequence. */
  ghost predicate Accounted(h: seq<HistoryEvent>, ledger: seq<Payload>) {
    forall id :: WasAdmitted(h, id) && !WasDropped(h, id) ==> Holds(ledger, id)
  }

  /** A discard names only rows that were admitted before it. */
  ghost predicate DropsArePast(h: seq<HistoryEvent>) {
    forall j, id :: 0 <= j < |h| && h[j].Dropped? && id in h[j].ids ==> id < j
  }

  ghost predicate Exact(s: System) { Aligned(s) && Accounted(s.history, s.ledger) && DropsArePast(s.history) }

  // ---------- when a step is safe ----------

  /** The i-th request is still served by Core and reaches past the ACK cursor. */
  predicate LiveBeyond(s: System, i: int) requires 0 <= i < |s.net| {
    s.net[i].generation == s.core.generation && s.net[i].start - 1 + |s.net[i].items| > s.q.acknowledged
  }

  /** No upload is outstanding or unresolved above the ACK cursor: not at Core, on the wire, or being sent. */
  predicate Settled(s: System) {
    && |s.core.log| == s.q.acknowledged
    && (forall i :: 0 <= i < |s.net| ==> !LiveBeyond(s, i))
    && (s.sender.Sending? && s.sender.items != [] ==>
          s.sender.items[0].sequence - 1 + |s.sender.items| <= s.q.acknowledged)
  }

  /** Age expiry fires only when settled; a session's cursor is applied only when no later ACK overtook it. */
  predicate Tame(s: System, step: Step) {
    match step
    case Collect(_, _, _, now) => Stale(s, now) ==> Settled(s)
    case Look(now) => Stale(s, now) ==> Settled(s)
    case Begin(_, now) => s.sender.Idle? && s.session != 0 && Stale(s, now) ==> Settled(s)
    case Sync(c) => c in s.answers ==> c >= s.q.acknowledged
    case _ => true
  }

  predicate TameRun(s: System, steps: seq<Step>)
    decreases |steps|
  {
    steps == [] || (Tame(s, steps[0]) && TameRun(Apply(s, steps[0]), steps[1..]))
  }

  // ---------- history extension ----------

  lemma DropExtends(h: seq<HistoryEvent>, e: HistoryEvent, id: int)
    ensures WasDropped(h + [e], id) <==> WasDropped(h, id) || (e.Dropped? && id in e.ids)
  {
    var g := h + [e];
    if WasDropped(h, id) {
      var j :| 0 <= j < |h| && h[j].Dropped? && id in h[j].ids;
      assert g[j] == h[j];
    }
    if e.Dropped? && id in e.ids { assert g[|h|] == e; }
  }

  lemma AccountExtends(h: seq<HistoryEvent>, e: HistoryEvent, ledger: seq<Payload>)
    requires Accounted(h, ledger) && !e.Admitted?
    ensures Accounted(h + [e], ledger)
  {
    forall id | WasAdmitted(h + [e], id) && !WasDropped(h + [e], id) ensures Holds(ledger, id) {
      DropExtends(h, e, id);
      assert WasAdmitted(h, id);
    }
  }

  lemma PastAppend(h: seq<HistoryEvent>, e: HistoryEvent)
    requires DropsArePast(h) && (e.Dropped? ==> forall id :: id in e.ids ==> id < |h|)
    ensures DropsArePast(h + [e])
  {
  }

  // ---------- the steps ----------

  lemma ShrinkKeepsWire(net: seq<Message>, generation: nat, ledger: seq<Payload>, n: nat)
    requires WireOwns(net, generation, ledger) && n <= |ledger|
    requires forall i :: 0 <= i < |net| && net[i].generation == generation ==> net[i].start - 1 + |net[i].items| <= n
    ensures WireOwns(net, generation, ledger[..n])
  {
  }

  lemma ExpireKeepsAligned(s: System, now: int)
    requires Aligned(s) && (Stale(s, now) ==> Settled(s))
    ensures Aligned(ExpireNow(s, now))
  {
    AdmitKeepsNoGap(s, Event, None, 0, now);
    if Stale(s, now) {
      forall i | 0 <= i < |s.net| && s.net[i].generation == s.core.generation
        ensures s.net[i].start - 1 + |s.net[i].items| <= s.q.acknowledged
      {
        assert !LiveBeyond(s, i);
      }
      ShrinkKeepsWire(s.net, s.core.generation, s.ledger, s.q.acknowledged);
    }
  }

  lemma TailIsQueued(q: QueueState, ledger: seq<Payload>, i: nat)
    requires QueueOwns(q, ledger) && q.acknowledged <= i < |ledger|
    ensures ledger[i].id in Ids(q.rows) && Holds(Payloads(q.rows), ledger[i].id)
  {
    var k := i - q.acknowledged;
    assert Payloads(q.rows)[k] == ledger[i];
    assert Ids(q.rows)[k] == ledger[i].id;
  }

  lemma ExpireKeepsAccount(s: System, now: int)
    requires Exact(s)
    ensures Accounted(ExpireNow(s, now).history, ExpireNow(s, now).ledger)
  {
    if Stale(s, now) {
      var e := Dropped(Ids(s.q.rows));
      var kept := Take(s.ledger, s.q.acknowledged);
      forall id | WasAdmitted(s.history + [e], id) && !WasDropped(s.history + [e], id) ensures Holds(kept, id) {
        DropExtends(s.history, e, id);
        assert WasAdmitted(s.history, id);
        var i :| 0 <= i < |s.ledger| && s.ledger[i].id == id;
        if i >= s.q.acknowledged { TailIsQueued(s.q, s.ledger, i); }
        assert kept[i] == s.ledger[i];
      }
    }
  }

  lemma RowsArePast(q: QueueState, ledger: seq<Payload>, bound: nat)
    requires QueueOwns(q, ledger) && Ordered(ledger, bound)
    ensures forall id :: id in Ids(q.rows) ==> id < bound
  {
    forall i | 0 <= i < |q.rows| ensures Ids(q.rows)[i] < bound {
      assert Payloads(q.rows)[i] == ledger[q.acknowledged + i];
    }
  }

  lemma ExpireKeepsPast(s: System, now: int)
    requires Aligned(s) && DropsArePast(s.history)
    ensures DropsArePast(ExpireNow(s, now).history)
  {
    RowsArePast(s.q, s.ledger, |s.history|);
    PastAppend(s.history, Dropped(Ids(s.q.rows)));
  }

  lemma ExpireKeepsExact(s: System, now: int)
    requires Exact(s) && (Stale(s, now) ==> Settled(s))
    ensures Exact(ExpireNow(s, now))
  {
    ExpireKeepsAligned(s, now);
    ExpireKeepsAccount(s, now);
    ExpireKeepsPast(s, now);
  }

  lemma AppendKeepsOwners(net: seq<Message>, generation: nat, sender: Sender, ledger: seq<Payload>, p: Payload)
    requires WireOwns(net, generation, ledger) && SenderOwns(sender, ledger)
    ensures WireOwns(net, generation, ledger + [p]) && SenderOwns(sender, ledger + [p])
  {
    forall items, start | InLedger(items, start, ledger) ensures InLedger(items, start, ledger + [p]) {
      assert (ledger + [p])[start - 1..start - 1 + |items|] == ledger[start - 1..start - 1 + |items|];
    }
  }

  lemma AppendKeepsQueue(q: QueueState, ledger: seq<Payload>, row: Row)
    requires QueueOwns(q, ledger)
    ensures QueueOwns(q.(rows := q.rows + [row], nextSequence := q.nextSequence + 1), ledger + [row.payload])
  {
    assert Payloads(q.rows + [row]) == Payloads(q.rows) + [row.payload];
    assert (ledger + [row.payload])[q.acknowledged..] == ledger[q.acknowledged..] + [row.payload];
  }

  lemma GrowthKeepsAligned(e: System, row: Row)
    requires Aligned(e) && row.sequence == e.q.nextSequence && row.payload.id == |e.history|
    ensures AdmittedItem(e, row).ledger == e.ledger + [row.payload]
    ensures Aligned(AdmittedItem(e, row))
  {
    AppendKeepsQueue(e.q, e.ledger, row);
    AppendKeepsOwners(e.net, e.core.generation, e.sender, e.ledger, row.payload);
    assert Ordered(e.ledger + [row.payload], |e.history| + 1);
  }

  lemma RefusalKeepsAligned(e: System)
    requires Aligned(e)
    ensures Aligned(RefusedItem(e))
  {
  }

  lemma AdmitKeepsAligned(s: System, kind: Kind, id: Option<string>, byteSize: nat, now: int)
    requires Aligned(s) && (Stale(s, now) ==> Settled(s))
    ensures Aligned(Admit(s, kind, id, byteSize, now).0)
  {
    ExpireKeepsAligned(s, now);
    AdmitCases(s, kind, id, byteSize, now);
    var e := ExpireNow(s, now);
    if Fits(e.q, s.limits, byteSize) {
      GrowthKeepsAligned(e, AdmittedRow(s, kind, id, byteSize, now));
    } else {
      RefusalKeepsAligned(e);
    }
  }

  lemma GrowthKeepsAccount(e: System, row: Row)
    requires Exact(e) && row.sequence == e.q.nextSequence && row.payload.id == |e.history|
    ensures Accounted(AdmittedItem(e, row).history, AdmittedItem(e, row).ledger)
  {
    GrowthKeepsAligned(e, row);
    var t := AdmittedItem(e, row);
    forall k | WasAdmitted(t.history, k) && !WasDropped(t.history, k) ensures Holds(t.ledger, k) {
      DropExtends(e.history, Admitted(row.kind, e.offline), k);
      if k == |e.history| {
        assert t.ledger[|e.ledger|].id == k;
      } else {
        assert WasAdmitted(e.history, k);
        var i :| 0 <= i < |e.ledger| && e.ledger[i].id == k;
        assert t.ledger[i] == e.ledger[i];
      }
    }
  }

  lemma AdmitKeepsAccount(s: System, kind: Kind, id: Option<string>, byteSize: nat, now: int)
    requires Exact(s) && (Stale(s, now) ==> Settled(s))
    ensures Accounted(Admit(s, kind, id, byteSize, now).0.history, Admit(s, kind, id, byteSize, now).0.ledger)
    ensures DropsArePast(Admit(s, kind, id, byteSize, now).0.history)
  {
    ExpireKeepsExact(s, now);
    AdmitCases(s, kind, id, byteSize, now);
    var e := ExpireNow(s, now);
    if Fits(e.q, s.limits, byteSize) {
      GrowthKeepsAccount(e, AdmittedRow(s, kind, id, byteSize, now));
    } else {
      AccountExtends(e.history, Refused, e.ledger);
    }
  }

  lemma PrefixInLedger(q: QueueState, ledger: seq<Payload>, items: seq<Row>)
    requires Consistent(q) && QueueOwns(q, ledger) && items <= q.rows && items != []
    ensures InLedger(Payloads(items), items[0].sequence, ledger)
  {
    assert Payloads(items) == Payloads(q.rows)[..|items|];
  }

  lemma BeginKeepsExact(s: System, limit: int, now: int)
    requires Exact(s) && Tame(s, Begin(limit, now))
    ensures Exact(Begun(s, limit, now))
  {
    BeginKeepsNoGap(s, limit, now);
    if s.sender.Idle? && s.session != 0 {
      ExpireKeepsExact(s, now);
      var e := ExpireNow(s, now);
      var items := Batch(Head(e.q.rows, limit));
      BatchIsPrefix(Head(e.q.rows, limit));
      if items != [] { PrefixInLedger(e.q, e.ledger, items); }
    }
  }

  lemma DeliverKeepsPrefix(log: seq<Payload>, m: Message, ledger: seq<Payload>)
    requires log <= ledger && InLedger(m.items, m.start, ledger) && m.start <= |log| + 1
    ensures CoreAccepts(log, m).Ok? && log <= CoreAccepts(log, m).value <= ledger
  {
    var seen := |log| + 1 - m.start;
    if seen < |m.items| {
      assert log + m.items[seen..] == ledger[..m.start - 1 + |m.items|];
    }
  }

  lemma DeliverKeepsExact(s: System, i: nat)
    requires Exact(s)
    ensures Exact(Delivered(s, i))
  {
    DeliverKeepsNoGap(s, i);
    if i < |s.net| && s.net[i].generation == s.core.generation {
      DeliverKeepsPrefix(s.core.log, s.net[i], s.ledger);
    }
  }

  /** Removing the first k rows and moving the ACK cursor past them. */
  lemma SuffixOwned(q: QueueState, ledger: seq<Payload>, k: nat)
    requires QueueOwns(q, ledger) && k <= |q.rows|
    ensures QueueOwns(q.(rows := q.rows[k..], acknowledged := q.acknowledged + k), ledger)
  {
    assert Payloads(q.rows[k..]) == Payloads(q.rows)[k..];
  }

  /** One event that admits nothing, in a state that keeps Core, the ledger and the ownership of its parts. */
  lemma EventKeepsExact(s: System, t: System, e: HistoryEvent)
    requires Exact(s) && !e.Admitted? && !e.Dropped? && t.history == s.history + [e]
    requires NoGap(t) && t.core == s.core && t.ledger == s.ledger
    requires QueueOwns(t.q, t.ledger) && SenderOwns(t.sender, t.ledger)
    requires WireOwns(t.net, t.core.generation, t.ledger) && NotFromTheFuture(t.net, t.session, t.core.generation)
    ensures Exact(t)
  {
    AccountExtends(s.history, e, s.ledger);
    PastAppend(s.history, e);
    assert Ordered(t.ledger, |t.history|);
  }

  lemma FinishKeepsExact(s: System, c: int)
    requires Exact(s)
    ensures Exact(Finished(s, c))
  {
    if s.sender.Sending? && c in s.answers {
      FinishKeepsNoGap(s, c);
      AcknowledgeKeepsOwned(s.q, s.ledger, c);
      EventKeepsExact(s, Finished(s, c), Acked(Ids(UpTo(s.q.rows, c))));
    }
  }

  lemma AcknowledgeKeepsOwned(q: QueueState, ledger: seq<Payload>, c: int)
    requires Consistent(q) && QueueOwns(q, ledger) && c <= |ledger|
    ensures QueueOwns(Acknowledge(q, c), ledger)
  {
    AcknowledgeKeepsConsistent(q, c);
    SuffixOwned(q, ledger, Clamp(c - q.acknowledged, |q.rows|));
  }

  lemma SynchronizeKeepsOwned(q: QueueState, ledger: seq<Payload>, c: int)
    requires Consistent(q) && QueueOwns(q, ledger) && 0 <= q.acknowledged <= c <= |ledger|
    ensures QueueOwns(Synchronize(q, c), ledger) && !Discards(q, c)
    ensures Synchronize(q, c).nextSequence == q.nextSequence
  {
    var k := c - q.acknowledged;
    SynchronizeDiscardsIff(q, c);
    AfterOfConsecutive(q.rows, q.acknowledged + 1, c);
    SuffixOwned(q, ledger, k);
    assert Synchronize(q, c) == q.(rows := q.rows[k..], acknowledged := q.acknowledged + k);
  }

  lemma SyncKeepsExact(s: System, c: int)
    requires Exact(s) && Tame(s, Sync(c))
    ensures Exact(Synced(s, c))
  {
    if c in s.answers && c >= 0 {
      SyncKeepsNoGap(s, c);
      SynchronizeKeepsOwned(s.q, s.ledger, c);
      EventKeepsExact(s, Synced(s, c), Acked(Ids(UpTo(s.q.rows, c))));
    }
  }

  lemma AttemptKeepsExact(s: System, now: int)
    requires Exact(s)
    ensures Exact(Tries(s, now))
  {
    StepKeepsNoGap(s, Attempt(now));
    if s.sender.Sending? {
      assert Payloads(MarkAttempted(s.q, Sequences(s.sender.items), now).rows) == Payloads(s.q.rows);
      AccountExtends(s.history, Tried(Ids(s.sender.items)), s.ledger);
    }
  }

  /** Rewriting delivery state leaves the rows' payloads, and so the queue's part of the ledger, as they were. */
  lemma RowUpdateKeepsOwned(q: QueueState, r: QueueState, ledger: seq<Payload>)
    requires Consistent(q) && QueueOwns(q, ledger)
    requires r.acknowledged == q.acknowledged && r.nextSequence == q.nextSequence && |r.rows| == |q.rows|
    requires forall i :: 0 <= i < |q.rows| ==>
      r.rows[i].payload == q.rows[i].payload && r.rows[i].sequence == q.rows[i].sequence
    ensures Consistent(r) && QueueOwns(r, ledger)
  {
    assert Payloads(r.rows) == Payloads(q.rows);
  }

  lemma FailKeepsExact(s: System, now: int)
    requires Exact(s)
    ensures Exact(Failing(s, now))
  {
    if s.sender.Sending? && s.sender.attempt > 0 {
      RowUpdateKeepsOwned(s.q, MarkUncertain(s.q, now), s.ledger);
      EventKeepsExact(s, Failing(s, now), Failed);
    }
  }

  lemma RestartKeepsExact(s: System)
    requires Exact(s)
    ensures Exact(Restarted(s))
  {
    RowUpdateKeepsOwned(s.q, Reopen(s.q), s.ledger);
    EventKeepsExact(s, Restarted(s), UplinkProtocol.HistoryEvent.Reopened);
  }

  lemma ClearKeepsExact(s: System, id: nat)
    requires Exact(s)
    ensures Exact(Cleared(s, id))
  {
    StepKeepsNoGap(s, Clear(id));
  }

  lemma TameStepKeepsExact(s: System, step: Step)
    requires Exact(s) && Tame(s, step)
    ensures Exact(Apply(s, step))
  {
    match step
    case Collect(kind, id, byteSize, now) =>
      AdmitKeepsAligned(s, kind, id, byteSize, now);
      AdmitKeepsAccount(s, kind, id, byteSize, now);
    case Clear(id) => ClearKeepsExact(s, id);
    case Look(now) => ExpireKeepsExact(s, now);
    case Begin(limit, now) => BeginKeepsExact(s, limit, now);
    case Attempt(now) => AttemptKeepsExact(s, now);
    case Deliver(i) => DeliverKeepsExact(s, i);
    case FailAttempt(now) => FailKeepsExact(s, now);
    case Finish(c) => FinishKeepsExact(s, c);
    case Sync(c) => SyncKeepsExact(s, c);
    case Restart => RestartKeepsExact(s);
    case _ => StepKeepsNoGap(s, step);
  }

  lemma {:induction false} TameRunKeepsExact(s: System, steps: seq<Step>)
    requires Exact(s) && TameRun(s, steps)
    ensures Exact(Run(s, steps))
    decreases |steps|
  {
    if steps != [] {
      TameStepKeepsExact(s, steps[0]);
      TameRunKeepsExact(Apply(s, steps[0]), steps[1..]);
    }
  }

  // ---------- the main results ----------

  /** An item that was accepted and never counted as dropped, yet is neither at Core nor queued. */
  ghost predicate Vanished(s: System, id: int) {
    && WasAdmitted(s.history, id) && !WasDropped(s.history, id)
    && !Holds(s.core.log, id) && !Holds(Payloads(s.q.rows), id)
  }

  lemma NothingVanishes(s: System)
    requires Exact(s)
    ensures forall id :: !Vanished(s, id)
  {
    forall id | WasAdmitted(s.history, id) && !WasDropped(s.history, id)
      ensures Holds(s.core.log, id) || Holds(Payloads(s.q.rows), id)
    {
      var i :| 0 <= i < |s.ledger| && s.ledger[i].id == id;
      if i < |s.core.log| {
        assert s.core.log[i] == s.ledger[i];
      } else {
        TailIsQueued(s.q, s.ledger, i);
      }
    }
  }

  /**
   Exactly once, end to end: after any tame run Core's log is exactly the payloads assigned to sequences
   1..cursor, each item at most once and in the order of admission, and every admitted item that expiry did
   not drop is in Core's log or still queued.
   */
  lemma ExactlyOnceDelivery(limits: Limits, steps: seq<Step>)
    requires TameRun(Init(limits), steps)
    ensures var s := Run(Init(limits), steps);
      && |s.core.log| <= |s.ledger| && s.core.log == s.ledger[..|s.core.log|]
      && (forall i, j :: 0 <= i < j < |s.core.log| ==> s.core.log[i].id < s.core.log[j].id)
      && (forall id :: WasAdmitted(s.history, id) && !WasDropped(s.history, id) ==>
            Holds(s.core.log, id) || Holds(Payloads(s.q.rows), id))
  {
    TameRunKeepsExact(Init(limits), steps);
    NothingVanishes(Run(Init(limits), steps));
  }

  /** In a tame run resynchronisation never takes its discard branch, and a cursor applied at once is tame. */
  lemma TameSyncNeverDiscards(s: System, c: int)
    requires NoGap(s) && c in s.answers
    ensures Tame(s, Sync(c)) ==> !Discards(s.q, c) && Synced(s, c).q.dropped == s.q.dropped
    ensures Tame(Connected(s, true), Sync(|s.core.log|))
  {
    SynchronizeDiscardsIff(s.q, c);
  }

  // ---------- what an untame step leads to ----------

  predicate LogAgrees(s: System) { s.core.log <= s.ledger }

  predicate IsNew(s: System, t: System, id: int) {
    |s.history| <= id && WasAdmitted(t.history, id) && !WasDropped(t.history, id)
  }

  /** Since `s` the queue was emptied, and at most one item was admitted again. */
  ghost predicate Restocked(s: System, t: System) {
    && NoGap(t) && QueueOwns(t.q, t.ledger)
    && DropsArePast(t.history) && |s.history| <= |t.history|
    && |t.q.rows| <= 1 && forall r :: r in t.q.rows ==> IsNew(s, t, r.payload.id)
  }

  /** Core already holds an item of `s` under the sequence that the first queued item has or will get. */
  ghost predicate Overtaken(s: System, t: System) {
    && Restocked(s, t) && t.limits == s.limits
    && Ordered(s.ledger, |s.history|) && t.core.log <= s.ledger && |t.core.log| > t.q.acknowledged
  }

  lemma OvertakenDisagrees(s: System, t: System)
    requires Overtaken(s, t)
    ensures !LogAgrees(t)
  {
    assert t.q.rows == [] || (t.q.rows[0] in t.q.rows && Payloads(t.q.rows)[0] == t.ledger[t.q.acknowledged]);
  }

  lemma NewIdIsNotDropped(h: seq<HistoryEvent>, e: HistoryEvent)
    requires DropsArePast(h) && e.Admitted?
    ensures DropsArePast(h + [e]) && !WasDropped(h + [e], |h|) && WasAdmitted(h + [e], |h|)
  {
    DropExtends(h, e, |h|);
  }

  /** One more item is admitted to the emptied queue. */
  lemma AdmissionRestocks(s: System, e: System, kind: Kind, id: Option<string>, byteSize: nat, now: int)
    requires Restocked(s, e) && e.q.rows == []
    ensures Restocked(s, Admit(e, kind, id, byteSize, now).0)
    ensures Fits(e.q, e.limits, byteSize) ==> |Admit(e, kind, id, byteSize, now).0.q.rows| == 1
  {
    AdmitCases(e, kind, id, byteSize, now);
    AdmitKeepsNoGap(e, kind, id, byteSize, now);
    if Fits(e.q, e.limits, byteSize) {
      var row := AdmittedRow(e, kind, id, byteSize, now);
      NewIdIsNotDropped(e.history, Admitted(kind, e.offline));
      AppendKeepsQueue(e.q, e.ledger, row);
    } else {
      PastAppend(e.history, Refused);
    }
  }

  lemma RunOfOne(t: System, a: Step)
    ensures Run(t, [a]) == Apply(t, a) && (TameRun(t, [a]) <==> Tame(t, a))
  {
    assert [a][1..] == [];
  }

  lemma {:induction false} TameRunOfConcatenation(s: System, a: seq<Step>, b: seq<Step>)
    requires TameRun(s, a) && TameRun(Run(s, a), b)
    ensures TameRun(s, a + b)
    decreases |a|
  {
    if a == [] {
      assert a + b == b;
    } else {
      assert (a + b)[1..] == a[1..] + b;
      TameRunOfConcatenation(Apply(s, a[0]), a[1..], b);
    }
  }

  lemma RunOfTwo(t: System, a: Step, b: Step)
    requires Tame(t, a) && Tame(Apply(t, a), b)
    ensures Run(t, [a, b]) == Apply(Apply(t, a), b) && TameRun(t, [a, b])
  {
    RunOfOne(t, a);
    RunOfOne(Apply(t, a), b);
    RunOfConcatenation(t, [a], [b]);
    TameRunOfConcatenation(t, [a], [b]);
    assert [a] + [b] == [a, b];
  }

  /** Core's cursor acknowledges the new item in place of the one it holds. */
  lemma ResyncLosesTheItem(s: System, t: System)
    requires Overtaken(s, t) && t.q.rows != []
    ensures var resync := [Connect(true), Sync(|t.core.log|)];
      TameRun(t, resync) && Vanished(Run(t, resync), t.q.rows[0].payload.id)
  {
    var c, row := |t.core.log|, t.q.rows[0];
    var u := Connected(t, true);
    var v := Synced(u, c);
    RunOfTwo(t, Connect(true), Sync(c));
    AfterOfConsecutive(t.q.rows, t.q.acknowledged + 1, c);
    assert v.q.rows == [] && v.core.log == t.core.log;
    assert v.history == t.history + [Acked(Ids(UpTo(t.q.rows, c)))];
    assert row in t.q.rows;
    DropExtends(t.history, Acked(Ids(UpTo(t.q.rows, c))), row.payload.id);
    assert forall i :: 0 <= i < |t.core.log| ==> t.core.log[i] == s.ledger[i];
  }

  lemma OvertakenLosesAnItem(s: System, t: System) returns (rest: seq<Step>, id: int)
    requires Overtaken(s, t) && s.limits.maxBytes >= 0
    ensures |rest| <= 3 && TameRun(t, rest) && Vanished(Run(t, rest), id)
  {
    var resync := [Connect(true), Sync(|t.core.log|)];
    if t.q.rows != [] {
      ResyncLosesTheItem(s, t);
      rest, id := resync, t.q.rows[0].payload.id;
    } else {
      var admit := Collect(Event, None, 0, 0);
      var u := Apply(t, admit);
      AdmissionRestocks(s, t, Event, None, 0, 0);
      AdmitCases(t, Event, None, 0, 0);
      RunOfOne(t, admit);
      ResyncLosesTheItem(s, u);
      RunOfConcatenation(t, [admit], resync);
      TameRunOfConcatenation(t, [admit], resync);
      rest, id := [admit] + resync, u.q.rows[0].payload.id;
    }
  }

  lemma DeliveryPastAck(s: System, m: Message)
    requires Aligned(s) && InLedger(m.items, m.start, s.ledger) && m.start <= |s.core.log| + 1
    requires |s.core.log| == s.q.acknowledged && m.start - 1 + |m.items| > s.q.acknowledged
    ensures CoreAccepts(s.core.log, m).Ok?
    ensures CoreAccepts(s.core.log, m).value <= s.ledger && |CoreAccepts(s.core.log, m).value| > s.q.acknowledged
  {
    DeliverKeepsPrefix(s.core.log, m, s.ledger);
  }

  lemma LiveIsOvertaking(s: System, t: System, i: nat)
    requires Aligned(s) && |s.core.log| == s.q.acknowledged == t.q.acknowledged
    requires Restocked(s, t) && t.core == s.core && t.net == s.net && t.limits == s.limits
    requires i < |s.net| && LiveBeyond(s, i)
    ensures TameRun(t, [Deliver(i)]) && Overtaken(s, Run(t, [Deliver(i)]))
  {
    DeliveryPastAck(s, s.net[i]);
    DeliverKeepsNoGap(t, i);
    RunOfOne(t, Deliver(i));
  }

  /** The state after the sender has sent its batch again in a new session. */
  function Resent(t: System): System { Tries(Connected(t, true), 0) }

  lemma ResendKeepsRestocked(s: System, t: System)
    requires Restocked(s, t) && t.sender.Sending? && t.sender.items != []
    ensures Restocked(s, Resent(t))
  {
    var a, e := Connected(t, true), Tried(Ids(t.sender.items));
    StepKeepsNoGap(t, Connect(true));
    StepKeepsNoGap(a, Attempt(0));
    var u := Resent(t);
    RowUpdateKeepsOwned(t.q, u.q, t.ledger);
    PastAppend(t.history, e);
    forall r | r in u.q.rows ensures IsNew(s, u, r.payload.id) {
      assert t.q.rows[0] in t.q.rows && r.payload == t.q.rows[0].payload;
      DropExtends(t.history, e, r.payload.id);
    }
  }

  lemma ResentArrivesOvertaking(s: System, t: System)
    requires Aligned(s) && |s.core.log| == s.q.acknowledged == t.q.acknowledged
    requires Restocked(s, t) && t.core == s.core && t.net == s.net && t.sender == s.sender && t.limits == s.limits
    requires s.sender.Sending? && s.sender.items != []
    requires s.sender.items[0].sequence - 1 + |s.sender.items| > s.q.acknowledged
    ensures Overtaken(s, Delivered(Resent(t), |s.net|))
  {
    var u, m := Resent(t), NewMessage(Connected(t, true));
    ResendKeepsRestocked(s, t);
    DeliveryPastAck(s, m);
    assert u.net[|s.net|] == m;
    DeliverKeepsNoGap(u, |s.net|);
  }

  lemma RunOfThree(t: System, a: Step, b: Step, c: Step)
    requires Tame(t, a) && Tame(Apply(t, a), b) && Tame(Apply(Apply(t, a), b), c)
    ensures Run(t, [a, b, c]) == Apply(Apply(Apply(t, a), b), c) && TameRun(t, [a, b, c])
  {
    RunOfTwo(t, a, b);
    RunOfOne(Apply(Apply(t, a), b), c);
    RunOfConcatenation(t, [a, b], [c]);
    TameRunOfConcatenation(t, [a, b], [c]);
    assert [a, b] + [c] == [a, b, c];
  }

  lemma OutstandingIsSending(s: System)
    requires !Settled(s) && |s.core.log| == s.q.acknowledged
    requires forall i :: 0 <= i < |s.net| ==> !LiveBeyond(s, i)
    ensures s.sender.Sending? && s.sender.items != []
    ensures s.sender.items[0].sequence - 1 + |s.sender.items| > s.q.acknowledged
  {
  }

  /**
   After an expiry which fired while an upload was outstanding or unresolved, at most three further steps
   leave the numbering overtaken: Core already has the item, or a request on the wire arrives, or the sender
   resends in a new session.
   */
  lemma UnsettledExpiryIsOvertaken(s: System, t: System) returns (rest: seq<Step>)
    requires Aligned(s) && !Settled(s) && Restocked(s, t) && t.q.acknowledged == s.q.acknowledged
    requires t.core == s.core && t.net == s.net && t.sender == s.sender && t.limits == s.limits
    ensures |rest| <= 3 && TameRun(t, rest) && Overtaken(s, Run(t, rest))
  {
    if |s.core.log| != s.q.acknowledged {
      rest := [];
    } else if i :| 0 <= i < |s.net| && LiveBeyond(s, i) {
      LiveIsOvertaking(s, t, i);
      rest := [Deliver(i)];
    } else {
      OutstandingIsSending(s);
      ResentArrivesOvertaking(s, t);
      RunOfThree(t, Connect(true), Attempt(0), Deliver(|s.net|));
      rest := [Connect(true), Attempt(0), Deliver(|s.net|)];
    }
  }

  lemma ExpiryRestocks(s: System, kind: Kind, id: Option<string>, byteSize: nat, now: int)
    requires Exact(s) && Stale(s, now)
    ensures Restocked(s, ExpireNow(s, now))
    ensures var t := Admit(s, kind, id, byteSize, now).0;
      && Restocked(s, t) && t.core == s.core && t.net == s.net && t.sender == s.sender && t.limits == s.limits
      && t.q.acknowledged == s.q.acknowledged
  {
    var e := ExpireNow(s, now);
    AdmitKeepsNoGap(s, kind, id, byteSize, now);
    ExpireKeepsPast(s, now);
    assert Payloads(e.q.rows) == [] == e.ledger[e.q.acknowledged..];
    AdmitCases(s, kind, id, byteSize, now);
    AdmitCases(e, kind, id, byteSize, now);
    assert Admit(s, kind, id, byteSize, now).0 == Admit(e, kind, id, byteSize, now).0;
    AdmissionRestocks(s, e, kind, id, byteSize, now);
  }

  lemma UntameSyncIsOvertaken(s: System, c: int)
    requires Exact(s) && !Tame(s, Sync(c))
    ensures Overtaken(s, Synced(s, c))
  {
    var t := Synced(s, c);
    SyncKeepsNoGap(s, c);
    SynchronizeDiscardsIff(s.q, c);
    AfterOfConsecutive(s.q.rows, s.q.acknowledged + 1, c);
    RowsArePast(s.q, s.ledger, |s.history|);
    PastAppend(s.history, Acked(Ids(UpTo(s.q.rows, c))));
    assert After(s.q.rows, c) == s.q.rows;
    PastAppend(s.history + [Acked(Ids(UpTo(s.q.rows, c)))], Dropped(Ids(s.q.rows)));
    assert t.q.rows == [] && t.q.acknowledged == c;
    assert Payloads(t.q.rows) == t.ledger[c..];
  }

  lemma UntameStepIsOvertaken(s: System, step: Step) returns (rest: seq<Step>)
    requires Exact(s) && !Tame(s, step)
    ensures |rest| <= 3 && TameRun(Apply(s, step), rest) && Overtaken(s, Run(Apply(s, step), rest))
  {
    var t := Apply(s, step);
    match step
    case Sync(c) =>
      UntameSyncIsOvertaken(s, c);
      rest := [];
    case Collect(kind, id, byteSize, now) =>
      ExpiryRestocks(s, kind, id, byteSize, now);
      rest := UnsettledExpiryIsOvertaken(s, t);
    case Look(now) =>
      ExpiryRestocks(s, Event, None, 0, now);
      rest := UnsettledExpiryIsOvertaken(s, t);
    case Begin(_, now) =>
      ExpiryRestocks(s, Event, None, 0, now);
      rest := UnsettledExpiryIsOvertaken(s, t);
  }

  /**
   Every untame step loses an item: at most six further steps, all of them tame, end with an item that was
   accepted, is not counted as dropped, and is neither in Core's log nor queued.
   */
  lemma UntameStepLosesAnItem(s: System, step: Step) returns (rest: seq<Step>, id: int)
    requires Exact(s) && !Tame(s, step) && s.limits.maxBytes >= 0
    ensures |rest| <= 6 && TameRun(Apply(s, step), rest) && Vanished(Run(Apply(s, step), rest), id)
  {
    var t := Apply(s, step);
    var first := UntameStepIsOvertaken(s, step);
    var second;
    second, id := OvertakenLosesAnItem(s, Run(t, first));
    RunOfConcatenation(t, first, second);
    TameRunOfConcatenation(t, first, second);
    rest := first + second;
  }

  /**
   The condition is exact: from a state with exactly-once delivery, Core's log keeps agreeing with the
   assigned payloads in every tame continuation if and only if the step is tame, and, unless the byte limit
   is negative, so does the promise that no accepted item vanishes.
   */
  lemma ExactlyOnceIffTame(s: System, step: Step)
    requires Exact(s)
    ensures Tame(s, step) <==>
      (forall rest :: TameRun(Apply(s, step), rest) ==> LogAgrees(Run(Apply(s, step), rest)))
    ensures s.limits.maxBytes >= 0 ==>
      (Tame(s, step) <==>
        (forall rest, id :: TameRun(Apply(s, step), rest) ==> !Vanished(Run(Apply(s, step), rest), id)))
  {
    if Tame(s, step) {
      forall rest | TameRun(Apply(s, step), rest)
        ensures LogAgrees(Run(Apply(s, step), rest)) && forall id :: !Vanished(Run(Apply(s, step), rest), id)
      {
        TameStepKeepsExact(s, step);
        TameRunKeepsExact(Apply(s, step), rest);
        NothingVanishes(Run(Apply(s, step), rest));
      }
    } else {
      UntameStepIsExposed(s, step);
    }
  }

  lemma UntameStepIsExposed(s: System, step: Step)
    requires Exact(s) && !Tame(s, step)
    ensures exists rest :: TameRun(Apply(s, step), rest) && !LogAgrees(Run(Apply(s, step), rest))
    ensures s.limits.maxBytes >= 0 ==>
      exists rest, id :: TameRun(Apply(s, step), rest) && Vanished(Run(Apply(s, step), rest), id)
  {
    var first := UntameStepIsOvertaken(s, step);
    OvertakenDisagrees(s, Run(Apply(s, step), first));
    if s.limits.maxBytes >= 0 {
      var rest, id := UntameStepLosesAnItem(s, step);
    }
  }
}
