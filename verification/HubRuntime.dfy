/**
 The upload side of src/zediot_ha_hub_connector/runtime.py: `flush_once` and what other threads may do
 while it runs. Every atomic action is also a step of the protocol machine, so each state the runtime is
 ever in is a reachable state of that machine and the results about its runs apply.
 */
module HubRuntime {
  import opened Wrappers
  import opened UplinkQueue
  import opened Reliability
  import opened UplinkProtocol
  import DeliveryLabels

  /** What becomes of one upload call. */
  datatype Fate =
    | Answered        // Core processes it and the answer arrives
    | AnswerLost      // Core processes it, the client sees an exception
    | Lost            // it never arrives (or arrives later as a stray delivery)
    | SessionInvalid  // Core rejects the session: not retryable
    | StoreError      // the attempt could not be recorded, nothing was sent

  /** Actions of the subscription, inventory, maintenance, command and rule threads, and of the network. */
  datatype Other =
    | EnqueueEvent(sourceEventId: Option<string>, byteSize: nat, now: int)
    | EnqueueSnapshot(byteSize: nat, now: int)
    | ClearReconciliation(snapshot: nat)   // clears the flag that asked for this accepted snapshot
    | Heartbeat(now: int)
    | ConnectSession(answered: bool)
    | AdoptCursor(cursor: int)             // applies a cursor that some session was given
    | StrayDelivery(message: nat)
    | BreakerFailure(now: int)
    | BreakerSuccess(permit: Permit)

  /** One pass of the retry loop, with what other threads do before, during and after the call. */
  datatype Turn = Turn(before: seq<Other>, now: int, during: seq<Other>, fate: Fate, after: seq<Other>)

  datatype Script = Script(
    now: int,
    afterAllow: seq<Other>,
    peekFails: bool,
    sessionCleared: bool,       // shutdown sets the session to None between the peek and the grant check
    duringProbe: seq<Other>,    // while the heartbeat that decides a probe is under way
    heartbeatSucceeds: bool,
    turns: nat -> Turn,
    beforeSuccess: seq<Other>)  // between the acknowledgement and the report to the breaker

  datatype FlushError = SessionNotReady | PeekFailed | SessionGone | HeartbeatFailed | UploadFailed

  datatype FlushExit = Returned(progress: bool) | Raised(error: FlushError)

  datatype Config = Config(batchSize: int, maxAttempts: int)

  /** No probe was handed out, and one that is still out was not overtaken by a failure. */
  predicate ProbeKept(before: Breaker, after: Breaker) {
    after.mode == HalfOpen ==> before.mode == HalfOpen && after.generation == before.generation
  }

  /** The request carries the sender's batch, labelled replay if any of it was queued so or ever attempted. */
  predicate Carries(m: Message, sender: Sender)
    requires sender.Sending? && sender.items != []
  {
    && m.start == sender.items[0].sequence && m.items == Payloads(sender.items)
    && (m.replay <==> sender.queuedAsReplay || sender.attempt > 0)
  }

  /** Every new request carries the sender's batch, and every one after the first is labelled replay. */
  predicate Repeats(before: seq<Message>, after: seq<Message>, sender: Sender)
    requires sender.Sending? && sender.items != []
  {
    && before <= after
    && forall i :: |before| <= i < |after| ==>
         && after[i].start == sender.items[0].sequence && after[i].items == Payloads(sender.items)
         && (after[i].replay <==> sender.queuedAsReplay || sender.attempt > 0 || i > |before|)
  }

  /** Other threads leave the first k + 1 turns alone, the first k fail for the moment, and the k-th is answered. */
  predicate AnsweredAt(turns: nat -> Turn, k: nat) {
    && (forall i: nat :: i <= k ==> turns(i).before == [] && turns(i).during == [])
    && (forall i: nat :: i < k ==> turns(i).fate == StoreError || turns(i).fate == Lost || turns(i).fate == AnswerLost)
    && turns(k).fate == Answered
  }

  /** The n-th turn, read in any state alike. */
  function TurnAt(turns: nat -> Turn, n: nat): Turn { turns(n) }

  /** Other threads leave the first n turns alone. */
  predicate Undisturbed(turns: nat -> Turn, n: nat) {
    n == 0 || (Undisturbed(turns, n - 1) && TurnAt(turns, n - 1).before == [] && TurnAt(turns, n - 1).during == [])
  }

  lemma {:induction false} AloneIsUndisturbed(turns: nat -> Turn, n: nat)
    requires forall i: nat :: i < n ==> TurnAt(turns, i).before == [] && TurnAt(turns, i).during == []
    ensures Undisturbed(turns, n)
  {
    if n > 0 { AloneIsUndisturbed(turns, n - 1); }
  }

  predicate Transient(fate: Fate) { fate == StoreError || fate == Lost || fate == AnswerLost }

  /** The first n calls failed for the moment. */
  predicate AllTransient(turns: nat -> Turn, n: nat) { forall i: nat :: i < n ==> Transient(TurnAt(turns, i).fate) }

  lemma EachIsTransient(turns: nat -> Turn, n: nat, k: nat)
    requires AllTransient(turns, n) && k < n
    ensures turns(k).fate == StoreError || turns(k).fate == Lost || turns(k).fate == AnswerLost
  {
    assert Transient(TurnAt(turns, k).fate);
  }

  /** The calls of a bounded retry: only failures of the moment are followed by another call. */
  predicate Retried(turns: nat -> Turn, calls: nat, maxAttempts: int, answered: bool) {
    && (if maxAttempts <= 0 then calls == 0 && !answered else 1 <= calls <= maxAttempts)
    && (calls >= 1 ==>
          && AllTransient(turns, calls - 1)
          && (Transient(TurnAt(turns, calls - 1).fate) ==> calls == maxAttempts && !answered)
          && (answered ==> TurnAt(turns, calls - 1).fate == Answered))
  }

  /** What n calls did to the sender and the wire. */
  ghost predicate Resent(a: System, b: System, turns: nat -> Turn, n: nat) {
    && a.sender.Sending? && a.sender.items != [] && b.sender.Sending? && b.sender.items == a.sender.items
    && b.sender.queuedAsReplay == a.sender.queuedAsReplay
    && b.sender.attempt == a.sender.attempt + |b.net| - |a.net|
    && |b.net| == |a.net| + Requests(turns, n)
    && Repeats(a.net, b.net, a.sender)
  }

  /** What one call did to them. */
  predicate TurnTaken(b: System, c: System, turn: Turn)
    requires b.sender.Sending? && b.sender.items != []
  {
    && c.sender.Sending? && c.sender.items == b.sender.items && c.sender.queuedAsReplay == b.sender.queuedAsReplay
    && if turn.fate == StoreError then c.net == b.net && c.sender.attempt == b.sender.attempt
       else
         && c.sender.attempt == b.sender.attempt + 1
         && |c.net| == |b.net| + 1 && b.net <= c.net && Carries(c.net[|b.net|], b.sender)
  }

  lemma NotYetSent(a: System, turns: nat -> Turn)
    requires a.sender.Sending? && a.sender.items != []
    ensures Resent(a, a, turns, 0)
  {
  }

  lemma ResentOnce(a: System, b: System, c: System, turns: nat -> Turn, n: nat)
    requires Resent(a, b, turns, n) && TurnTaken(b, c, TurnAt(turns, n))
    ensures Resent(a, c, turns, n + 1)
  {
  }

  predicate IsLive(s: System) { s.session == s.core.generation }

  /** Undisturbed in a live session, an answered call returns, and a call that raises leaves the session live. */
  predicate TurnIsLive(b: System, c: System, turn: Turn, answered: bool) {
    IsLive(b) && turn.before == [] && turn.during == [] ==> (turn.fate == Answered ==> answered) && (!answered ==> IsLive(c))
  }

  predicate StillLive(a: System, b: System, turns: nat -> Turn, n: nat) { IsLive(a) && Undisturbed(turns, n) ==> IsLive(b) }

  predicate AnswerReturned(a: System, turns: nat -> Turn, n: nat, answered: bool) {
    IsLive(a) && Undisturbed(turns, n + 1) && TurnAt(turns, n).fate == Answered ==> answered
  }

  lemma LiveOnce(a: System, b: System, c: System, turns: nat -> Turn, n: nat, answered: bool)
    requires StillLive(a, b, turns, n) && TurnIsLive(b, c, TurnAt(turns, n), answered)
    ensures !answered ==> StillLive(a, c, turns, n + 1)
    ensures AnswerReturned(a, turns, n, answered)
  {
  }

  lemma FirstAnswerEndsIt(turns: nat -> Turn, calls: nat, maxAttempts: int, answered: bool, k: nat)
    requires Retried(turns, calls, maxAttempts, answered) && k < maxAttempts && AnsweredAt(turns, k)
    ensures calls == k + 1 && Undisturbed(turns, calls)
  {
    AloneIsUndisturbed(turns, k + 1);
    if k < calls - 1 { EachIsTransient(turns, calls - 1, k); }
  }

  /** The requests among the first n calls: every call sends one unless its attempt could not be recorded. */
  function Requests(turns: nat -> Turn, n: nat): nat {
    if n == 0 then 0 else Requests(turns, n - 1) + if TurnAt(turns, n - 1).fate == StoreError then 0 else 1
  }

  /** No interference and a reliable Core. */
  predicate Quiet(turn: Turn) {
    turn.before == [] && turn.during == [] && turn.after == [] && turn.fate == Answered
  }

  predicate Calm(script: Script) {
    && script.afterAllow == [] && !script.peekFails && !script.sessionCleared
    && script.duringProbe == [] && script.beforeSuccess == [] && Quiet(script.turns(0))
  }

  // ---------- batches ----------

  /** items[k] cannot join the batch items[..k]. */
  predicate StopsAt(items: seq<Row>, k: nat)
    requires k <= |items| && items != []
  {
    || k == |items|
    || items[k].kind != Event
    || items[k].sequence != items[0].sequence + k
    || exists j :: 0 <= j < k && items[j].payload.sourceEventId == items[k].payload.sourceEventId
  }

  predicate IsBatch(items: seq<Row>, k: nat)
    requires k <= |items| && items != []
  {
    && (forall i :: 0 <= i < k ==> items[i].kind == Event && items[i].sequence == items[0].sequence + i)
    && (forall i, j :: 0 <= i < j < k ==> items[i].payload.sourceEventId != items[j].payload.sourceEventId)
  }

  function SourceIds(items: seq<Row>): set<Option<string>> {
    set i | 0 <= i < |items| :: items[i].payload.sourceEventId
  }

  /** What the scan still has to do once items[..k] have joined the batch. */
  function Remaining(items: seq<Row>, k: nat): seq<Row>
    requires items != [] && k <= |items|
  {
    CutEvents(items[k..], items[0].sequence + k, SourceIds(items[..k]))
  }

  lemma SourceIdsGrow(items: seq<Row>, k: nat)
    requires k < |items|
    ensures SourceIds(items[..k + 1]) == SourceIds(items[..k]) + {items[k].payload.sourceEventId}
  {
    assert items[..k + 1] == items[..k] + [items[k]];
    assert forall j :: 0 <= j < k ==> items[..k + 1][j] == items[..k][j];
    assert items[..k + 1][k] == items[k];
  }

  lemma CutTakesOne(items: seq<Row>, k: nat)
    requires k < |items| && IsBatch(items, k + 1)
    ensures Remaining(items, k) == [items[k]] + Remaining(items, k + 1)
  {
    SourceIdsGrow(items, k);
    assert items[k..][1..] == items[k + 1..] && items[k..][0] == items[k];
    assert items[k].payload.sourceEventId !in SourceIds(items[..k]);
  }

  lemma {:induction false} CutContinues(items: seq<Row>, k: nat)
    requires items != [] && k <= |items| && IsBatch(items, k)
    ensures ContiguousEvents(items) == items[..k] + Remaining(items, k)
  {
    if k == 0 {
      assert items[0..] == items && SourceIds(items[..0]) == {};
    } else {
      CutContinues(items, k - 1);
      CutTakesOne(items, k - 1);
      OneMoves(items, k - 1, Remaining(items, k));
    }
  }

  lemma OneMoves(items: seq<Row>, k: nat, rest: seq<Row>)
    requires k < |items|
    ensures items[..k] + ([items[k]] + rest) == items[..k + 1] + rest
  {
    assert items[..k + 1] == items[..k] + [items[k]];
  }

  /** One pass of the scan: it ends here with the whole batch, or the item joins. */
  lemma ScanDecides(items: seq<Row>, k: nat)
    requires items != [] && k <= |items| && IsBatch(items, k)
    ensures StopsAt(items, k) <==>
      || k == |items| || items[k].kind != Event || items[k].sequence != items[0].sequence + k
      || items[k].payload.sourceEventId in SourceIds(items[..k])
    ensures StopsAt(items, k) ==> ContiguousEvents(items) == items[..k]
    ensures !StopsAt(items, k) ==>
      && IsBatch(items, k + 1)
      && SourceIds(items[..k + 1]) == SourceIds(items[..k]) + {items[k].payload.sourceEventId}
  {
    CutContinues(items, k);
    assert forall j :: 0 <= j < k ==> items[..k][j] == items[j];
    if !StopsAt(items, k) { SourceIdsGrow(items, k); }
  }

  /** `_contiguous_events`: the longest prefix of events with consecutive sequences and distinct source ids. */
  method ScanEvents(items: seq<Row>) returns (batch: seq<Row>)
    requires items != []
    ensures batch == ContiguousEvents(items)
    ensures |batch| <= |items| && batch == items[..|batch|]
    ensures IsBatch(items, |batch|) && StopsAt(items, |batch|)
    ensures items[0].kind == Event ==> batch != []
  {
    batch := [];
    var expected := items[0].sequence;
    var seen := {};
    ScanDecides(items, 0);
    while |batch| < |items|
      invariant |batch| <= |items| && batch == items[..|batch|]
      invariant expected == items[0].sequence + |batch| && seen == SourceIds(batch)
      invariant IsBatch(items, |batch|)
    {
      var item := items[|batch|];
      ScanDecides(items, |batch|);
      if item.kind != Event || item.sequence != expected { return; }
      if item.payload.sourceEventId in seen { return; }
      batch := batch + [item];
      seen := seen + {item.payload.sourceEventId};
      expected := expected + 1;
    }
    ScanDecides(items, |batch|);
  }

  // ---------- the runtime ----------

  class HubConnectorRuntime {
    const queue: BoundedUplinkQueue
    const breaker: CircuitBreaker
    const config: Config
    var allowsInventory: bool
    var allowsEvents: bool
    var cursor: int
    var world: System      // the queue's environment: Core, the network, the session, and the history
    var steps: seq<Step>   // the protocol steps taken since installation

    ghost predicate Linked() reads this { world == Run(Init(queue.limits), steps) && world.limits == queue.limits }

    ghost predicate Valid() reads this, queue, breaker {
      && queue.Valid()
      && Linked()
      && world.q == queue.State()
      && world.offline == (breaker.mode != Closed)
    }

    constructor (limits: Limits, policy: Policy, config: Config, allowsInventory: bool, allowsEvents: bool)
      ensures Valid() && fresh(queue) && fresh(breaker) && steps == [] && breaker.State() == INITIAL
    {
      queue := new BoundedUplinkQueue(FRESH, limits);
      breaker := new CircuitBreaker(policy);
      this.config := config;
      this.allowsInventory, this.allowsEvents := allowsInventory, allowsEvents;
      cursor := 0;
      world := Init(limits);
      steps := [];
    }

    /** A restart: the stored queue is opened again, everything else starts anew. */
    constructor Reopened(limits: Limits, before: seq<Step>, policy: Policy, config: Config,
                         allowsInventory: bool, allowsEvents: bool)
      ensures Valid() && fresh(queue) && fresh(breaker) && breaker.State() == INITIAL
      ensures steps == before + [Restart] && world == Restarted(Run(Init(limits), before))
    {
      NoGapEver(limits, before);
      LimitsStayFixed(Init(limits), before);
      queue := new BoundedUplinkQueue(Run(Init(limits), before).q, limits);
      breaker := new CircuitBreaker(policy);
      this.config := config;
      this.allowsInventory, this.allowsEvents := allowsInventory, allowsEvents;
      cursor := 0;
      world := Restarted(Run(Init(limits), before));
      steps := before + [Restart];
      new;
      RunOfConcatenation(Init(limits), before, [Restart]);
      assert Run(Run(Init(limits), before), [Restart]) == world by { assert [Restart][1..] == []; }
    }

    /** Records that a protocol step has been taken. */
    method Advance(step: Step)
      requires Linked()
      modifies this`world, this`steps
      ensures Linked() && world == Apply(old(world), step) && steps == old(steps) + [step]
    {
      RunOfConcatenation(Init(queue.limits), steps, [step]);
      assert Run(world, [step]) == Apply(world, step) by { assert [step][1..] == []; }
      LimitsAreFixed(world, step);
      world := Apply(world, step);
      steps := steps + [step];
    }

    /** The breaker's mode decides how items collected from now on are labelled. */
    method NoteBreaker()
      requires queue.Valid() && Linked() && world.q == queue.State()
      modifies this`world, this`steps
      ensures Valid() && world == old(world).(offline := breaker.mode != Closed)
      ensures steps == old(steps) + [SetBreaker(breaker.mode != Closed)]
    {
      Advance(SetBreaker(breaker.mode != Closed));
    }

    /** `enqueue_event` and `enqueue_snapshot`: the label is taken from the breaker's current state. */
    method Collected(kind: Kind, sourceEventId: Option<string>, byteSize: nat, now: int) returns (outcome: EnqueueOutcome)
      requires Valid()
      modifies this`world, this`steps, queue
      ensures Valid() && (world, outcome) == Admit(old(world), kind, sourceEventId, byteSize, now)
      ensures steps == old(steps) + [Collect(kind, sourceEventId, byteSize, now)]
      ensures world.sender == old(world.sender) && world.net == old(world.net) && world.answers == old(world.answers)
    {
      AdmitOnlyQueues(world, kind, sourceEventId, byteSize, now);
      var payload := Payload(|ExpireNow(world, now).history|, sourceEventId, breaker.mode != Closed);
      outcome := queue.Push(kind, payload, byteSize, now);
      Advance(Collect(kind, sourceEventId, byteSize, now));
    }

    method EnqueueEventIfGranted(sourceEventId: Option<string>, byteSize: nat, now: int)
      requires Valid()
      modifies this`world, this`steps, queue
      ensures Valid() && old(steps) <= steps
      ensures world.sender == old(world.sender) && world.net == old(world.net) && world.answers == old(world.answers)
      ensures old(world.session == 0 || allowsEvents) ==> world == Admit(old(world), Event, sourceEventId, byteSize, now).0
      ensures old(world.session != 0 && !allowsEvents) ==> world == old(world)
    {
      if world.session == 0 || allowsEvents { var outcome := Collected(Event, sourceEventId, byteSize, now); }
    }

    /** `mark_reconciliation_queued`, for a snapshot that was accepted earlier. */
    method ClearFlag(snapshot: nat)
      requires Valid()
      modifies this`world, this`steps, queue
      ensures Valid() && old(steps) <= steps && world == Cleared(old(world), snapshot)
      ensures AcceptedSnapshot(old(world.history), snapshot) ==> !queue.reconciliationRequired
    {
      if AcceptedSnapshot(world.history, snapshot) { queue.MarkReconciliationQueued(); }
      Advance(Clear(snapshot));
    }

    method ExpireBySummary(now: int)
      requires Valid()
      modifies this`world, this`steps, queue
      ensures Valid() && old(steps) <= steps && world == ExpireNow(old(world), now)
    {
      var summary := queue.Summarize(now);
      Advance(Look(now));
    }

    /** A session request; once it is answered the client uses the new session. */
    method RequestSession(answered: bool)
      requires Valid()
      modifies this`world, this`steps
      ensures Valid() && old(steps) <= steps && world == Connected(old(world), answered)
    {
      Advance(Connect(answered));
    }

    /** Applies to the queue a cursor that Core once answered with. */
    method ApplyCursor(acknowledged: int)
      requires Valid()
      modifies this`world, this`steps, this`cursor, queue
      ensures Valid() && old(steps) <= steps && world == Synced(old(world), acknowledged)
      ensures cursor == if acknowledged in old(world.answers) then acknowledged else old(cursor)
    {
      if acknowledged in world.answers {
        RunKeepsNoGap(Init(queue.limits), steps);
        cursor := acknowledged;
        var repaired := queue.SynchronizeWithServerCursor(acknowledged);
      }
      Advance(Sync(acknowledged));
    }

    method BreakerFails(now: int)
      requires Valid()
      modifies this`world, this`steps, breaker
      ensures Valid() && old(steps) <= steps && world == old(world).(offline := breaker.mode != Closed)
      ensures breaker.State() == Fail(breaker.policy, old(breaker.State()), now) && breaker.mode != HalfOpen
    {
      breaker.Failure(now);
      NoteBreaker();
    }

    method BreakerSucceeds(permit: Permit)
      requires Valid()
      modifies this`world, this`steps, breaker
      ensures Valid() && old(steps) <= steps && world == old(world).(offline := breaker.mode != Closed)
      ensures breaker.State() == Succeed(old(breaker.State()), permit).0
    {
      var applied := breaker.Success(permit);
      NoteBreaker();
    }

    /** One action of another thread or of the network. It never issues a probe. */
    method RunOther(op: Other)
      requires Valid()
      modifies this`world, this`steps, this`cursor, queue, breaker
      ensures Valid() && old(steps) <= steps
      ensures world.sender == old(world.sender) && world.net == old(world.net) && old(world.answers) <= world.answers
      ensures ProbeKept(old(breaker.State()), breaker.State())
      ensures op.EnqueueEvent? && old(world.session == 0 || allowsEvents) ==>
        world == Admit(old(world), Event, op.sourceEventId, op.byteSize, op.now).0
      ensures op.EnqueueEvent? && old(world.session != 0 && !allowsEvents) ==> world == old(world)
      ensures op.EnqueueSnapshot? ==> world == Admit(old(world), Snapshot, None, op.byteSize, op.now).0
      ensures op.ClearReconciliation? ==> world == Cleared(old(world), op.snapshot)
      ensures op.Heartbeat? ==> world == ExpireNow(old(world), op.now)
      ensures op.ConnectSession? ==> world == Connected(old(world), op.answered)
      ensures op.AdoptCursor? ==> world == Synced(old(world), op.cursor)
      ensures op.StrayDelivery? ==> world == Delivered(old(world), op.message)
      ensures !op.BreakerFailure? && !op.BreakerSuccess? ==> breaker.State() == old(breaker.State())
      ensures op.BreakerFailure? ==> breaker.State() == Fail(breaker.policy, old(breaker.State()), op.now)
      ensures op.BreakerSuccess? ==> breaker.State() == Succeed(old(breaker.State()), op.permit).0
      ensures op.BreakerFailure? || op.BreakerSuccess? ==> world == old(world).(offline := breaker.mode != Closed)
    {
      match op
      case EnqueueEvent(id, byteSize, now) => EnqueueEventIfGranted(id, byteSize, now);
      case EnqueueSnapshot(byteSize, now) => var outcome := Collected(Snapshot, None, byteSize, now);
      case ClearReconciliation(snapshot) => ClearFlag(snapshot);
      case Heartbeat(now) => ExpireBySummary(now);
      case ConnectSession(answered) => RequestSession(answered);
      case AdoptCursor(acknowledged) => ApplyCursor(acknowledged);
      case StrayDelivery(i) => Advance(Deliver(i));
      case BreakerFailure(now) => BreakerFails(now);
      case BreakerSuccess(permit) => BreakerSucceeds(permit);
    }

    method RunOthers(ops: seq<Other>)
      requires Valid()
      modifies this`world, this`steps, this`cursor, queue, breaker
      ensures Valid() && old(steps) <= steps
      ensures world.sender == old(world.sender) && world.net == old(world.net) && old(world.answers) <= world.answers
      ensures ProbeKept(old(breaker.State()), breaker.State())
      ensures ops == [] ==> cursor == old(cursor) && world == old(world) && queue.State() == old(queue.State()) && breaker.State() == old(breaker.State())
    {
      for i := 0 to |ops|
        invariant Valid() && old(steps) <= steps
        invariant world.sender == old(world.sender) && world.net == old(world.net) && old(world.answers) <= world.answers
        invariant ProbeKept(old(breaker.State()), breaker.State())
        invariant ops == [] ==> cursor == old(cursor) && world == old(world) && queue.State() == old(queue.State()) && breaker.State() == old(breaker.State())
      {
        RunOther(ops[i]);
      }
    }

    /** The second half of a reconciliation: the snapshot is enqueued, and then the flag is cleared for it. */
    method QueueSnapshot(required: bool, byteSize: nat, now: int, queued: seq<Other>) returns (done: bool)
      requires Valid()
      modifies this`world, this`steps, this`cursor, queue, breaker
      ensures Valid() && old(steps) <= steps
      ensures world.sender == old(world.sender) && world.net == old(world.net)
      ensures done <==> Admit(old(world), Snapshot, None, byteSize, now).1.Accepted?
      ensures done && required ==> !queue.reconciliationRequired
      ensures !done || queued == [] ==>
        var t := Admit(old(world), Snapshot, None, byteSize, now).0;
        world == if done && required then Cleared(t, |t.history| - 1) else t
    {
      var outcome := Collected(Snapshot, None, byteSize, now);
      if !outcome.Accepted? { return false; }
      var snapshot := |world.history| - 1;
      ghost var before := steps;
      RunOthers(queued);
      if required {
        HistoryIsKept(queue.limits, before, steps);
        ClearFlag(snapshot);
      }
      done := true;
    }

    /** A reconciliation that is due: collecting the snapshot, and then enqueueing it. */
    method CollectAndQueue(required: bool, collecting: seq<Other>, byteSize: nat, now: int, queued: seq<Other>)
      returns (done: bool)
      requires Valid()
      modifies this`world, this`steps, this`cursor, queue, breaker
      ensures Valid() && old(steps) <= steps
      ensures world.sender == old(world.sender) && world.net == old(world.net)
      ensures done && required ==> !queue.reconciliationRequired
      ensures collecting == [] && queued == [] ==>
        var (t, outcome) := Admit(old(world), Snapshot, None, byteSize, now);
        && (done <==> outcome.Accepted?)
        && world == if done && required then Cleared(t, |t.history| - 1) else t
    {
      RunOthers(collecting);
      done := QueueSnapshot(required, byteSize, now, queued);
    }

    /**
     `enqueue_reconciliation_if_needed`: reading the flag, enqueueing the snapshot and clearing the flag are
     three transactions, and other threads may act between them. Undisturbed, a snapshot that fits is queued
     last and leaves the flag down.
     */
    method EnqueueReconciliationIfNeeded(force: bool, collecting: seq<Other>, byteSize: nat, now: int, queued: seq<Other>)
      returns (done: bool)
      requires Valid()
      modifies this`world, this`steps, this`cursor, queue, breaker
      ensures Valid() && old(steps) <= steps
      ensures world.sender == old(world.sender) && world.net == old(world.net)
      ensures old(world.session != 0 && !allowsInventory) || (!force && !old(queue.reconciliationRequired)) ==>
        !done && world == old(world)
      ensures done && old(queue.reconciliationRequired) ==> !queue.reconciliationRequired
      ensures old(world.session == 0 || allowsInventory) && (force || old(queue.reconciliationRequired))
              && collecting == [] && queued == [] ==>
        (done <==> Admit(old(world), Snapshot, None, byteSize, now).1.Accepted?)
      ensures old(world.session == 0 || allowsInventory) && (force || old(queue.reconciliationRequired))
              && collecting == [] && queued == [] && SumBytes(old(queue.rows)) + byteSize <= queue.limits.maxBytes ==>
        done && queue.rows != [] && queue.rows[|queue.rows| - 1].kind == Snapshot
    {
      if world.session != 0 && !allowsInventory { return false; }
      var required := queue.NeedsReconciliation();
      if !force && !required { return false; }
      if SumBytes(queue.rows) + byteSize <= queue.limits.maxBytes { SnapshotThatFits(queue.limits, steps, byteSize, now); }
      done := CollectAndQueue(required, collecting, byteSize, now, queued);
    }

    /** Connecting a new session, and then applying the cursor Core answered with; other threads may act in between. */
    method EstablishSession(answered: bool, between: seq<Other>)
      requires Valid()
      modifies this`world, this`steps, this`cursor, queue, breaker
      ensures Valid() && old(steps) <= steps
      ensures world.sender == old(world.sender) && world.net == old(world.net) && old(world.answers) <= world.answers
      ensures ProbeKept(old(breaker.State()), breaker.State())
      ensures between == [] ==> breaker.State() == old(breaker.State())
      ensures between == [] && answered ==> world == Synced(Connected(old(world), true), |old(world.core.log)|)
      ensures between == [] && !answered ==> world == Connected(old(world), false)
      ensures answered ==> cursor == |old(world.core.log)|
    {
      RequestSession(answered);
      var acknowledged := |world.core.log|;
      RunOthers(between);
      if answered { ApplyCursor(acknowledged); }
    }

    /** `_recover_after_session_error`: the breaker learns how it ended, so an outstanding probe is given back. */
    method RecoverAfterSessionError(answered: bool, between: seq<Other>, now: int)
      requires Valid()
      modifies this`world, this`steps, this`cursor, queue, breaker
      ensures Valid() && old(steps) <= steps
      ensures world.sender == old(world.sender) && world.net == old(world.net)
      ensures breaker.mode != HalfOpen
      ensures answered && between == [] ==> breaker.mode == Closed && breaker.failureCount == 0
      ensures !answered ==> breaker.failureCount >= 1
    {
      var permit := breaker.ObserveNow();
      EstablishSession(answered, between);
      if answered { BreakerSucceeds(permit); } else { BreakerFails(now); }
    }

    method RecordAttempt(now: int)
      requires Valid() && world.sender.Sending? && world.sender.items != []
      modifies this`world, this`steps, queue
      ensures Valid() && world == Tries(old(world), now) && old(steps) <= steps
      ensures world.net == old(world.net) + [NewMessage(old(world))]
      ensures Carries(world.net[|old(world.net)|], old(world.sender))
      ensures world.sender == old(world.sender).(attempt := old(world.sender.attempt) + 1)
      ensures world.answers == old(world.answers)
    {
      queue.MarkDeliveryAttempted(Sequences(world.sender.items), now);
      Advance(Attempt(now));
    }

    method FenceQueue(now: int)
      requires Valid() && world.sender.Sending? && world.sender.attempt > 0
      modifies this`world, this`steps, queue
      ensures Valid() && world == Failing(old(world), now) && old(steps) <= steps
      ensures world.sender == old(world.sender) && world.net == old(world.net)
      ensures forall row :: row in queue.rows ==> row.attempts > 0
    {
      queue.MarkPendingDeliveryUncertain(now);
      Advance(FailAttempt(now));
    }

    /** Core processes a request of its current session; in a reachable state it never finds a sequence gap. */
    method Arrive(sent: nat) returns (cursorAfter: int)
      requires Valid() && sent < |world.net| && world.net[sent].generation == world.core.generation
      modifies this`world, this`steps
      ensures Valid() && world == Delivered(old(world), sent) && old(steps) <= steps
      ensures world.sender == old(world.sender) && world.net == old(world.net)
      ensures cursorAfter == |world.core.log| && cursorAfter in world.answers
    {
      NoGapEver(queue.limits, steps);
      Advance(Deliver(sent));
      cursorAfter := |world.core.log|;
    }

    /** What becomes of a request on the wire; no answer means that the call raises. */
    method AwaitAnswer(sent: nat, turn: Turn) returns (answer: Option<int>)
      requires Valid() && sent < |world.net|
      modifies this`world, this`steps, this`cursor, queue, breaker
      ensures Valid() && old(steps) <= steps
      ensures world.sender == old(world.sender) && world.net == old(world.net)
      ensures answer.Some? <==> turn.fate == Answered && old(world.net[sent].generation == world.core.generation)
      ensures answer.Some? ==> answer.value in world.answers
      ensures answer.None? && turn.fate != Answered ==>
        world.session == old(world.session) && world.core.generation == old(world.core.generation)
      ensures ProbeKept(old(breaker.State()), breaker.State())
      ensures Quiet(turn) && answer.Some? ==>
        && world == Delivered(old(world), sent) && answer == Some(|world.core.log|)
        && breaker.State() == old(breaker.State())
    {
      if world.net[sent].generation == world.core.generation && (turn.fate == Answered || turn.fate == AnswerLost) {
        var cursorAfter := Arrive(sent);
        if turn.fate == Answered {
          RunOthers(turn.after);
          return Some(cursorAfter);
        }
      }
      return None;
    }

    /** The upload closure once nothing stands in its way: record the attempt, send, and fence the queue if it raises. */
    method SendRecorded(turn: Turn) returns (cursorAfter: Option<int>)
      requires Valid() && world.sender.Sending? && world.sender.items != []
      modifies this`world, this`steps, this`cursor, queue, breaker
      ensures Valid() && old(steps) <= steps
      ensures world.sender == old(world.sender).(attempt := old(world.sender.attempt) + 1)
      ensures cursorAfter.Some? ==> cursorAfter.value in world.answers && turn.fate == Answered
      ensures |world.net| == |old(world.net)| + 1 && old(world.net) <= world.net
      ensures Carries(world.net[|old(world.net)|], old(world.sender))
      ensures cursorAfter.None? ==> forall row :: row in queue.rows ==> row.attempts > 0
      ensures turn.during == [] && old(world.session == world.core.generation) ==>
        (turn.fate == Answered ==> cursorAfter.Some?) && (cursorAfter.None? ==> world.session == world.core.generation)
      ensures ProbeKept(old(breaker.State()), breaker.State())
      ensures Quiet(turn) && old(world.session == world.core.generation) ==>
        && world == Sent(old(world), turn.now) && cursorAfter == Some(|world.core.log|)
        && breaker.State() == old(breaker.State())
    {
      RecordAttempt(turn.now);
      var sent := |world.net| - 1;
      RunOthers(turn.during);
      cursorAfter := AwaitAnswer(sent, turn);
      if cursorAfter.None? { FenceQueue(turn.now); }
    }

    /** One call of the upload closure; an attempt that cannot be recorded sends nothing. */
    method SendOnce(turn: Turn) returns (cursorAfter: Option<int>, retryable: bool)
      requires Valid() && world.sender.Sending? && world.sender.items != []
      modifies this`world, this`steps, this`cursor, queue, breaker
      ensures Valid() && old(steps) <= steps
      ensures world.sender.Sending? && world.sender.items == old(world.sender.items)
      ensures cursorAfter.Some? ==> cursorAfter.value in world.answers
      ensures cursorAfter.None? ==> (retryable <==> turn.fate == StoreError || turn.fate == Lost || turn.fate == AnswerLost)
      ensures TurnTaken(old(world), world, turn)
      ensures turn.fate == StoreError ==> world.net == old(world.net)
      ensures turn.fate != StoreError ==>
        |world.net| == |old(world.net)| + 1 && Carries(world.net[|old(world.net)|], old(world.sender))
      ensures turn.fate != StoreError && cursorAfter.None? ==> forall row :: row in queue.rows ==> row.attempts > 0
      ensures cursorAfter.Some? ==> turn.fate == Answered
      ensures TurnIsLive(old(world), world, turn, cursorAfter.Some?)
      ensures ProbeKept(old(breaker.State()), breaker.State())
      ensures Quiet(turn) && old(world.session == world.core.generation) ==>
        && world == Sent(old(world), turn.now) && cursorAfter == Some(|world.core.log|)
        && breaker.State() == old(breaker.State())
    {
      RunOthers(turn.before);
      if turn.fate == StoreError { return None, true; }
      cursorAfter := SendRecorded(turn);
      return cursorAfter, turn.fate == Lost || turn.fate == AnswerLost;
    }

    /** The call after the first n of a retry that began in the state `start`. */
    method NextTurn(ghost start: System, turns: nat -> Turn, n: nat) returns (cursorAfter: Option<int>, retryable: bool)
      requires Valid() && Resent(start, world, turns, n) && StillLive(start, world, turns, n)
      modifies this`world, this`steps, this`cursor, queue, breaker
      ensures Valid() && old(steps) <= steps && Resent(start, world, turns, n + 1)
      ensures cursorAfter.Some? ==> cursorAfter.value in world.answers && TurnAt(turns, n).fate == Answered
      ensures cursorAfter.None? ==> StillLive(start, world, turns, n + 1) && (retryable <==> Transient(TurnAt(turns, n).fate))
      ensures AnswerReturned(start, turns, n, cursorAfter.Some?)
      ensures ProbeKept(old(breaker.State()), breaker.State())
      ensures Quiet(TurnAt(turns, n)) && old(world.session == world.core.generation) ==>
        && world == Sent(old(world), TurnAt(turns, n).now) && cursorAfter == Some(|world.core.log|)
        && breaker.State() == old(breaker.State())
    {
      ghost var before := world;
      cursorAfter, retryable := SendOnce(TurnAt(turns, n));
      ResentOnce(start, before, world, turns, n);
      LiveOnce(start, before, world, turns, n, cursorAfter.Some?);
    }

    /** The retry loop: `calls` counts the calls made. */
    method RetryTurns(turns: nat -> Turn) returns (cursorAfter: Option<int>, calls: nat)
      requires Valid() && world.sender.Sending? && world.sender.items != []
      modifies this`world, this`steps, this`cursor, queue, breaker
      ensures Valid() && old(steps) <= steps
      ensures world.sender.Sending? && world.sender.items == old(world.sender.items)
      ensures cursorAfter.Some? ==> cursorAfter.value in world.answers
      ensures ProbeKept(old(breaker.State()), breaker.State())
      ensures Repeats(old(world.net), world.net, old(world.sender))
      ensures |world.net| == |old(world.net)| + Requests(turns, calls)
      ensures Retried(turns, calls, config.maxAttempts, cursorAfter.Some?)
      ensures calls >= 1 ==> AnswerReturned(old(world), turns, calls - 1, cursorAfter.Some?)
      ensures calls == 0 ==> world == old(world)
      ensures config.maxAttempts >= 1 && Quiet(TurnAt(turns, 0)) && old(world.session == world.core.generation) ==>
        && world == Sent(old(world), TurnAt(turns, 0).now) && cursorAfter == Some(|world.core.log|)
        && breaker.State() == old(breaker.State())
    {
      hide Run, Requests, Repeats, Undisturbed;   // the lemmas about one more turn carry them along
      cursorAfter, calls := None, 0;
      ghost var start := world;
      NotYetSent(start, turns);
      while calls < config.maxAttempts
        invariant Valid() && old(steps) <= steps && Resent(start, world, turns, calls)
        invariant ProbeKept(old(breaker.State()), breaker.State())
        invariant cursorAfter.None? && (0 < calls ==> calls <= config.maxAttempts) && AllTransient(turns, calls)
        invariant StillLive(start, world, turns, calls)
        invariant calls == 0 ==> world == start && breaker.State() == old(breaker.State())
      {
        var retryable;
        cursorAfter, retryable := NextTurn(start, turns, calls);
        calls := calls + 1;
        if cursorAfter.Some? || !retryable { return; }
      }
    }

    /**
     The bounded retry around the upload closure. Failures of the moment are tried again up to the bound, any
     other failure ends it at once; and undisturbed, the first answer within the bound is returned.
     */
    method SendWithRetry(turns: nat -> Turn) returns (cursorAfter: Option<int>, calls: nat)
      requires Valid() && world.sender.Sending? && world.sender.items != []
      modifies this`world, this`steps, this`cursor, queue, breaker
      ensures Valid() && old(steps) <= steps
      ensures world.sender.Sending? && world.sender.items == old(world.sender.items)
      ensures cursorAfter.Some? ==> cursorAfter.value in world.answers
      ensures config.maxAttempts <= 0 ==> calls == 0 && cursorAfter.None? && world == old(world)
      ensures config.maxAttempts >= 1 ==> 1 <= calls <= config.maxAttempts
      ensures forall k: nat :: k + 1 < calls ==>
        turns(k).fate == StoreError || turns(k).fate == Lost || turns(k).fate == AnswerLost
      ensures calls >= 1 && (turns(calls - 1).fate == StoreError || turns(calls - 1).fate == Lost || turns(calls - 1).fate == AnswerLost)
        ==> calls == config.maxAttempts && cursorAfter.None?
      ensures calls >= 1 && cursorAfter.Some? ==> turns(calls - 1).fate == Answered
      ensures old(world.session == world.core.generation) ==>
        forall k: nat :: k < config.maxAttempts && AnsweredAt(turns, k) ==> cursorAfter.Some? && calls == k + 1
      ensures |world.net| == |old(world.net)| + Requests(turns, calls)
      ensures Repeats(old(world.net), world.net, old(world.sender))
      ensures ProbeKept(old(breaker.State()), breaker.State())
      ensures config.maxAttempts >= 1 && Quiet(turns(0)) && old(world.session == world.core.generation) ==>
        && world == Sent(old(world), turns(0).now) && cursorAfter == Some(|world.core.log|)
        && breaker.State() == old(breaker.State())
    {
      cursorAfter, calls := RetryTurns(turns);
      forall k: nat | k + 1 < calls
        ensures turns(k).fate == StoreError || turns(k).fate == Lost || turns(k).fate == AnswerLost
      {
        EachIsTransient(turns, calls - 1, k);
      }
      forall k: nat | k < config.maxAttempts && AnsweredAt(turns, k)
        ensures calls == k + 1 && Undisturbed(turns, calls) && turns(calls - 1).fate == Answered
      {
        FirstAnswerEndsIt(turns, calls, config.maxAttempts, cursorAfter.Some?, k);
      }
    }

    /** An exception inside the guarded part of a flush. */
    method FailFlush(now: int)
      requires Valid()
      modifies this`world, this`steps, breaker
      ensures Valid() && world.sender.Idle? && old(steps) <= steps
      ensures breaker.failureCount >= 1
      ensures breaker.State() == Fail(breaker.policy, old(breaker.State()), now) && breaker.mode != HalfOpen
      ensures world.net == old(world.net) && world.session == old(world.session)
    {
      Advance(GiveUp);
      BreakerFails(now);
    }

    /** `_complete_half_open_probe`: without an eligible payload, the heartbeat is the probe. */
    method CompleteProbe(permit: Permit, duringProbe: seq<Other>, succeeds: bool, now: int) returns (ok: bool)
      requires Valid() && world.sender.Idle?
      requires breaker.mode == HalfOpen ==> permit == Permit(breaker.generation, true)
      modifies this`world, this`steps, this`cursor, queue, breaker
      ensures Valid() && world.sender.Idle? && old(steps) <= steps
      ensures breaker.mode != HalfOpen
      ensures permit.halfOpenProbe ==> (ok <==> succeeds)
      ensures world.net == old(world.net) && (!ok ==> breaker.failureCount >= 1)
      ensures !permit.halfOpenProbe ==> ok && world == old(world) && queue.State() == old(queue.State()) && breaker.State() == old(breaker.State())
    {
      if !permit.halfOpenProbe { return true; }
      ExpireBySummary(now);
      RunOthers(duringProbe);
      if !succeeds {
        FailFlush(now);
        return false;
      }
      BreakerSucceeds(permit);
      return true;
    }

    /** The breaker is closed, all grants are held, and the protocol state is ready for `FlushOnce` at `now`. */
    ghost predicate Ready(now: int) reads this, queue, breaker {
      && Valid() && breaker.mode == Closed && InStep(world, now)
      && allowsInventory && allowsEvents && config.batchSize >= 1 && config.maxAttempts >= 1
    }

    /** Acknowledges the answer and redeems the permit; other threads may act in between. */
    method AcceptAnswer(cursorAfter: int, permit: Permit, beforeSuccess: seq<Other>)
      requires Valid() && world.sender.Sending? && cursorAfter in world.answers
      requires breaker.mode == HalfOpen ==> permit.generation == breaker.generation
      modifies this`world, this`steps, this`cursor, queue, breaker
      ensures Valid() && world.sender.Idle? && old(steps) <= steps
      ensures breaker.mode != HalfOpen
      ensures beforeSuccess == [] ==> cursor == cursorAfter
      ensures beforeSuccess == [] ==> breaker.State() == Succeed(old(breaker.State()), permit).0
      ensures beforeSuccess == [] ==> world == Finished(old(world), cursorAfter).(offline := breaker.mode != Closed)
    {
      queue.AcknowledgeThrough(cursorAfter);
      Advance(Finish(cursorAfter));
      cursor := cursorAfter;
      RunOthers(beforeSuccess);
      BreakerSucceeds(permit);
    }

    /** The guarded part of a flush, once the peeked head may be uploaded. */
    method UploadBatch(items: seq<Row>, permit: Permit, script: Script) returns (exit: FlushExit)
      requires Valid() && items != []
      requires world.sender.Sending? && world.sender.items == Batch(items)
      requires breaker.mode == HalfOpen ==> permit == Permit(breaker.generation, true)
      modifies this`world, this`steps, this`cursor, queue, breaker
      ensures Valid() && world.sender.Idle? && old(steps) <= steps
      ensures breaker.mode != HalfOpen
      ensures exit == Returned(true) || exit == Raised(UploadFailed)
      ensures exit == Returned(true) ==> exists k: nat :: k < config.maxAttempts && script.turns(k).fate == Answered
      ensures old(world.session == world.core.generation) ==>
        forall k: nat :: k < config.maxAttempts && AnsweredAt(script.turns, k) ==> exit == Returned(true)
      ensures exit.Raised? ==> breaker.failureCount >= 1
      ensures (&& Quiet(script.turns(0)) && script.beforeSuccess == []
               && config.maxAttempts >= 1 && old(world.session == world.core.generation)
               && old(breaker.mode) == Closed && permit.generation == old(breaker.generation)) ==>
        && exit == Returned(true) && breaker.mode == Closed
        && world == Settle(Sent(old(world), script.turns(0).now)).(offline := false)
    {
      BatchIsPrefix(items);
      if items[0].kind != Snapshot {
        var batch := ScanEvents(items);
        assert world.sender.items == batch;
      }
      var cursorAfter, calls := SendWithRetry(script.turns);
      if cursorAfter.None? {
        FailFlush(script.now);
        return Raised(UploadFailed);
      }
      AcceptAnswer(cursorAfter.value, permit, script.beforeSuccess);
      return Returned(true);
    }

    /** Peeks the queue and takes on the next batch if the session may upload its head. */
    method PeekHead(script: Script) returns (items: seq<Row>, eligible: bool)
      requires Valid() && world.sender.Idle? && world.session != 0
      modifies this`world, this`steps, queue
      ensures Valid() && old(steps) <= steps
      ensures eligible ==> items != [] && world.sender.Sending? && world.sender.items == Batch(items)
      ensures !eligible ==> world.sender.Idle?
      ensures items == Head(ExpireNow(old(world), script.now).q.rows, config.batchSize)
      ensures eligible <==> items != [] && !script.sessionCleared && (if items[0].kind == Snapshot then allowsInventory else allowsEvents)
      ensures world.net == old(world.net)
      ensures !script.sessionCleared && old(Ready(script.now)) ==> (eligible <==> old(world.q.rows) != [])
      ensures !script.sessionCleared && old(Ready(script.now)) && !eligible ==> items == [] && world == old(world)
      ensures !script.sessionCleared && old(Ready(script.now)) && eligible ==> world == Begun(old(world), config.batchSize, script.now)
    {
      items := queue.PeekAll(config.batchSize, script.now);
      eligible := items != [] && !script.sessionCleared && Eligible(items[0]);
      if eligible {
        BatchIsPrefix(items);
        Advance(Begin(config.batchSize, script.now));
      } else {
        Advance(Look(script.now));
      }
    }

    /** The upload of a batch that was taken from the state `before`. */
    method UploadHead(ghost before: System, items: seq<Row>, permit: Permit, script: Script) returns (exit: FlushExit)
      requires Valid() && items != [] && NoGap(before)
      requires world.sender.Sending? && world.sender.items == Batch(items)
      requires breaker.mode == HalfOpen ==> permit == Permit(breaker.generation, true)
      modifies this`world, this`steps, this`cursor, queue, breaker
      ensures Valid() && world.sender.Idle? && old(steps) <= steps
      ensures breaker.mode != HalfOpen
      ensures exit == Returned(true) || exit == Raised(UploadFailed)
      ensures old(world.session == world.core.generation) ==>
        forall k: nat :: k < config.maxAttempts && AnsweredAt(script.turns, k) ==> exit == Returned(true)
      ensures exit.Raised? ==> breaker.failureCount >= 1
      ensures (&& Calm(script) && InStep(before, script.now) && before.q.rows != []
               && config.batchSize >= 1 && config.maxAttempts >= 1
               && old(world) == Begun(before, config.batchSize, script.now)
               && old(breaker.mode) == Closed && permit.generation == old(breaker.generation)) ==>
        && exit == Returned(true) && breaker.mode == Closed
        && InStep(world, script.now) && OneBatchMoved(before, world, config.batchSize)
    {
      if InStep(before, script.now) && before.q.rows != [] && config.batchSize >= 1 {
        CalmBegin(before, config.batchSize, script.now);
        CalmFlush(before, config.batchSize, script.now, script.turns(0).now);
      }
      exit := UploadBatch(items, permit, script);
    }

    /** A flush without an eligible payload. */
    method FlushNothing(items: seq<Row>, permit: Permit, script: Script) returns (exit: FlushExit)
      requires Valid() && world.sender.Idle?
      requires breaker.mode == HalfOpen ==> permit == Permit(breaker.generation, true)
      modifies this`world, this`steps, this`cursor, queue, breaker
      ensures Valid() && world.sender.Idle? && old(steps) <= steps
      ensures exit == Raised(SessionGone) <==> items != [] && script.sessionCleared
      ensures exit == Raised(SessionGone) ==> breaker.State() == old(breaker.State())
      ensures breaker.mode == HalfOpen ==> exit == Raised(SessionGone)
      ensures world.net == old(world.net) && exit != Returned(true)
      ensures exit.Raised? && exit != Raised(SessionGone) ==> breaker.failureCount >= 1
      ensures !permit.halfOpenProbe ==> world == old(world) && breaker.State() == old(breaker.State())
      ensures !permit.halfOpenProbe && exit != Raised(SessionGone) ==> exit == Returned(false)
    {
      if items != [] && script.sessionCleared { return Raised(SessionGone); }
      var ok := CompleteProbe(permit, script.duringProbe, script.heartbeatSucceeds, script.now);
      return if ok then Returned(false) else Raised(HeartbeatFailed);
    }

    /** The rest of a flush after the peek, which was made in the state `before`. */
    method FlushPeeked(ghost before: System, items: seq<Row>, eligible: bool, permit: Permit, script: Script)
      returns (exit: FlushExit)
      requires Valid() && NoGap(before)
      requires eligible ==> items != [] && world.sender.Sending? && world.sender.items == Batch(items)
      requires !eligible ==> world.sender.Idle?
      requires breaker.mode == HalfOpen ==> permit == Permit(breaker.generation, true)
      modifies this`world, this`steps, this`cursor, queue, breaker
      ensures Valid() && world.sender.Idle? && old(steps) <= steps
      ensures breaker.mode == HalfOpen ==> exit == Raised(SessionGone)
      ensures !eligible ==> world.net == old(world.net) && exit != Returned(true)
      ensures exit.Raised? && exit != Raised(SessionGone) ==> breaker.failureCount >= 1
      ensures eligible && old(world.session == world.core.generation) ==>
        forall k: nat :: k < config.maxAttempts && AnsweredAt(script.turns, k) ==> exit == Returned(true)
      ensures exit == Raised(SessionGone) ==> script.sessionCleared && breaker.State() == old(breaker.State())
      ensures (&& Calm(script) && InStep(before, script.now) && config.batchSize >= 1 && config.maxAttempts >= 1
               && old(breaker.mode) == Closed && permit == Permit(old(breaker.generation), false)
               && (eligible <==> before.q.rows != []) && (!eligible ==> items == [])
               && old(world) == if eligible then Begun(before, config.batchSize, script.now) else before) ==>
        && exit == Returned(eligible) && breaker.mode == Closed
        && InStep(world, script.now) && OneBatchMoved(before, world, config.batchSize)
    {
      if eligible {
        exit := UploadHead(before, items, permit, script);
      } else {
        exit := FlushNothing(items, permit, script);
        if before.q.rows == [] { IdleFlush(before, config.batchSize); }
      }
    }

    /** A flush whose permit has been issued. */
    method FlushAllowed(permit: Permit, script: Script) returns (exit: FlushExit)
      requires Valid() && world.sender.Idle?
      requires breaker.mode == HalfOpen ==> permit == Permit(breaker.generation, true)
      modifies this`world, this`steps, this`cursor, queue, breaker
      ensures Valid() && world.sender.Idle? && old(steps) <= steps
      ensures breaker.mode == HalfOpen ==> exit == Raised(SessionGone)
      ensures old(world.session == 0) ==> exit == Raised(SessionNotReady)
      ensures old(world.session != 0) && script.peekFails ==> exit == Raised(PeekFailed)
      ensures !allowsInventory && !allowsEvents ==> world.net == old(world.net)
      ensures exit.Raised? && exit != Raised(SessionGone) ==> breaker.failureCount >= 1
      ensures !script.peekFails && !script.sessionCleared && old(Ready(script.now)) && old(world.q.rows) != [] ==>
        forall k: nat :: k < config.maxAttempts && AnsweredAt(script.turns, k) ==> exit == Returned(true)
      ensures exit == Raised(SessionGone) ==> script.sessionCleared && breaker.State() == old(breaker.State())
      ensures Calm(script) && old(Ready(script.now)) && permit == Permit(old(breaker.generation), false) ==>
        && exit == Returned(old(world.q.rows) != []) && Ready(script.now)
        && OneBatchMoved(old(world), world, config.batchSize)
    {
      if world.session == 0 || script.peekFails {
        FailFlush(script.now);
        return Raised(if world.session == 0 then SessionNotReady else PeekFailed);
      }
      ghost var before := world;
      assert NoGap(before) by { RunKeepsNoGap(Init(queue.limits), steps); }
      var items, eligible := PeekHead(script);
      if InStep(before, script.now) && before.q.rows != [] && config.batchSize >= 1 {
        CalmBegin(before, config.batchSize, script.now);
      }
      exit := FlushPeeked(before, items, eligible, permit, script);
    }

    /**
     One flush. Whatever other threads do meanwhile, it ends with the probe given back, unless shutdown cleared
     the session in its one unguarded window; and when the way is clear it moves exactly one batch to Core.
     */
    method FlushOnce(script: Script) returns (exit: FlushExit)
      requires Valid() && world.sender.Idle?
      modifies this`world, this`steps, this`cursor, queue, breaker
      ensures Valid() && world.sender.Idle? && old(steps) <= steps
      ensures old(breaker.mode) == HalfOpen ==> exit == Returned(false) && breaker.State() == old(breaker.State())
      ensures old(breaker.mode) != HalfOpen && breaker.mode == HalfOpen ==> exit == Raised(SessionGone)
      ensures exit == Raised(SessionGone) ==> script.sessionCleared
      ensures !allowsInventory && !allowsEvents ==> world.net == old(world.net)
      ensures exit.Raised? && exit != Raised(SessionGone) ==> breaker.failureCount >= 1
      ensures script.afterAllow == [] && !script.peekFails && !script.sessionCleared
              && old(Ready(script.now)) && old(world.q.rows) != [] ==>
        forall k: nat :: k < config.maxAttempts && AnsweredAt(script.turns, k) ==> exit == Returned(true)
      ensures exit == Raised(SessionGone) && script.afterAllow == [] ==>
        breaker.State() == Allow(breaker.policy, old(breaker.State()), script.now).0
      ensures Calm(script) && old(Ready(script.now)) ==>
        && exit == Returned(old(world.q.rows) != []) && Ready(script.now)
        && OneBatchMoved(old(world), world, config.batchSize)
    {
      var issued := breaker.TryAllow(script.now);
      NoteBreaker();
      if issued.None? { return Returned(false); }
      RunOthers(script.afterAllow);
      exit := FlushAllowed(issued.value, script);
    }

    /** The k-th flush with the way clear. */
    method FlushCalmly(clock: nat -> int, k: nat) returns (exit: FlushExit)
      requires Ready(clock(k)) && NeverStale(world, clock)
      modifies this`world, this`steps, this`cursor, queue, breaker
      ensures Ready(clock(k)) && Ready(clock(k + 1)) && NeverStale(world, clock) && old(steps) <= steps
      ensures exit == Returned(old(world.q.rows) != []) && OneBatchMoved(old(world), world, config.batchSize)
    {
      ghost var before := world;
      exit := FlushOnce(CalmScript(clock(k)));
      forall i ensures !Stale(world, clock(i)) { StaysFresh(before, world, config.batchSize, clock(i)); }
    }

    /**
     The upload loop up to its first idle flush, with a reliable Core and nobody else adding items. The clock
     is read anew for each flush, and at none of its readings is an item too old.
     */
    method UploadUntilIdle(clock: nat -> int) returns (flushes: nat)
      requires Ready(clock(0)) && NeverStale(world, clock)
      modifies this`world, this`steps, this`cursor, queue, breaker
      ensures Ready(clock(flushes)) && old(steps) <= steps
      ensures queue.rows == [] && world.core.log == old(world.core.log) + Payloads(old(queue.rows))
      ensures flushes == |Batches(old(queue.rows), config.batchSize)| <= |old(queue.rows)|
    {
      flushes := 0;
      ghost var start := world;
      NothingDrained(start.q.rows, start.core.log);
      while true
        invariant old(steps) <= steps && Ready(clock(flushes)) && NeverStale(world, clock)
        invariant DrainedBy(start, world, config.batchSize, flushes)
        decreases |world.q.rows|
      {
        ghost var before := world;
        var exit := FlushCalmly(clock, flushes);
        if exit == Returned(false) {
          LastFlush(start, before, world, config.batchSize, flushes);
          break;
        }
        NextFlush(start, before, world, config.batchSize, flushes);
        flushes := flushes + 1;
      }
      BatchesPartition(start.q.rows, config.batchSize);
    }

    function Eligible(first: Row): bool reads this {
      if first.kind == Snapshot then allowsInventory else allowsEvents
    }
  }

  function CalmScript(now: int): Script {
    Script(now, [], false, false, [], true, (k: nat) => Turn([], now, [], Answered, []), [])
  }

  /** The batches a queue is uploaded in when nothing interferes. */
  function Batches(rows: seq<Row>, limit: int): seq<seq<Row>>
    requires limit >= 1
    decreases |rows|
  {
    if rows == [] then []
    else
      BatchIsPrefix(Head(rows, limit));
      var batch := Batch(Head(rows, limit));
      [batch] + Batches(rows[|batch|..], limit)
  }

  function Flatten(parts: seq<seq<Row>>): seq<Row> {
    if parts == [] then [] else parts[0] + Flatten(parts[1..])
  }

  /** The batches are non-empty, within the limit, and concatenate to the queue in order. */
  lemma {:induction false} BatchesPartition(rows: seq<Row>, limit: int)
    requires limit >= 1
    ensures Flatten(Batches(rows, limit)) == rows
    ensures |Batches(rows, limit)| <= |rows|
    ensures forall b :: b in Batches(rows, limit) ==> 1 <= |b| <= limit
    decreases |rows|
  {
    if rows != [] {
      BatchIsPrefix(Head(rows, limit));
      var batch := Batch(Head(rows, limit));
      BatchesPartition(rows[|batch|..], limit);
      assert rows == batch + rows[|batch|..];
    }
  }

  /** After some flushes the queue is a suffix of what it was and Core's log has grown by the rest. */
  ghost predicate Drained(all: seq<Row>, rows: seq<Row>, before: seq<Payload>, log: seq<Payload>) {
    |rows| <= |all| && rows == all[|all| - |rows|..] && log == before + Payloads(all[..|all| - |rows|])
  }

  lemma NothingDrained(all: seq<Row>, log: seq<Payload>)
    ensures Drained(all, all, log, log)
  {
    assert Payloads(all[..0]) == [];
  }

  lemma AllDrained(all: seq<Row>, before: seq<Payload>, log: seq<Payload>)
    requires Drained(all, [], before, log)
    ensures log == before + Payloads(all)
  {
    assert all[..|all|] == all;
  }

  lemma MoreDrained(all: seq<Row>, rows: seq<Row>, before: seq<Payload>, log: seq<Payload>, batch: seq<Row>)
    requires Drained(all, rows, before, log) && batch <= rows
    ensures Drained(all, rows[|batch|..], before, log + Payloads(batch))
  {
    var n := |all| - |rows|;
    PayloadsSplit(all, n, batch, rows);
    assert before + (Payloads(all[..n]) + Payloads(batch)) == (before + Payloads(all[..n])) + Payloads(batch);
  }

  lemma OneMoreBatch(all: seq<Row>, rows: seq<Row>, before: seq<Payload>, log: seq<Payload>, limit: int)
    requires limit >= 1 && Drained(all, rows, before, log) && rows != []
    ensures var batch := Batch(Head(rows, limit));
      && 1 <= |batch| <= |rows|
      && Drained(all, rows[|batch|..], before, log + Payloads(batch))
      && |Batches(rows, limit)| == 1 + |Batches(rows[|batch|..], limit)|
  {
    var batch := Batch(Head(rows, limit));
    BatchIsPrefix(Head(rows, limit));
    MoreDrained(all, rows, before, log, batch);
  }

  ghost predicate DrainedBy(start: System, w: System, limit: int, flushes: nat)
    requires limit >= 1
  {
    && Drained(start.q.rows, w.q.rows, start.core.log, w.core.log)
    && flushes + |Batches(w.q.rows, limit)| == |Batches(start.q.rows, limit)|
  }

  /** An idle flush found everything drained. */
  lemma LastFlush(start: System, s: System, t: System, limit: int, flushes: nat)
    requires limit >= 1 && OneBatchMoved(s, t, limit) && DrainedBy(start, s, limit, flushes) && s.q.rows == []
    ensures t.q.rows == [] && t.core.log == s.core.log == start.core.log + Payloads(start.q.rows)
    ensures flushes == |Batches(start.q.rows, limit)|
  {
    AllDrained(start.q.rows, start.core.log, s.core.log);
    assert Payloads([]) == [] && Batch(Head(s.q.rows, limit)) == [];
  }

  lemma NextFlush(start: System, s: System, t: System, limit: int, flushes: nat)
    requires limit >= 1 && OneBatchMoved(s, t, limit) && DrainedBy(start, s, limit, flushes) && s.q.rows != []
    ensures DrainedBy(start, t, limit, flushes + 1) && |t.q.rows| < |s.q.rows|
  {
    OneMoreBatch(start.q.rows, s.q.rows, start.core.log, s.core.log, limit);
  }

  lemma PayloadsSplit(all: seq<Row>, n: nat, batch: seq<Row>, rest: seq<Row>)
    requires n <= |all| && rest == all[n..] && batch <= rest
    ensures rest[|batch|..] == all[n + |batch|..]
    ensures Payloads(all[..n + |batch|]) == Payloads(all[..n]) + Payloads(batch)
  {
    assert all[..n + |batch|] == all[..n] + batch;
  }

  /** An upload that Core processes at once. */
  function Sent(s: System, now: int): System {
    var t := Tries(s, now);
    if t.net == [] then t else Delivered(t, |t.net| - 1)
  }

  /** Core's latest answer is acknowledged. */
  function Settle(s: System): System { Finished(s, |s.core.log|) }

  /** Between flushes, with a live session, in step with Core's cursor and nothing aged out. */
  predicate InStep(s: System, now: int) {
    && s.sender.Idle? && s.session != 0 && s.session == s.core.generation
    && |s.core.log| == s.q.acknowledged && !Stale(s, now)
  }

  /** The next batch moved from the head of the queue to the end of Core's log, and nothing else changed there. */
  predicate OneBatchMoved(s: System, t: System, limit: int) {
    var batch := Batch(Head(s.q.rows, limit));
    && batch <= s.q.rows && (s.q.rows != [] ==> batch != [])
    && t.q.rows == s.q.rows[|batch|..]
    && t.core.log == s.core.log + Payloads(batch)
  }

  lemma CalmBegin(s: System, limit: int, now: int)
    requires NoGap(s) && InStep(s, now) && limit >= 1 && s.q.rows != []
    ensures var batch, b := Batch(Head(s.q.rows, limit)), Begun(s, limit, now);
      && batch != [] && batch <= s.q.rows
      && b == s.(sender := Sending(batch, MaxAttempts(batch), AnyReplay(batch)))
  {
    BatchIsPrefix(Head(s.q.rows, limit));
  }

  lemma CalmSend(s: System, batch: seq<Row>, now: int)
    requires NoGap(s) && s.session == s.core.generation && |s.core.log| == s.q.acknowledged
    requires s.sender.Sending? && s.sender.items == batch && batch <= s.q.rows && batch != []
    ensures var t := Sent(s, now);
      && t.core == s.core.(log := s.core.log + Payloads(batch))
      && t.q == MarkAttempted(s.q, Sequences(batch), now)
      && t.sender.Sending? && |t.core.log| in t.answers
      && t.session == s.session && t.limits == s.limits
  {
    assert NewMessage(s).items[0..] == Payloads(batch);
  }

  lemma SameSuffix(a: seq<Row>, b: seq<Row>, k: nat)
    requires |a| == |b| && k <= |a| && forall i :: k <= i < |a| ==> a[i] == b[i]
    ensures a[k..] == b[k..]
  {
  }

  /** Only the batch's rows were marked, and exactly those are acknowledged. */
  lemma CalmSettle(q: QueueState, batch: seq<Row>, now: int)
    requires Consistent(q) && batch <= q.rows
    ensures var r := Acknowledge(MarkAttempted(q, Sequences(batch), now), q.acknowledged + |batch|);
      r.rows == q.rows[|batch|..] && r.acknowledged == q.acknowledged + |batch|
  {
    var marked := MarkAttempted(q, Sequences(batch), now);
    AcknowledgeKeepsConsistent(marked, q.acknowledged + |batch|);
    forall i | |batch| <= i < |q.rows| ensures marked.rows[i] == q.rows[i] {
      assert forall k :: 0 <= k < |batch| ==> batch[k] == q.rows[k];
      assert q.rows[i].sequence !in Sequences(batch);
    }
    SameSuffix(marked.rows, q.rows, |batch|);
  }

  /** With the way clear, a flush moves exactly the batch from the head of the queue to the end of Core's log. */
  lemma CalmFlush(s: System, limit: int, now: int, sendNow: int)
    requires NoGap(s) && InStep(s, now) && limit >= 1 && s.q.rows != []
    ensures var t := Settle(Sent(Begun(s, limit, now), sendNow));
      OneBatchMoved(s, t, limit) && InStep(t.(offline := false), now)
  {
    var batch, b := Batch(Head(s.q.rows, limit)), Begun(s, limit, now);
    CalmBegin(s, limit, now);
    BeginKeepsNoGap(s, limit, now);
    CalmSend(b, batch, sendNow);
    var x := Sent(b, sendNow);
    SettleAcknowledges(x);
    CalmEnds(s, batch, x, Settle(x), now, sendNow);
  }

  /** The batch was sent and logged in `x` and acknowledged in `t`. */
  lemma CalmEnds(s: System, batch: seq<Row>, x: System, t: System, now: int, sendNow: int)
    requires NoGap(s) && InStep(s, now) && batch <= s.q.rows
    requires x.core == s.core.(log := s.core.log + Payloads(batch)) && x.q == MarkAttempted(s.q, Sequences(batch), sendNow)
    requires t.core == x.core && t.q == Acknowledge(x.q, |x.core.log|)
    requires t.sender == Idle && t.session == s.session && t.limits == s.limits
    ensures t.q.rows == s.q.rows[|batch|..] && t.core.log == s.core.log + Payloads(batch)
    ensures InStep(t.(offline := false), now)
  {
    CalmSettle(s.q, batch, sendNow);
    SuffixIsFresh(s.q.rows, |batch|, now - s.limits.maxAge);
  }

  /** At no reading of the clock is a queued item too old. */
  ghost predicate NeverStale(s: System, clock: nat -> int) { forall k :: !Stale(s, clock(k)) }

  /** A flush leaves only rows that were already there. */
  lemma StaysFresh(s: System, t: System, limit: int, now: int)
    requires !Stale(s, now) && OneBatchMoved(s, t, limit) && t.limits == s.limits
    ensures !Stale(t, now)
  {
    SuffixIsFresh(s.q.rows, |Batch(Head(s.q.rows, limit))|, now - s.limits.maxAge);
  }

  lemma IdleFlush(s: System, limit: int)
    requires s.q.rows == []
    ensures OneBatchMoved(s, s, limit)
  {
  }

  lemma SettleAcknowledges(s: System)
    requires s.sender.Sending? && |s.core.log| in s.answers
    ensures var t := Settle(s);
      && t.q == Acknowledge(s.q, |s.core.log|) && t.sender == Idle
      && t.core == s.core && t.session == s.session && t.limits == s.limits
  {
  }

  lemma SuffixIsFresh(rows: seq<Row>, k: nat, cutoff: int)
    requires !AnyOlder(rows, cutoff) && k <= |rows|
    ensures !AnyOlder(rows[k..], cutoff)
  {
  }

  /** Admission changes the queue as `enqueue` does and leaves the upload thread and the network alone. */
  lemma AdmitOnlyQueues(s: System, kind: Kind, id: Option<string>, byteSize: nat, now: int)
    ensures var (t, outcome) := Admit(s, kind, id, byteSize, now);
      && (t.q, outcome) == Enqueue(s.q, s.limits, kind, NewPayload(s, id, now), byteSize, now)
      && t.sender == s.sender && t.net == s.net && t.answers == s.answers && t.offline == s.offline && t.limits == s.limits
  {
  }

  lemma LimitsAreFixed(s: System, step: Step)
    ensures Apply(s, step).limits == s.limits
  {
  }

  lemma {:induction false} LimitsStayFixed(s: System, steps: seq<Step>)
    ensures Run(s, steps).limits == s.limits
    decreases |steps|
  {
    if steps != [] {
      LimitsAreFixed(s, steps[0]);
      LimitsStayFixed(Apply(s, steps[0]), steps[1..]);
    }
  }

  /** In every reachable state a snapshot that fits into the queue becomes its last row. */
  lemma SnapshotThatFits(limits: Limits, steps: seq<Step>, byteSize: nat, now: int)
    requires SumBytes(Run(Init(limits), steps).q.rows) + byteSize <= limits.maxBytes
    ensures var (t, outcome) := Admit(Run(Init(limits), steps), Snapshot, None, byteSize, now);
      outcome.Accepted? && t.q.rows != [] && t.q.rows[|t.q.rows| - 1].kind == Snapshot
  {
    RunKeepsNoGap(Init(limits), steps);
    LimitsStayFixed(Init(limits), steps);
    AdmitCases(Run(Init(limits), steps), Snapshot, None, byteSize, now);
  }

  /** Later steps only add to the history. */
  lemma HistoryIsKept(limits: Limits, before: seq<Step>, steps: seq<Step>)
    requires before <= steps
    ensures Run(Init(limits), before).history <= Run(Init(limits), steps).history
  {
    var rest := steps[|before|..];
    assert steps == before + rest;
    RunOfConcatenation(Init(limits), before, rest);
    DeliveryLabels.RunExtends(Run(Init(limits), before), rest);
  }
}
