/**
 The store-and-forward protocol as one state machine: the queue, the single upload thread, the network
 and Core. A run interleaves the steps below in any order. Core and the network are the environment:
 an upload may never arrive, arrive late or more than once, and its answer may be lost; the cursor an
 answer carries may be read long after it was given.
 */
module UplinkProtocol {
  import opened Wrappers
  import opened UplinkQueue

  /** An upload request, stamped with the session generation and the history length at sending time. */
  datatype Message = Message(generation: nat, sentAt: nat, start: int, items: seq<Payload>, replay: bool)

  /** Core's log; its uplink cursor is the log's length. Only the latest session generation is served. */
  datatype Core = Core(log: seq<Payload>, generation: nat)

  /** The upload thread: between flushes, or retrying one batch (`attempt` is the closure's counter). */
  datatype Sender = Idle | Sending(items: seq<Row>, attempt: nat, queuedAsReplay: bool)

  datatype HistoryEvent =
    | Admitted(kind: Kind, offline: bool)  // an item was accepted; its id is the event's position
    | Refused                              // an item was rejected for capacity
    | Dropped(ids: seq<nat>)               // rows were discarded by expiry or resynchronisation
    | Acked(ids: seq<nat>)                 // rows were removed by an acknowledgement or cursor sync
    | Tried(ids: seq<nat>)                 // a delivery attempt of these items started
    | Failed                               // an upload failed or its outcome stayed unknown
    | Reopened                             // the process restarted

  datatype System = System(
    q: QueueState,
    limits: Limits,
    offline: bool,           // the breaker is not closed
    core: Core,
    session: nat,            // generation of the client's session, 0 for none
    sender: Sender,
    net: seq<Message>,       // everything ever sent
    answers: set<int>,       // every cursor Core has ever reported
    ledger: seq<Payload>,  // the payload currently assigned to sequence i + 1
    history: seq<HistoryEvent>)

  datatype Step =
    | Collect(kind: Kind, sourceEventId: Option<string>, byteSize: nat, now: int)
    | Clear(snapshot: nat)
    | Look(now: int)
    | Begin(limit: int, now: int)
    | Attempt(now: int)
    | Deliver(message: nat)
    | FailAttempt(now: int)
    | Finish(cursorAfter: int)
    | GiveUp
    | Connect(answered: bool)
    | Sync(cursor: int)
    | SetBreaker(offline: bool)
    | Restart

  function Init(limits: Limits): System {
    System(FRESH, limits, false, Core([], 0), 0, Idle, [], {}, [], [])
  }

  // ---------- the upload thread's batch ----------

  /** The scan of `_contiguous_events`: it stops at a snapshot, a gap, or a source id already in the batch. */
  function CutEvents(items: seq<Row>, expected: int, seen: set<Option<string>>): seq<Row> {
    if items == [] || items[0].kind != Event || items[0].sequence != expected
       || items[0].payload.sourceEventId in seen then []
    else [items[0]] + CutEvents(items[1..], expected + 1, seen + {items[0].payload.sourceEventId})
  }

  function ContiguousEvents(items: seq<Row>): seq<Row> {
    if items == [] then [] else CutEvents(items, items[0].sequence, {})
  }

  function Batch(items: seq<Row>): seq<Row> {
    if items != [] && items[0].kind == Snapshot then items[..1] else ContiguousEvents(items)
  }

  function MaxAttempts(items: seq<Row>): nat {
    if items == [] then 0
    else
      var rest := MaxAttempts(items[1..]);
      if items[0].attempts > rest then items[0].attempts else rest
  }

  predicate AnyReplay(items: seq<Row>) { exists i :: 0 <= i < |items| && items[i].payload.replay }

  function Sequences(items: seq<Row>): (r: seq<int>)
    ensures |r| == |items|
    ensures forall i :: 0 <= i < |items| ==> r[i] == items[i].sequence
  {
    seq(|items|, i requires 0 <= i < |items| => items[i].sequence)
  }

  function Payloads(items: seq<Row>): (r: seq<Payload>)
    ensures |r| == |items|
    ensures forall i :: 0 <= i < |items| ==> r[i] == items[i].payload
  {
    seq(|items|, i requires 0 <= i < |items| => items[i].payload)
  }

  function Ids(items: seq<Row>): (r: seq<nat>)
    ensures |r| == |items|
    ensures forall i :: 0 <= i < |items| ==> r[i] == items[i].payload.id
  {
    seq(|items|, i requires 0 <= i < |items| => items[i].payload.id)
  }

  // ---------- Core ----------

  /** Core refuses a batch that starts beyond its cursor + 1 and ignores sequences it has already seen. */
  function CoreAccepts(log: seq<Payload>, m: Message): Result<seq<Payload>, string> {
    if m.start > |log| + 1 then Err("Hub uplink sequence gap")
    else
      var seen := |log| + 1 - m.start;
      Ok(if seen >= |m.items| then log else log + m.items[seen..])
  }

  // ---------- the steps ----------

  function Take(s: seq<Payload>, n: int): seq<Payload> {
    if n <= 0 then [] else if n >= |s| then s else s[..n]
  }

  predicate Stale(s: System, now: int) { AnyOlder(s.q.rows, now - s.limits.maxAge) }

  function ExpireNow(s: System, now: int): System {
    if !Stale(s, now) then s
    else
      s.(q := Expire(s.q, s.limits, now),
         ledger := Take(s.ledger, s.q.acknowledged),
         history := s.history + [Dropped(Ids(s.q.rows))])
  }

  /** `enqueue_event` and `enqueue_snapshot`: the item is labelled replay when the breaker is not closed. */
  function NewPayload(s: System, sourceEventId: Option<string>, now: int): Payload {
    Payload(|ExpireNow(s, now).history|, sourceEventId, s.offline)
  }

  function Admit(s: System, kind: Kind, sourceEventId: Option<string>, byteSize: nat, now: int)
    : (System, EnqueueOutcome)
  {
    var e := ExpireNow(s, now);
    var payload := NewPayload(s, sourceEventId, now);
    var (q, outcome) := Enqueue(s.q, s.limits, kind, payload, byteSize, now);
    match outcome
    case Conflict => (s, outcome)
    case Rejected(_) => (e.(q := q, history := e.history + [Refused]), outcome)
    case Accepted(sequence) =>
      (e.(q := q,
          ledger := Take(e.ledger, sequence - 1) + [payload],
          history := e.history + [Admitted(kind, s.offline)]),
       outcome)
  }

  predicate AcceptedSnapshot(h: seq<HistoryEvent>, id: int) {
    0 <= id < |h| && h[id].Admitted? && h[id].kind == Snapshot
  }

  /**
   `mark_reconciliation_queued`: the second half of `enqueue_reconciliation_if_needed`, a transaction of its
   own that follows the admission of the snapshot `id`.
   */
  function Cleared(s: System, id: nat): System {
    if AcceptedSnapshot(s.history, id) then s.(q := s.q.(reconciliation := false)) else s
  }

  function Begun(s: System, limit: int, now: int): System {
    if s.sender.Sending? || s.session == 0 then s
    else
      var e := ExpireNow(s, now);
      var items := Batch(Head(e.q.rows, limit));
      if items == [] then e else e.(sender := Sending(items, MaxAttempts(items), AnyReplay(items)))
  }

  function NewMessage(s: System): Message
    requires s.sender.Sending? && s.sender.items != []
  {
    Message(s.session, |s.history|, s.sender.items[0].sequence, Payloads(s.sender.items),
            s.sender.queuedAsReplay || s.sender.attempt > 0)
  }

  function Tries(s: System, now: int): System {
    if s.sender.Idle? || s.sender.items == [] then s
    else
      s.(q := MarkAttempted(s.q, Sequences(s.sender.items), now),
         net := s.net + [NewMessage(s)],
         sender := s.sender.(attempt := s.sender.attempt + 1),
         history := s.history + [Tried(Ids(s.sender.items))])
  }

  function Delivered(s: System, i: nat): System {
    if i >= |s.net| || s.net[i].generation != s.core.generation then s
    else
      match CoreAccepts(s.core.log, s.net[i])
      case Err(_) => s
      case Ok(log) => s.(core := s.core.(log := log), answers := s.answers + {|log|})
  }

  function Failing(s: System, now: int): System {
    if s.sender.Idle? || s.sender.attempt == 0 then s
    else s.(q := MarkUncertain(s.q, now), history := s.history + [Failed])
  }

  function UpTo(rows: seq<Row>, s: int): seq<Row> {
    if rows == [] then []
    else if rows[0].sequence <= s then [rows[0]] + UpTo(rows[1..], s)
    else UpTo(rows[1..], s)
  }

  function Finished(s: System, c: int): System {
    if s.sender.Idle? || c !in s.answers then s
    else
      s.(q := Acknowledge(s.q, c), sender := Idle, history := s.history + [Acked(Ids(UpTo(s.q.rows, c)))])
  }

  function Connected(s: System, answered: bool): System {
    var core := s.core.(generation := s.core.generation + 1);
    if answered then s.(core := core, session := core.generation, answers := s.answers + {|core.log|})
    else s.(core := core)
  }

  predicate Discards(q: QueueState, c: int) { !CountsAsContiguous(After(q.rows, c), c) }

  function Synced(s: System, c: int): System {
    if c !in s.answers || c < 0 then s
    else
      var q := Synchronize(s.q, c);
      var removed := s.history + [Acked(Ids(UpTo(s.q.rows, c)))];
      s.(q := q,
         ledger := Take(s.ledger, q.nextSequence - 1),
         history := if Discards(s.q, c) then removed + [Dropped(Ids(After(s.q.rows, c)))] else removed)
  }

  function Restarted(s: System): System {
    s.(q := Reopen(s.q), sender := Idle, session := 0, offline := false, history := s.history + [Reopened])
  }

  function Apply(s: System, step: Step): System {
    match step
    case Collect(kind, id, byteSize, now) => Admit(s, kind, id, byteSize, now).0
    case Clear(snapshot) => Cleared(s, snapshot)
    case Look(now) => ExpireNow(s, now)
    case Begin(limit, now) => Begun(s, limit, now)
    case Attempt(now) => Tries(s, now)
    case Deliver(i) => Delivered(s, i)
    case FailAttempt(now) => Failing(s, now)
    case Finish(c) => Finished(s, c)
    case GiveUp => s.(sender := Idle)
    case Connect(answered) => Connected(s, answered)
    case Sync(c) => Synced(s, c)
    case SetBreaker(offline) => s.(offline := offline)
    case Restart => Restarted(s)
  }

  function Run(s: System, steps: seq<Step>): System
    decreases |steps|
  {
    if steps == [] then s else Run(Apply(s, steps[0]), steps[1..])
  }

  lemma {:induction false} RunOfConcatenation(s: System, a: seq<Step>, b: seq<Step>)
    ensures Run(s, a + b) == Run(Run(s, a), b)
    decreases |a|
  {
    if a == [] {
      assert a + b == b;
    } else {
      assert (a + b)[1..] == a[1..] + b;
      RunOfConcatenation(Apply(s, a[0]), a[1..], b);
    }
  }

  // ---------- no gap, ever ----------

  predicate Sendable(items: seq<Row>, cursor: nat) {
    items != [] && Consecutive(items, items[0].sequence) && 1 <= items[0].sequence <= cursor + 1
  }

  /**
   The ACK cursor never passes Core's, the rows are exactly the interval above it, and nothing sent or
   about to be sent starts beyond Core's cursor + 1.
   */
  ghost predicate NoGap(s: System) {
    && Consistent(s.q)
    && 0 <= s.q.acknowledged <= |s.core.log|
    && (forall i :: 0 <= i < |s.net| ==> 1 <= s.net[i].start <= |s.core.log| + 1 && s.net[i].items != [])
    && (s.sender.Sending? ==> Sendable(s.sender.items, |s.core.log|))
    && (forall c :: c in s.answers ==> 0 <= c <= |s.core.log|)
  }

  lemma {:induction false} CutIsPrefix(items: seq<Row>, expected: int, seen: set<Option<string>>)
    ensures CutEvents(items, expected, seen) <= items
    ensures Consecutive(CutEvents(items, expected, seen), expected)
    ensures forall i :: 0 <= i < |CutEvents(items, expected, seen)| ==> items[i].kind == Event
  {
    if CutEvents(items, expected, seen) != [] {
      CutIsPrefix(items[1..], expected + 1, seen + {items[0].payload.sourceEventId});
      assert items == [items[0]] + items[1..];
    }
  }

  lemma BatchIsPrefix(items: seq<Row>)
    ensures Batch(items) <= items
    ensures items != [] ==> Batch(items) != []
    ensures items != [] ==> Consecutive(Batch(items), items[0].sequence)
  {
    if items != [] { CutIsPrefix(items, items[0].sequence, {}); }
  }

  lemma {:induction false} MaxIsPositiveIffAny(items: seq<Row>)
    ensures MaxAttempts(items) > 0 <==> exists i :: 0 <= i < |items| && items[i].attempts > 0
  {
    if items != [] {
      MaxIsPositiveIffAny(items[1..]);
      if i :| 0 <= i < |items| && items[i].attempts > 0 { assert i > 0 ==> items[1..][i - 1] == items[i]; }
      if i :| 0 <= i < |items[1..]| && items[1..][i].attempts > 0 { assert items[i + 1] == items[1..][i]; }
    }
  }

  /** The first request of a batch is labelled replay exactly when one of its items was attempted or queued as replay. */
  lemma FirstRequestLabel(s: System, limit: int, now: int)
    requires s.sender.Idle? && Begun(s, limit, now).sender.Sending?
    ensures var b := Begun(s, limit, now);
      && b.sender.items != []
      && (NewMessage(b).replay <==>
            exists i :: 0 <= i < |b.sender.items| && (b.sender.items[i].attempts > 0 || b.sender.items[i].payload.replay))
  {
    MaxIsPositiveIffAny(Batch(Head(ExpireNow(s, now).q.rows, limit)));
  }

  /** The acknowledged rows are exactly those up to the cursor. */
  lemma {:induction false} UpToIsSelection(rows: seq<Row>, c: int)
    ensures forall r :: r in UpTo(rows, c) <==> r in rows && r.sequence <= c
  {
    if rows != [] {
      UpToIsSelection(rows[1..], c);
      assert rows == [rows[0]] + rows[1..];
    }
  }

  lemma AdmitKeepsNoGap(s: System, kind: Kind, id: Option<string>, byteSize: nat, now: int)
    requires NoGap(s)
    ensures NoGap(ExpireNow(s, now)) && NoGap(Admit(s, kind, id, byteSize, now).0)
    ensures !Admit(s, kind, id, byteSize, now).1.Conflict?
  {
    EnqueueKeepsConsistent(s.q, s.limits, kind, NewPayload(s, id, now), byteSize, now);
  }

  function RefusedItem(e: System): System {
    e.(q := RecordDrop(e.q, 1), history := e.history + [Refused])
  }

  function AdmittedItem(e: System, row: Row): System {
    e.(q := e.q.(rows := e.q.rows + [row], nextSequence := e.q.nextSequence + 1),
       ledger := Take(e.ledger, row.sequence - 1) + [row.payload],
       history := e.history + [Admitted(row.kind, e.offline)])
  }

  function AdmittedRow(s: System, kind: Kind, id: Option<string>, byteSize: nat, now: int): Row {
    NewRow(ExpireNow(s, now).q.nextSequence, kind, NewPayload(s, id, now), byteSize, now)
  }

  /** On a consistent queue, admission expires, then refuses or appends one row at the end. */
  lemma AdmitCases(s: System, kind: Kind, id: Option<string>, byteSize: nat, now: int)
    requires NoGap(s)
    ensures var e := ExpireNow(s, now);
      if Fits(e.q, s.limits, byteSize) then
        && Admit(s, kind, id, byteSize, now).0 == AdmittedItem(e, AdmittedRow(s, kind, id, byteSize, now))
        && Admit(s, kind, id, byteSize, now).1.Accepted?
      else
        && Admit(s, kind, id, byteSize, now).0 == RefusedItem(e)
        && Admit(s, kind, id, byteSize, now).1.Rejected?
  {
    EnqueueKeepsConsistent(s.q, s.limits, kind, NewPayload(s, id, now), byteSize, now);
  }

  lemma BeginKeepsNoGap(s: System, limit: int, now: int)
    requires NoGap(s)
    ensures NoGap(Begun(s, limit, now))
  {
    AdmitKeepsNoGap(s, Event, None, 0, now);
    BatchIsPrefix(Head(ExpireNow(s, now).q.rows, limit));
  }

  lemma SyncKeepsNoGap(s: System, c: int)
    requires NoGap(s)
    ensures NoGap(Synced(s, c))
  {
    if c >= 0 { SynchronizeStabilises(s.q, c); }
  }

  lemma DeliverKeepsNoGap(s: System, i: nat)
    requires NoGap(s)
    ensures NoGap(Delivered(s, i)) && |Delivered(s, i).core.log| >= |s.core.log|
  {
  }

  lemma FinishKeepsNoGap(s: System, c: int)
    requires NoGap(s)
    ensures NoGap(Finished(s, c))
  {
    AcknowledgeKeepsConsistent(s.q, c);
  }

  lemma StepKeepsNoGap(s: System, step: Step)
    requires NoGap(s)
    ensures NoGap(Apply(s, step))
  {
    match step
    case Collect(kind, id, byteSize, now) => AdmitKeepsNoGap(s, kind, id, byteSize, now);
    case Look(now) => AdmitKeepsNoGap(s, Event, None, 0, now);
    case Begin(limit, now) => BeginKeepsNoGap(s, limit, now);
    case Deliver(i) => DeliverKeepsNoGap(s, i);
    case Finish(c) => FinishKeepsNoGap(s, c);
    case Sync(c) => SyncKeepsNoGap(s, c);
    case _ =>
  }

  lemma {:induction false} RunKeepsNoGap(s: System, steps: seq<Step>)
    requires NoGap(s)
    ensures NoGap(Run(s, steps))
    decreases |steps|
  {
    if steps != [] {
      StepKeepsNoGap(s, steps[0]);
      RunKeepsNoGap(Apply(s, steps[0]), steps[1..]);
    }
  }

  /** In every reachable state, retention has left no gap and Core cannot answer any message with a sequence gap. */
  lemma NoGapEver(limits: Limits, steps: seq<Step>)
    ensures var s := Run(Init(limits), steps);
      && s.q.acknowledged <= |s.core.log|
      && (forall i :: 0 <= i < |s.q.rows| ==> s.q.rows[i].sequence == s.q.acknowledged + 1 + i)
      && s.q.nextSequence == s.q.acknowledged + 1 + |s.q.rows|
      && (forall i :: 0 <= i < |s.net| ==> CoreAccepts(s.core.log, s.net[i]).Ok?)
  {
    RunKeepsNoGap(Init(limits), steps);
  }
}
