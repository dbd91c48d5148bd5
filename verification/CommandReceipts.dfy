/**
 Command execution with durable receipts: src/zediot_ha_hub_connector/command_executor.py over
 command_store.py. Times are in microseconds, the clock's resolution; the envelope digest is injective, so
 receipts hold the envelope itself.
 */
module CommandReceipts {
  import opened Wrappers

  datatype Envelope = Envelope(domain: string, service: string, entityId: string, serviceData: map<string, string>)

  datatype Status = AcceptedStatus | ExecutedStatus | FailedStatus | TimeoutStatus

  datatype Receipt = Receipt(idempotencyKey: string, envelope: Envelope, status: Status, reason: Option<string>, updatedAt: int)

  type Receipts = map<string, Receipt>

  datatype Delivery = Delivery(commandId: string, idempotencyKey: string, envelope: Envelope, deadline: int)

  predicate Terminal(s: Status) { s != AcceptedStatus }

  predicate Allowed(e: Envelope) {
    && e.domain == "light"
    && (e.service == "turn_on" || e.service == "turn_off")
    && "light." <= e.entityId
    && |e.serviceData| == 1 && "entity_id" in e.serviceData && e.serviceData["entity_id"] == e.entityId
  }

  // ---------- the receipt store ----------

  function Prune(rs: Receipts, cutoff: int): Receipts {
    map id | id in rs && rs[id].updatedAt >= cutoff :: rs[id]
  }

  function Lookup(rs: Receipts, id: string): Option<Receipt> {
    if id in rs then Some(rs[id]) else None
  }

  /** The clock readings of one `save`: its first look-up, the write, and the read-back. */
  datatype SaveTimes = SaveTimes(look: int, write: int, read: int)

  predicate Conflicts(rs: Receipts, d: Delivery) {
    d.commandId in rs
    && (rs[d.commandId].idempotencyKey != d.idempotencyKey || rs[d.commandId].envelope != d.envelope)
  }

  function Upsert(rs: Receipts, d: Delivery, status: Status, reason: Option<string>, now: int): Receipts {
    if d.commandId in rs then
      rs[d.commandId := rs[d.commandId].(status := status, reason := reason, updatedAt := now)]
    else rs[d.commandId := Receipt(d.idempotencyKey, d.envelope, status, reason, now)]
  }

  /** The boolean is false when HUB_COMMAND_IDEMPOTENCY_CONFLICT is raised. */
  function Save(rs: Receipts, retention: int, d: Delivery, status: Status, reason: Option<string>, t: SaveTimes): (Receipts, bool) {
    var pruned := Prune(rs, t.look - retention);
    if Conflicts(pruned, d) then (pruned, false)
    else (Prune(Upsert(pruned, d, status, reason, t.write), t.read - retention), true)
  }

  // ---------- one execution ----------

  datatype Reply = Responds | TimesOut | Raises

  datatype Crash = NoCrash | BeforeAccept | BeforeCall | AfterCall

  /** One pass of the readback loop: the clock reading that lets it run, and the state it reads, if any. */
  datatype Poll = Poll(now: int, state: Option<string>)

  /** One delivery being executed: its clock readings, where the process dies, and what Home Assistant does. */
  datatype Execution = Execution(
    look: int, check: int, accept: SaveTimes, crash: Crash, reply: Reply,
    readbackStart: int, polls: seq<Poll>, finish: SaveTimes)

  datatype Exit = NotAllowed | Existing(receipt: Receipt) | Expired | Conflict | Interrupted | Finished(status: Status)

  function Min(a: int, b: int): int { if a <= b then a else b }

  function ReadbackDeadline(d: Delivery, e: Execution): int { Min(d.deadline, e.readbackStart + 5_000_000) }

  function ExpectedState(d: Delivery): string { if d.envelope.service == "turn_on" then "on" else "off" }

  /** The first poll before the deadline that sees the expected state; polling ends when the clock reaches it. */
  function FirstMatch(polls: seq<Poll>, expected: string, deadline: int): Option<nat> {
    if polls == [] || polls[0].now >= deadline then None
    else if polls[0].state == Some(expected) then Some(0)
    else
      match FirstMatch(polls[1..], expected, deadline)
      case None => None
      case Some(k) => Some(k + 1)
  }

  function Ending(d: Delivery, e: Execution): (Status, Option<string>) {
    match e.reply
    case TimesOut => (TimeoutStatus, Some("ha_service_timeout"))
    case Raises => (FailedStatus, Some("ha_service_call_failed"))
    case Responds =>
      if FirstMatch(e.polls, ExpectedState(d), ReadbackDeadline(d, e)).Some? then (ExecutedStatus, None)
      else (TimeoutStatus, Some("ha_readback_timeout"))
  }

  /** The receipts afterwards, the number of Home Assistant calls, and how the execution ended. */
  datatype Outcome = Outcome(receipts: Receipts, calls: nat, exit: Exit)

  /** From the call of Home Assistant to the terminal receipt. */
  function CallAndFinish(accepted: Receipts, retention: int, d: Delivery, e: Execution): Outcome {
    if e.crash == AfterCall then Outcome(accepted, 1, Interrupted)
    else
      var (final, done) := Save(accepted, retention, d, Ending(d, e).0, Ending(d, e).1, e.finish);
      Outcome(final, 1, if done then Finished(Ending(d, e).0) else Conflict)
  }

  /** From the deadline check on. */
  function Proceed(looked: Receipts, retention: int, d: Delivery, e: Execution): Outcome {
    if d.deadline <= e.check then
      var (saved, ok) := Save(looked, retention, d, TimeoutStatus, Some("command_deadline_expired"), e.accept);
      Outcome(saved, 0, if ok then Expired else Conflict)
    else if e.crash == BeforeAccept then Outcome(looked, 0, Interrupted)
    else
      var (accepted, ok) := Save(looked, retention, d, AcceptedStatus, None, e.accept);
      if !ok then Outcome(accepted, 0, Conflict)
      else if e.crash == BeforeCall then Outcome(accepted, 0, Interrupted)
      else CallAndFinish(accepted, retention, d, e)
  }

  /** From the receipt found by the first look-up on. */
  function Resume(looked: Receipts, retention: int, d: Delivery, e: Execution): Outcome {
    if d.commandId in looked && Terminal(looked[d.commandId].status) then
      Outcome(looked, 0, Existing(looked[d.commandId]))
    else Proceed(looked, retention, d, e)
  }

  function Run(rs: Receipts, retention: int, d: Delivery, e: Execution): Outcome {
    if !Allowed(d.envelope) then Outcome(rs, 0, NotAllowed)
    else Resume(Prune(rs, e.look - retention), retention, d, e)
  }

  // ---------- the classes ----------

  class CommandReceiptStore {
    var receipts: Receipts
    const retention: int

    constructor (retention: int)
      ensures receipts == map[] && this.retention == retention
    {
      this.retention := retention;
      receipts := map[];
    }

    method GetReceipt(id: string, now: int) returns (r: Option<Receipt>)
      modifies this
      ensures receipts == Prune(old(receipts), now - retention) && r == Lookup(receipts, id)
      ensures forall k :: k in receipts <==> k in old(receipts) && old(receipts)[k].updatedAt >= now - retention
      ensures forall k :: k in receipts ==> receipts[k] == old(receipts)[k]
      ensures r == if id in receipts then Some(receipts[id]) else None
    {
      receipts := Prune(receipts, now - retention);
      r := Lookup(receipts, id);
    }

    method SaveReceipt(d: Delivery, status: Status, reason: Option<string>, t: SaveTimes)
      returns (ok: bool, saved: Option<Receipt>)
      modifies this
      ensures (receipts, ok) == Save(old(receipts), retention, d, status, reason, t)
      ensures saved == if ok then Lookup(receipts, d.commandId) else None
      ensures ok && saved.Some? ==> saved.value == Receipt(d.idempotencyKey, d.envelope, status, reason, t.write)
      ensures ok <==> !(d.commandId in old(receipts) && old(receipts)[d.commandId].updatedAt >= t.look - retention
                        && (old(receipts)[d.commandId].idempotencyKey != d.idempotencyKey
                            || old(receipts)[d.commandId].envelope != d.envelope))
      ensures forall k :: k in receipts && k != d.commandId ==> k in old(receipts) && receipts[k] == old(receipts)[k]
    {
      var existing := GetReceipt(d.commandId, t.look);
      if existing.Some? && (existing.value.idempotencyKey != d.idempotencyKey || existing.value.envelope != d.envelope) {
        return false, None;
      }
      receipts := Upsert(receipts, d, status, reason, t.write);
      saved := GetReceipt(d.commandId, t.read);
      return true, saved;
    }
  }

  class HubCommandExecutor {
    const store: CommandReceiptStore
    var calls: nat   // calls made to Home Assistant

    constructor (store: CommandReceiptStore)
      ensures this.store == store && calls == 0
    {
      this.store := store;
      calls := 0;
    }

    method WaitForReadback(polls: seq<Poll>, expected: string, deadline: int) returns (match_: Option<nat>)
      ensures match_ == FirstMatch(polls, expected, deadline)
      ensures match_.Some? ==>
        && match_.value < |polls| && polls[match_.value].state == Some(expected)
        && forall k :: 0 <= k <= match_.value ==> polls[k].now < deadline && (polls[k].state == Some(expected) ==> k == match_.value)
      ensures match_.None? ==> forall k :: 0 <= k < |polls| && polls[k].state == Some(expected) ==>
        exists i :: 0 <= i <= k && polls[i].now >= deadline
    {
      var i := 0;
      FirstMatchFrom(polls, expected, deadline, 0);
      while i < |polls| && polls[i].now < deadline
        invariant 0 <= i <= |polls|
        invariant forall k :: 0 <= k < i ==> polls[k].state != Some(expected) && polls[k].now < deadline
      {
        if polls[i].state == Some(expected) {
          FirstMatchFrom(polls, expected, deadline, i);
          return Some(i);
        }
        i := i + 1;
      }
      FirstMatchFrom(polls, expected, deadline, i);
      return None;
    }

    /** Calls Home Assistant and records how it ended. */
    method CallAndRecord(d: Delivery, e: Execution) returns (exit: Exit)
      modifies this, store
      ensures calls == old(calls) + 1
      ensures store.receipts == CallAndFinish(old(store.receipts), store.retention, d, e).receipts
      ensures exit == CallAndFinish(old(store.receipts), store.retention, d, e).exit
    {
      calls := calls + 1;
      if e.crash == AfterCall { return Interrupted; }
      var status, reason := FailedStatus, Some("ha_service_call_failed");
      if e.reply == TimesOut {
        status, reason := TimeoutStatus, Some("ha_service_timeout");
      } else if e.reply == Responds {
        var seen := WaitForReadback(e.polls, ExpectedState(d), ReadbackDeadline(d, e));
        status := if seen.Some? then ExecutedStatus else TimeoutStatus;
        reason := if seen.Some? then None else Some("ha_readback_timeout");
      }
      assert (status, reason) == Ending(d, e);
      var ok, receipt := store.SaveReceipt(d, status, reason, e.finish);
      return if ok then Finished(status) else Conflict;
    }

    method CheckAndCall(ghost looked: Receipts, d: Delivery, e: Execution) returns (exit: Exit)
      requires store.receipts == looked
      modifies this, store
      ensures store.receipts == Proceed(looked, store.retention, d, e).receipts
      ensures calls == old(calls) + Proceed(looked, store.retention, d, e).calls
      ensures exit == Proceed(looked, store.retention, d, e).exit
    {
      if d.deadline <= e.check {
        var ok, receipt := store.SaveReceipt(d, TimeoutStatus, Some("command_deadline_expired"), e.accept);
        return if ok then Expired else Conflict;
      }
      if e.crash == BeforeAccept { return Interrupted; }
      var ok, receipt := store.SaveReceipt(d, AcceptedStatus, None, e.accept);
      if !ok { return Conflict; }
      if e.crash == BeforeCall { return Interrupted; }
      exit := CallAndRecord(d, e);
    }

    /** From the first look-up on. */
    method LookUpAndProceed(d: Delivery, e: Execution) returns (exit: Exit)
      modifies this, store
      ensures var o := Resume(Prune(old(store.receipts), e.look - store.retention), store.retention, d, e);
        store.receipts == o.receipts && calls == old(calls) + o.calls && exit == o.exit
    {
      var existing := store.GetReceipt(d.commandId, e.look);
      if existing.Some? && Terminal(existing.value.status) { return Existing(existing.value); }
      exit := CheckAndCall(Prune(old(store.receipts), e.look - store.retention), d, e);
    }

    /**
     The result agrees with `Run`: a refused envelope touches nothing, anything else resumes from the look-up.
     Home Assistant is called exactly when no terminal receipt is found, the deadline lies ahead, no crash comes
     first and the command does not contradict its stored receipt; and the ending reports what was observed.
     */
    method ExecuteCommand(d: Delivery, e: Execution) returns (exit: Exit)
      modifies this, store
      ensures !Allowed(d.envelope) ==> exit == NotAllowed && store.receipts == old(store.receipts) && calls == old(calls)
      ensures Allowed(d.envelope) ==>
        var o := Resume(Prune(old(store.receipts), e.look - store.retention), store.retention, d, e);
        store.receipts == o.receipts && calls == old(calls) + o.calls && exit == o.exit
      ensures exit == NotAllowed <==>
        !(&& d.envelope.domain == "light" && (d.envelope.service == "turn_on" || d.envelope.service == "turn_off")
          && "light." <= d.envelope.entityId && d.envelope.serviceData == map["entity_id" := d.envelope.entityId])
      ensures exit != NotAllowed && Holds(old(store.receipts), d.commandId, e.look - store.retention)
              && old(store.receipts)[d.commandId].status != AcceptedStatus ==>
        exit == Existing(old(store.receipts)[d.commandId]) && calls == old(calls)
      ensures calls == old(calls) + 1 <==>
        && exit != NotAllowed && !exit.Existing? && e.check < d.deadline && e.crash != BeforeAccept && e.crash != BeforeCall
        && !Contradicts(old(store.receipts), d, e, store.retention)
      ensures calls == old(calls) + 1 || calls == old(calls)
      ensures exit != NotAllowed && !exit.Existing? && d.deadline <= e.check ==> exit == Expired || exit == Conflict
      ensures calls == old(calls) + 1 && exit != Interrupted ==>
        var state := if d.envelope.service == "turn_on" then "on" else "off";
        var seen :=
          exists k :: 0 <= k < |e.polls| && e.polls[k].state == Some(state) &&
                      forall i :: 0 <= i <= k ==> e.polls[i].now < d.deadline && e.polls[i].now < e.readbackStart + 5_000_000;
        && (exit == Finished(ExecutedStatus) <==> e.reply == Responds && seen)
        && (exit == Finished(FailedStatus) <==> e.reply == Raises)
        && (exit == Finished(TimeoutStatus) <==> e.reply == TimesOut || (e.reply == Responds && !seen))
      ensures calls == old(calls) + 1 && exit != Interrupted && d.commandId in store.receipts ==>
        var left := store.receipts[d.commandId];
        && exit == Finished(left.status)
        && (left.status == ExecutedStatus ==> left.reason == None)
        && (left.status == FailedStatus ==> left.reason == Some("ha_service_call_failed"))
        && (left.status == TimeoutStatus ==>
              left.reason == Some(if e.reply == TimesOut then "ha_service_timeout" else "ha_readback_timeout"))
    {
      hide Resume, Ending;   // what they mean is all that matters here
      AllowedMeans(d.envelope);
      if !Allowed(d.envelope) { return NotAllowed; }
      ResumeMeans(store.receipts, store.retention, d, e);
      exit := LookUpAndProceed(d, e);
    }
  }

  lemma {:induction false} FirstMatchFrom(polls: seq<Poll>, expected: string, deadline: int, i: nat)
    requires i <= |polls| && forall k :: 0 <= k < i ==> polls[k].state != Some(expected) && polls[k].now < deadline
    ensures (i == |polls| || polls[i].now >= deadline) ==> FirstMatch(polls, expected, deadline) == None
    ensures i < |polls| && polls[i].now < deadline && polls[i].state == Some(expected) ==>
      FirstMatch(polls, expected, deadline) == Some(i)
    decreases i
  {
    if i > 0 { FirstMatchFrom(polls[1..], expected, deadline, i - 1); }
  }

  // ---------- what the outcome means ----------

  /** A readback succeeds exactly when some poll sees the state, it and all before it being in time. */
  lemma {:induction false} MatchMeans(polls: seq<Poll>, expected: string, deadline: int)
    ensures FirstMatch(polls, expected, deadline).Some? <==>
      exists k :: 0 <= k < |polls| && polls[k].state == Some(expected) && forall i :: 0 <= i <= k ==> polls[i].now < deadline
    decreases |polls|
  {
    if polls != [] && polls[0].now < deadline && polls[0].state != Some(expected) {
      var rest := polls[1..];
      MatchMeans(rest, expected, deadline);
      if k :| 0 <= k < |rest| && rest[k].state == Some(expected) && forall i :: 0 <= i <= k ==> rest[i].now < deadline {
        assert polls[k + 1] == rest[k];
        forall i | 0 <= i <= k + 1 ensures polls[i].now < deadline { assert i > 0 ==> polls[i] == rest[i - 1]; }
      }
      if k :| 0 <= k < |polls| && polls[k].state == Some(expected) && forall i :: 0 <= i <= k ==> polls[i].now < deadline {
        assert rest[k - 1] == polls[k];
        forall i | 0 <= i <= k - 1 ensures rest[i].now < deadline { assert rest[i] == polls[i + 1]; }
      }
    }
  }

  /** Some poll saw the state the service asked for, it and all before it earlier than the deadline and than five seconds. */
  ghost predicate SeenInTime(d: Delivery, e: Execution) {
    var state := if d.envelope.service == "turn_on" then "on" else "off";
    exists k :: 0 <= k < |e.polls| && e.polls[k].state == Some(state) &&
                forall i :: 0 <= i <= k ==> e.polls[i].now < d.deadline && e.polls[i].now < e.readbackStart + 5_000_000
  }

  lemma EndingMeans(d: Delivery, e: Execution)
    ensures Ending(d, e).0 == ExecutedStatus <==> e.reply == Responds && SeenInTime(d, e)
    ensures Ending(d, e).0 == FailedStatus <==> e.reply == Raises
    ensures Ending(d, e).0 == TimeoutStatus <==> e.reply == TimesOut || (e.reply == Responds && !SeenInTime(d, e))
    ensures Ending(d, e).1 == ReasonOf(e.reply, Ending(d, e).0)
  {
    MatchMeans(e.polls, ExpectedState(d), ReadbackDeadline(d, e));
  }

  /** The reason that goes with a status, by what Home Assistant did. */
  function ReasonOf(reply: Reply, status: Status): Option<string> {
    if status == ExecutedStatus then None
    else if reply == Raises then Some("ha_service_call_failed")
    else if reply == TimesOut then Some("ha_service_timeout")
    else Some("ha_readback_timeout")
  }

  lemma AllowedMeans(e: Envelope)
    ensures Allowed(e) <==>
      && e.domain == "light" && (e.service == "turn_on" || e.service == "turn_off")
      && "light." <= e.entityId && e.serviceData == map["entity_id" := e.entityId]
  {
    if Allowed(e) {
      assert e.serviceData.Keys == {"entity_id"} by {
        assert |e.serviceData.Keys - {"entity_id"}| == 0;
      }
    }
  }

  /** A receipt of the command that is not older than the cutoff. */
  predicate Holds(rs: Receipts, id: string, cutoff: int) { id in rs && rs[id].updatedAt >= cutoff }

  /** The stored receipt that both look-ups find belongs to another request. */
  predicate Contradicts(rs: Receipts, d: Delivery, e: Execution, retention: int) {
    && Holds(rs, d.commandId, e.look - retention) && Holds(rs, d.commandId, e.accept.look - retention)
    && (rs[d.commandId].idempotencyKey != d.idempotencyKey || rs[d.commandId].envelope != d.envelope)
  }

  /** From the deadline check on: when Home Assistant is called, and what the ending says. */
  lemma ProceedMeans(looked: Receipts, retention: int, d: Delivery, e: Execution)
    ensures var o := Proceed(looked, retention, d, e);
      && (o.calls == 1 <==>
            && e.check < d.deadline && e.crash != BeforeAccept && e.crash != BeforeCall
            && !(Holds(looked, d.commandId, e.accept.look - retention)
                 && (looked[d.commandId].idempotencyKey != d.idempotencyKey || looked[d.commandId].envelope != d.envelope)))
      && o.calls <= 1 && !o.exit.Existing? && o.exit != NotAllowed
      && (d.deadline <= e.check ==> o.exit == Expired || o.exit == Conflict)
      && (o.calls == 1 && o.exit != Interrupted ==>
            && o.exit == Finished(Ending(d, e).0)
            && (d.commandId in o.receipts ==>
                  o.receipts[d.commandId].status == Ending(d, e).0 && o.receipts[d.commandId].reason == Ending(d, e).1))
  {
    if e.check < d.deadline && Save(looked, retention, d, AcceptedStatus, None, e.accept).1 {
      AcceptedNeverConflicts(looked, retention, d, e.accept, e.finish.look - retention);
    }
  }

  lemma ResumeMeans(rs: Receipts, retention: int, d: Delivery, e: Execution)
    ensures var o := Resume(Prune(rs, e.look - retention), retention, d, e);
      && (o.exit.Existing? <==> Holds(rs, d.commandId, e.look - retention) && rs[d.commandId].status != AcceptedStatus)
      && (o.exit.Existing? ==> o.exit == Existing(rs[d.commandId]) && o.calls == 0)
      && (o.calls == 1 <==>
            && !o.exit.Existing? && e.check < d.deadline && e.crash != BeforeAccept && e.crash != BeforeCall
            && !Contradicts(rs, d, e, retention))
      && o.calls <= 1 && o.exit != NotAllowed
      && (!o.exit.Existing? && d.deadline <= e.check ==> o.exit == Expired || o.exit == Conflict)
      && (o.calls == 1 && o.exit != Interrupted ==>
            && o.exit == Finished(Ending(d, e).0)
            && (d.commandId in o.receipts ==>
                  o.receipts[d.commandId].status == Ending(d, e).0 && o.receipts[d.commandId].reason == Ending(d, e).1))
    ensures Ending(d, e).0 == ExecutedStatus <==> e.reply == Responds && SeenInTime(d, e)
    ensures Ending(d, e).0 == FailedStatus <==> e.reply == Raises
    ensures Ending(d, e).0 == TimeoutStatus <==> e.reply == TimesOut || (e.reply == Responds && !SeenInTime(d, e))
    ensures Ending(d, e).1 == ReasonOf(e.reply, Ending(d, e).0)
  {
    ProceedMeans(Prune(rs, e.look - retention), retention, d, e);
    EndingMeans(d, e);
  }

  // ---------- runs ----------

  datatype Job = Job(delivery: Delivery, execution: Execution)

  /** The receipts, the latest clock reading, and for the command under study its calls and its interruptions. */
  datatype State = State(receipts: Receipts, clock: int, calls: nat, interrupted: nat)

  predicate InOrder(t: SaveTimes, from: int) { from <= t.look <= t.write <= t.read }

  /** The clock never runs backwards. */
  predicate Timely(e: Execution, clock: int) {
    clock <= e.look <= e.check && InOrder(e.accept, e.check) && InOrder(e.finish, e.accept.read)
  }

  function Step(s: State, retention: int, id: string, job: Job): State {
    var o := Run(s.receipts, retention, job.delivery, job.execution);
    State(o.receipts, job.execution.finish.read,
          if job.delivery.commandId == id then s.calls + o.calls else s.calls,
          if job.delivery.commandId == id && o.exit == Interrupted then s.interrupted + 1 else s.interrupted)
  }

  function RunAll(s: State, retention: int, id: string, jobs: seq<Job>): State
    decreases |jobs|
  {
    if jobs == [] then s else RunAll(Step(s, retention, id, jobs[0]), retention, id, jobs[1..])
  }

  /** The clock advances; every redelivery of the command repeats its deadline. */
  predicate Plausible(id: string, deadline: int, clock: int, jobs: seq<Job>)
    decreases |jobs|
  {
    jobs == [] ||
    (&& Timely(jobs[0].execution, clock)
     && (jobs[0].delivery.commandId == id ==> jobs[0].delivery.deadline == deadline)
     && Plausible(id, deadline, jobs[0].execution.finish.read, jobs[1..]))
  }

  /** Whenever the command finishes after a call, its receipt outlives its deadline. */
  predicate ReceiptsOutliveDeadline(s: State, retention: int, id: string, deadline: int, jobs: seq<Job>)
    decreases |jobs|
  {
    jobs == [] ||
    (&& (Run(s.receipts, retention, jobs[0].delivery, jobs[0].execution).exit.Finished? && jobs[0].delivery.commandId == id ==>
           deadline <= jobs[0].execution.finish.write + retention + 1)
     && ReceiptsOutliveDeadline(Step(s, retention, id, jobs[0]), retention, id, deadline, jobs[1..]))
  }

  /** A terminal receipt that is kept until the deadline has passed. */
  predicate Guarded(rs: Receipts, retention: int, id: string, deadline: int) {
    id in rs && Terminal(rs[id].status) && deadline <= rs[id].updatedAt + retention + 1
  }

  /** The command can make no more calls. */
  predicate Closed(s: State, retention: int, id: string, deadline: int) {
    s.clock >= deadline || Guarded(s.receipts, retention, id, deadline)
  }

  predicate Bounded(s: State, retention: int, id: string, deadline: int) {
    || s.calls <= s.interrupted
    || (s.calls == s.interrupted + 1 && Closed(s, retention, id, deadline))
  }

  lemma PruneKeepsGuard(rs: Receipts, retention: int, id: string, deadline: int, now: int)
    requires Guarded(rs, retention, id, deadline) && now < deadline
    ensures Guarded(Prune(rs, now - retention), retention, id, deadline)
  {
  }

  lemma SaveKeepsGuard(rs: Receipts, retention: int, d: Delivery, status: Status, reason: Option<string>, t: SaveTimes,
                       id: string, deadline: int)
    requires Guarded(rs, retention, id, deadline) && id != d.commandId
    requires t.look <= t.write <= t.read < deadline
    ensures Guarded(Save(rs, retention, d, status, reason, t).0, retention, id, deadline)
  {
    var pruned := Prune(rs, t.look - retention);
    PruneKeepsGuard(rs, retention, id, deadline, t.look);
    if !Conflicts(pruned, d) {
      PruneKeepsGuard(Upsert(pruned, d, status, reason, t.write), retention, id, deadline, t.read);
    }
  }

  lemma ProceedKeepsGuard(rs: Receipts, retention: int, d: Delivery, e: Execution, id: string, deadline: int)
    requires Guarded(rs, retention, id, deadline) && id != d.commandId
    requires InOrder(e.accept, e.check) && InOrder(e.finish, e.accept.read) && e.finish.read < deadline
    ensures Guarded(Proceed(rs, retention, d, e).receipts, retention, id, deadline)
  {
    SaveKeepsGuard(rs, retention, d, TimeoutStatus, Some("command_deadline_expired"), e.accept, id, deadline);
    SaveKeepsGuard(rs, retention, d, AcceptedStatus, None, e.accept, id, deadline);
    var accepted := Save(rs, retention, d, AcceptedStatus, None, e.accept).0;
    SaveKeepsGuard(accepted, retention, d, Ending(d, e).0, Ending(d, e).1, e.finish, id, deadline);
  }

  lemma ResumeKeepsGuard(looked: Receipts, retention: int, d: Delivery, e: Execution, id: string, deadline: int)
    requires Guarded(looked, retention, id, deadline) && id != d.commandId
    requires InOrder(e.accept, e.check) && InOrder(e.finish, e.accept.read) && e.finish.read < deadline
    ensures Guarded(Resume(looked, retention, d, e).receipts, retention, id, deadline)
  {
    ProceedKeepsGuard(looked, retention, d, e, id, deadline);
  }

  lemma RunResumes(rs: Receipts, retention: int, d: Delivery, e: Execution)
    ensures Run(rs, retention, d, e) ==
      if Allowed(d.envelope) then Resume(Prune(rs, e.look - retention), retention, d, e) else Outcome(rs, 0, NotAllowed)
  {
    hide Proceed;   // only the branch on the envelope matters here
  }

  lemma OtherCommandKeepsClosed(s: State, retention: int, id: string, deadline: int, job: Job)
    requires Closed(s, retention, id, deadline) && job.delivery.commandId != id && Timely(job.execution, s.clock)
    ensures Closed(Step(s, retention, id, job), retention, id, deadline)
  {
    var d, e := job.delivery, job.execution;
    if e.finish.read < deadline {
      var looked := Prune(s.receipts, e.look - retention);
      assert Guarded(Resume(looked, retention, d, e).receipts, retention, id, deadline) by {
        PruneKeepsGuard(s.receipts, retention, id, deadline, e.look);
        ResumeKeepsGuard(looked, retention, d, e, id, deadline);
      }
      RunResumes(s.receipts, retention, d, e);
    }
  }

  /** Once closed, a redelivery makes no call and leaves the command closed. */
  lemma ClosedStaysClosed(s: State, retention: int, d: Delivery, e: Execution)
    requires Closed(s, retention, d.commandId, d.deadline) && Timely(e, s.clock)
    ensures Run(s.receipts, retention, d, e).calls == 0
    ensures Closed(Step(s, retention, d.commandId, Job(d, e)), retention, d.commandId, d.deadline)
  {
    if e.look < d.deadline { PruneKeepsGuard(s.receipts, retention, d.commandId, d.deadline, e.look); }
  }

  /** The two receipts of one execution never conflict with each other. */
  lemma AcceptedNeverConflicts(rs: Receipts, retention: int, d: Delivery, t: SaveTimes, cutoff: int)
    requires Save(rs, retention, d, AcceptedStatus, None, t).1
    ensures !Conflicts(Prune(Save(rs, retention, d, AcceptedStatus, None, t).0, cutoff), d)
  {
  }

  lemma TerminalSaveGuards(rs: Receipts, retention: int, d: Delivery, status: Status, reason: Option<string>, t: SaveTimes)
    requires Save(rs, retention, d, status, reason, t).1 && Terminal(status) && t.write <= t.read < d.deadline
    requires d.deadline <= t.write + retention + 1
    ensures Guarded(Save(rs, retention, d, status, reason, t).0, retention, d.commandId, d.deadline)
  {
  }

  lemma ProceedFinishes(rs: Receipts, retention: int, d: Delivery, e: Execution)
    requires Proceed(rs, retention, d, e).calls > 0 && Proceed(rs, retention, d, e).exit != Interrupted
    requires InOrder(e.finish, e.accept.read)
    ensures Proceed(rs, retention, d, e).exit.Finished?
    ensures d.deadline <= e.finish.write + retention + 1 && e.finish.read < d.deadline ==>
      Guarded(Proceed(rs, retention, d, e).receipts, retention, d.commandId, d.deadline)
  {
    AcceptedNeverConflicts(rs, retention, d, e.accept, e.finish.look - retention);
    var accepted := Save(rs, retention, d, AcceptedStatus, None, e.accept).0;
    assert Proceed(rs, retention, d, e) == CallAndFinish(accepted, retention, d, e);
    assert Save(accepted, retention, d, Ending(d, e).0, Ending(d, e).1, e.finish).1;
    if d.deadline <= e.finish.write + retention + 1 && e.finish.read < d.deadline {
      TerminalSaveGuards(accepted, retention, d, Ending(d, e).0, Ending(d, e).1, e.finish);
    }
  }

  /** An execution that calls and is not interrupted leaves a terminal receipt that guards the command. */
  lemma FinishGuards(rs: Receipts, retention: int, d: Delivery, e: Execution)
    requires Run(rs, retention, d, e).calls > 0 && Run(rs, retention, d, e).exit != Interrupted
    requires InOrder(e.finish, e.accept.read)
    ensures Run(rs, retention, d, e).exit.Finished?
    ensures d.deadline <= e.finish.write + retention + 1 && e.finish.read < d.deadline ==>
      Guarded(Run(rs, retention, d, e).receipts, retention, d.commandId, d.deadline)
  {
    RunResumes(rs, retention, d, e);
    ProceedFinishes(Prune(rs, e.look - retention), retention, d, e);
  }

  lemma CallsAtMostOne(s: State, retention: int, d: Delivery, e: Execution)
    ensures Run(s.receipts, retention, d, e).calls <= 1
  {
  }

  lemma StepKeepsBounded(s: State, retention: int, id: string, deadline: int, job: Job)
    requires Bounded(s, retention, id, deadline) && Timely(job.execution, s.clock)
    requires job.delivery.commandId == id ==> job.delivery.deadline == deadline
    requires job.delivery.commandId == id && Run(s.receipts, retention, job.delivery, job.execution).exit.Finished? ==>
      deadline <= job.execution.finish.write + retention + 1
    ensures Bounded(Step(s, retention, id, job), retention, id, deadline)
  {
    var d, e := job.delivery, job.execution;
    if d.commandId != id {
      if Closed(s, retention, id, deadline) { OtherCommandKeepsClosed(s, retention, id, deadline, job); }
    } else if Closed(s, retention, id, deadline) {
      ClosedStaysClosed(s, retention, d, e);
    } else {
      CallsAtMostOne(s, retention, d, e);
      var o := Run(s.receipts, retention, d, e);
      if o.calls > 0 && o.exit != Interrupted { FinishGuards(s.receipts, retention, d, e); }
    }
  }

  lemma {:induction false} RunKeepsBounded(s: State, retention: int, id: string, deadline: int, jobs: seq<Job>)
    requires Bounded(s, retention, id, deadline) && Plausible(id, deadline, s.clock, jobs)
    requires ReceiptsOutliveDeadline(s, retention, id, deadline, jobs)
    ensures Bounded(RunAll(s, retention, id, jobs), retention, id, deadline)
    decreases |jobs|
  {
    if jobs != [] {
      StepKeepsBounded(s, retention, id, deadline, jobs[0]);
      RunKeepsBounded(Step(s, retention, id, jobs[0]), retention, id, deadline, jobs[1..]);
    }
  }

  /**
   Over any run of deliveries and crashes, the Home Assistant calls made for a command are at most one more
   than its executions that were interrupted before saving a terminal receipt.
   */
  lemma CallsAreBounded(retention: int, id: string, deadline: int, clock: int, jobs: seq<Job>)
    requires Plausible(id, deadline, clock, jobs)
    requires ReceiptsOutliveDeadline(State(map[], clock, 0, 0), retention, id, deadline, jobs)
    ensures var s := RunAll(State(map[], clock, 0, 0), retention, id, jobs); s.calls <= 1 + s.interrupted
  {
    RunKeepsBounded(State(map[], clock, 0, 0), retention, id, deadline, jobs);
  }

  /** An execution that starts at `now` and meets no obstacle. */
  function Prompt(now: int): Execution {
    var t := SaveTimes(now, now, now);
    Execution(now, now, t, NoCrash, Raises, now, [], t)
  }

  /**
   The condition is exact: after a terminal receipt, a redelivery can call Home Assistant again if and only if
   the deadline lies beyond the receipt's retention.
   */
  lemma SecondCallIff(rs: Receipts, retention: int, d: Delivery, clock: int)
    requires Allowed(d.envelope) && d.commandId in rs && Terminal(rs[d.commandId].status)
    requires rs[d.commandId].updatedAt <= clock <= rs[d.commandId].updatedAt + retention + 1
    ensures (exists e :: Timely(e, clock) && Run(rs, retention, d, e).calls > 0)
            <==> d.deadline > rs[d.commandId].updatedAt + retention + 1
  {
    var late := rs[d.commandId].updatedAt + retention + 1;
    if d.deadline > late {
      var e := Prompt(late);
      assert Timely(e, clock) && Run(rs, retention, d, e).calls > 0;
    } else {
      forall e | Timely(e, clock) ensures Run(rs, retention, d, e).calls == 0 {
        ClosedStaysClosed(State(rs, clock, 0, 0), retention, d, e);
      }
    }
  }
}
