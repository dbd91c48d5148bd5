/** Realtime labels: an upload is realtime only for items collected online and never possibly sent before. */
module DeliveryLabels {
  import opened Wrappers
  import opened UplinkQueue
  import opened UplinkProtocol

  /** The events that make the delivery of an item uncertain: an attempt of it, any failed upload, a restart. */
  predicate Fences(e: HistoryEvent, id: nat) {
    e.Failed? || e.Reopened? || (e.Tried? && id in e.ids)
  }

  /** Nothing has made the item's delivery uncertain since it was admitted. */
  predicate Fresh(h: seq<HistoryEvent>, id: nat) {
    id < |h| && forall k :: id < k < |h| ==> !Fences(h[k], id)
  }

  predicate CollectedAs(h: seq<HistoryEvent>, p: Payload) {
    p.id < |h| && h[p.id].Admitted? && (h[p.id].offline <==> p.replay)
  }

  ghost predicate RowsLabelled(rows: seq<Row>, h: seq<HistoryEvent>) {
    forall r :: r in rows ==> CollectedAs(h, r.payload) && (r.attempts == 0 ==> Fresh(h, r.payload.id))
  }

  ghost predicate SenderLabelled(sender: Sender, h: seq<HistoryEvent>) {
    sender.Sending? ==> forall r :: r in sender.items ==>
      && CollectedAs(h, r.payload)
      && (sender.attempt == 0 ==> Fresh(h, r.payload.id))
      && (!sender.queuedAsReplay ==> !r.payload.replay)
  }

  /** Rows with the same identity have the same sequence. */
  ghost predicate Agree(a: seq<Row>, b: seq<Row>) {
    forall r, x :: r in a && x in b && r.payload.id == x.payload.id ==> r.sequence == x.sequence
  }

  predicate RealtimeAllowed(h: seq<HistoryEvent>, m: Message) {
    m.sentAt <= |h| &&
    (!m.replay ==> forall p :: p in m.items ==> CollectedAs(h, p) && !p.replay && Fresh(h[..m.sentAt], p.id))
  }

  ghost predicate Labelled(s: System) {
    && NoGap(s)
    && RowsLabelled(s.q.rows, s.history)
    && SenderLabelled(s.sender, s.history)
    && Agree(s.q.rows, s.q.rows)
    && (s.sender.Sending? ==> Agree(s.sender.items, s.q.rows))
    && (forall i :: 0 <= i < |s.net| ==> RealtimeAllowed(s.history, s.net[i]))
  }

  // ---------- one event at a time ----------

  lemma AppendKeepsWire(net: seq<Message>, h: seq<HistoryEvent>, e: HistoryEvent)
    requires forall i :: 0 <= i < |net| ==> RealtimeAllowed(h, net[i])
    ensures forall i :: 0 <= i < |net| ==> RealtimeAllowed(h + [e], net[i])
  {
    forall i | 0 <= i < |net| ensures RealtimeAllowed(h + [e], net[i]) {
      assert RealtimeAllowed(h, net[i]);
      assert (h + [e])[..net[i].sentAt] == h[..net[i].sentAt];
    }
  }

  /** An event that fences nothing keeps every label. */
  lemma HarmlessEvent(s: System, e: HistoryEvent)
    requires Labelled(s) && (e.Admitted? || e.Refused? || e.Dropped? || e.Acked?)
    ensures Labelled(s.(history := s.history + [e]))
  {
    AppendKeepsWire(s.net, s.history, e);
  }

  lemma ExpireKeepsLabels(s: System, now: int)
    requires Labelled(s)
    ensures Labelled(ExpireNow(s, now))
  {
    AdmitKeepsNoGap(s, Event, None, 0, now);
    if Stale(s, now) { HarmlessEvent(s, Dropped(Ids(s.q.rows))); }
  }

  lemma GrowthKeepsLabels(e: System, row: Row)
    requires Labelled(e) && NoGap(AdmittedItem(e, row))
    requires row.payload.id == |e.history| && row.payload.replay == e.offline
    ensures Labelled(AdmittedItem(e, row))
  {
    var event := Admitted(row.kind, e.offline);
    HarmlessEvent(e, event);
    assert (e.history + [event])[row.payload.id] == event;
  }

  lemma AdmitKeepsLabels(s: System, kind: Kind, id: Option<string>, byteSize: nat, now: int)
    requires Labelled(s)
    ensures Labelled(Admit(s, kind, id, byteSize, now).0)
  {
    ExpireKeepsLabels(s, now);
    AdmitCases(s, kind, id, byteSize, now);
    AdmitKeepsNoGap(s, kind, id, byteSize, now);
    var e := ExpireNow(s, now);
    if Fits(e.q, s.limits, byteSize) {
      GrowthKeepsLabels(e, AdmittedRow(s, kind, id, byteSize, now));
    } else {
      HarmlessEvent(e, Refused);
    }
  }

  lemma {:induction false} MaxIsBound(items: seq<Row>)
    ensures forall r :: r in items ==> r.attempts <= MaxAttempts(items)
  {
    if items != [] {
      MaxIsBound(items[1..]);
      assert items == [items[0]] + items[1..];
    }
  }

  lemma BeginKeepsLabels(s: System, limit: int, now: int)
    requires Labelled(s)
    ensures Labelled(Begun(s, limit, now))
  {
    BeginKeepsNoGap(s, limit, now);
    ExpireKeepsLabels(s, now);
    var e := ExpireNow(s, now);
    var items := Batch(Head(e.q.rows, limit));
    BatchIsPrefix(Head(e.q.rows, limit));
    assert forall r :: r in items ==> r in e.q.rows;
    MaxIsBound(items);
    if s.sender.Idle? && s.session != 0 && items != [] {
      assert SenderLabelled(Sending(items, MaxAttempts(items), AnyReplay(items)), e.history);
      assert Agree(items, e.q.rows);
    }
  }

  lemma TriedRowIsMarked(items: seq<Row>, y: Row, now: int)
    requires Agree(items, [y]) && y.payload.id in Ids(items)
    ensures Attempted(y, Sequences(items), now).attempts > 0
  {
    var k :| 0 <= k < |items| && Ids(items)[k] == y.payload.id;
    assert items[k] in items && y in [y];
    assert Sequences(items)[k] == y.sequence;
  }

  /** An attempt counts on the rows it carries and leaves every other row alone. */
  lemma AttemptKeepsRow(s: System, y: Row, now: int)
    requires Labelled(s) && s.sender.Sending? && y in s.q.rows
    ensures var x, h := Attempted(y, Sequences(s.sender.items), now), s.history + [Tried(Ids(s.sender.items))];
      && CollectedAs(h, x.payload) && (x.attempts == 0 ==> Fresh(h, x.payload.id))
      && x.payload == y.payload && x.sequence == y.sequence
  {
    if y.payload.id in Ids(s.sender.items) {
      TriedRowIsMarked(s.sender.items, y, now);
    }
  }

  /** Row-by-row updates that keep identity and sequence keep agreement. */
  lemma UpdateKeepsAgree(a: seq<Row>, rows: seq<Row>, updated: seq<Row>)
    requires |updated| == |rows|
    requires forall i :: 0 <= i < |rows| ==> updated[i].payload == rows[i].payload && updated[i].sequence == rows[i].sequence
    ensures Agree(a, rows) ==> Agree(a, updated)
    ensures Agree(rows, rows) ==> Agree(updated, updated)
  {
    forall x | x in updated ensures exists y :: y in rows && y.payload == x.payload && y.sequence == x.sequence {
      var i :| 0 <= i < |updated| && updated[i] == x;
      assert rows[i] in rows;
    }
  }

  lemma AttemptKeepsRows(s: System, now: int)
    requires Labelled(s) && s.sender.Sending?
    ensures RowsLabelled(MarkAttempted(s.q, Sequences(s.sender.items), now).rows, s.history + [Tried(Ids(s.sender.items))])
  {
    var rows, h := MarkAttempted(s.q, Sequences(s.sender.items), now).rows, s.history + [Tried(Ids(s.sender.items))];
    forall x | x in rows ensures CollectedAs(h, x.payload) && (x.attempts == 0 ==> Fresh(h, x.payload.id)) {
      var i :| 0 <= i < |rows| && rows[i] == x;
      AttemptKeepsRow(s, s.q.rows[i], now);
    }
  }

  /** The request of an attempt is realtime only if none of its items was ever possibly sent. */
  lemma NewMessageIsSound(s: System)
    requires Labelled(s) && s.sender.Sending?
    ensures RealtimeAllowed(s.history, NewMessage(s))
  {
    var m := NewMessage(s);
    assert s.history[..m.sentAt] == s.history;
    forall p | p in m.items && !m.replay ensures CollectedAs(s.history, p) && !p.replay && Fresh(s.history, p.id) {
      var k :| 0 <= k < |m.items| && m.items[k] == p;
      assert s.sender.items[k] in s.sender.items;
    }
  }

  lemma AttemptKeepsLabels(s: System, now: int)
    requires Labelled(s)
    ensures Labelled(Tries(s, now))
  {
    StepKeepsNoGap(s, Attempt(now));
    if s.sender.Sending? {
      AttemptKeepsRows(s, now);
      UpdateKeepsAgree(s.sender.items, s.q.rows, Tries(s, now).q.rows);
      NewMessageIsSound(s);
      AppendKeepsWire(s.net + [NewMessage(s)], s.history, Tried(Ids(s.sender.items)));
    }
  }

  /** After a failed upload or a restart no queued row is left with a zero counter. */
  lemma FenceKeepsRows(rows: seq<Row>, fenced: seq<Row>, h: seq<HistoryEvent>, e: HistoryEvent)
    requires RowsLabelled(rows, h) && |fenced| == |rows|
    requires forall i :: 0 <= i < |rows| ==> fenced[i].attempts > 0 && fenced[i].payload == rows[i].payload
    ensures RowsLabelled(fenced, h + [e])
  {
    forall x | x in fenced ensures x.attempts > 0 && CollectedAs(h, x.payload) {
      var i :| 0 <= i < |fenced| && fenced[i] == x;
      assert rows[i] in rows;
    }
  }

  lemma FailKeepsLabels(s: System, now: int)
    requires Labelled(s)
    ensures Labelled(Failing(s, now))
  {
    StepKeepsNoGap(s, FailAttempt(now));
    var rows := MarkUncertain(s.q, now).rows;
    FenceKeepsRows(s.q.rows, rows, s.history, Failed);
    UpdateKeepsAgree(if s.sender.Sending? then s.sender.items else [], s.q.rows, rows);
    AppendKeepsWire(s.net, s.history, Failed);
  }

  lemma RestartKeepsLabels(s: System)
    requires Labelled(s)
    ensures Labelled(Restarted(s))
  {
    StepKeepsNoGap(s, Restart);
    FenceKeepsRows(s.q.rows, Reopen(s.q).rows, s.history, UplinkProtocol.HistoryEvent.Reopened);
    UpdateKeepsAgree([], s.q.rows, Reopen(s.q).rows);
    AppendKeepsWire(s.net, s.history, UplinkProtocol.HistoryEvent.Reopened);
  }

  lemma FinishKeepsLabels(s: System, c: int)
    requires Labelled(s)
    ensures Labelled(Finished(s, c))
  {
    FinishKeepsNoGap(s, c);
    AfterIsSelection(s.q.rows, c);
    if s.sender.Sending? && c in s.answers {
      AcknowledgeKeepsConsistent(s.q, c);
      HarmlessEvent(s, Acked(Ids(UpTo(s.q.rows, c))));
    }
  }

  lemma SyncKeepsLabels(s: System, c: int)
    requires Labelled(s)
    ensures Labelled(Synced(s, c))
  {
    SyncKeepsNoGap(s, c);
    AfterIsSelection(s.q.rows, c);
    if c in s.answers && c >= 0 {
      HarmlessEvent(s, Acked(Ids(UpTo(s.q.rows, c))));
      var t := s.(history := s.history + [Acked(Ids(UpTo(s.q.rows, c)))]);
      HarmlessEvent(t, Dropped(Ids(After(s.q.rows, c))));
    }
  }

  lemma StepKeepsLabels(s: System, step: Step)
    requires Labelled(s)
    ensures Labelled(Apply(s, step))
  {
    match step
    case Collect(kind, id, byteSize, now) => AdmitKeepsLabels(s, kind, id, byteSize, now);
    case Look(now) => ExpireKeepsLabels(s, now);
    case Begin(limit, now) => BeginKeepsLabels(s, limit, now);
    case Attempt(now) => AttemptKeepsLabels(s, now);
    case FailAttempt(now) => FailKeepsLabels(s, now);
    case Finish(c) => FinishKeepsLabels(s, c);
    case Sync(c) => SyncKeepsLabels(s, c);
    case Restart => RestartKeepsLabels(s);
    case _ => StepKeepsNoGap(s, step);
  }

  lemma {:induction false} RunKeepsLabels(s: System, steps: seq<Step>)
    requires Labelled(s)
    ensures Labelled(Run(s, steps))
    decreases |steps|
  {
    if steps != [] {
      StepKeepsLabels(s, steps[0]);
      RunKeepsLabels(Apply(s, steps[0]), steps[1..]);
    }
  }

  // ---------- the main results ----------

  /**
   In every reachable state a zero counter means no attempt, no failed upload anywhere and no restart since
   the row was admitted; and every upload ever labelled realtime carried only such items, collected online.
   */
  lemma RealtimeLabelsAreSound(limits: Limits, steps: seq<Step>)
    ensures var s := Run(Init(limits), steps);
      && (forall r :: r in s.q.rows && r.attempts == 0 ==> Fresh(s.history, r.payload.id))
      && (forall i, p :: 0 <= i < |s.net| && !s.net[i].replay && p in s.net[i].items ==>
            && s.net[i].sentAt <= |s.history|
            && CollectedAs(s.history, p) && !s.history[p.id].offline && Fresh(s.history[..s.net[i].sentAt], p.id))
  {
    RunKeepsLabels(Init(limits), steps);
    var s := Run(Init(limits), steps);
    forall i, p | 0 <= i < |s.net| && !s.net[i].replay && p in s.net[i].items
      ensures s.net[i].sentAt <= |s.history|
      ensures CollectedAs(s.history, p) && !s.history[p.id].offline && Fresh(s.history[..s.net[i].sentAt], p.id)
    {
      assert RealtimeAllowed(s.history, s.net[i]);
    }
  }

  /** A later state only adds history and requests, and the new requests were sent later. */
  ghost predicate Extends(s: System, t: System) {
    && s.history <= t.history
    && s.net <= t.net
    && forall i :: |s.net| <= i < |t.net| ==> t.net[i].sentAt >= |s.history|
  }

  lemma StepExtends(s: System, step: Step)
    ensures Extends(s, Apply(s, step))
  {
  }

  lemma {:induction false} RunExtends(s: System, steps: seq<Step>)
    ensures Extends(s, Run(s, steps))
    decreases |steps|
  {
    if steps != [] {
      var t := Apply(s, steps[0]);
      StepExtends(s, steps[0]);
      RunExtends(t, steps[1..]);
      var u := Run(t, steps[1..]);
      assert forall i :: |s.net| <= i < |t.net| ==> u.net[i] == t.net[i];
    }
  }

  /** Once an item's delivery is uncertain, every later upload that carries it is labelled replay. */
  lemma UncertainItemsStayReplay(limits: Limits, before: seq<Step>, after: seq<Step>, id: nat)
    requires id < |Run(Init(limits), before).history| && !Fresh(Run(Init(limits), before).history, id)
    ensures var s, t := Run(Init(limits), before), Run(Init(limits), before + after);
      forall i :: |s.net| <= i < |t.net| && (exists p :: p in t.net[i].items && p.id == id) ==> t.net[i].replay
  {
    RunOfConcatenation(Init(limits), before, after);
    var s, t := Run(Init(limits), before), Run(Init(limits), before + after);
    RunExtends(s, after);
    RunKeepsLabels(Init(limits), before + after);
    var k :| id < k < |s.history| && Fences(s.history[k], id);
    forall i | |s.net| <= i < |t.net| && exists p :: p in t.net[i].items && p.id == id ensures t.net[i].replay {
      assert RealtimeAllowed(t.history, t.net[i]);
      assert t.history[..t.net[i].sentAt][k] == s.history[k];
    }
  }
}
