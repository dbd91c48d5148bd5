/** A concrete run in which age expiry fires while an upload is in flight, and a later item vanishes uncounted. */
module LostItem {
  import opened Wrappers
  import opened UplinkQueue
  import opened UplinkProtocol
  import opened ExactlyOnce

  /**
   One event is uploaded and reaches Core; while its answer travels back, the heartbeat's queue summary ages
   the queue out and the next event is given sequence 1 again; the answer then acknowledges that event.
   */
  const STEPS: seq<Step> :=
    [Collect(Event, None, 1, 0), Connect(true), Begin(10, 0), Attempt(0), Deliver(0),
     Look(100), Collect(Event, None, 1, 100), Finish(1)]

  const LIMITS := Limits(1000, 10)
  const FIRST := Payload(0, None, false)
  const LATER := Payload(3, None, false)
  const ROW := Row(1, Event, FIRST, 1, 0, 0, None)
  const TRIED_ROW := Row(1, Event, FIRST, 1, 0, 1, Some(0))
  const LATER_ROW := Row(1, Event, LATER, 1, 100, 0, None)
  const SENT := Message(1, 1, 1, [FIRST], false)
  const ADMITTED := Admitted(Event, false)

  const S0 := Init(LIMITS)
  const S1 := S0.(q := QueueState([ROW], 2, 0, 0, false), ledger := [FIRST], history := [ADMITTED])
  const S2 := S1.(core := Core([], 1), session := 1, answers := {0})
  const S3 := S2.(sender := Sending([ROW], 0, false))
  const S4 := S3.(q := QueueState([TRIED_ROW], 2, 0, 0, false), net := [SENT], sender := Sending([ROW], 1, false),
                  history := [ADMITTED, Tried([0])])
  const S5 := S4.(core := Core([FIRST], 1), answers := {0, 1})
  const S6 := S5.(q := QueueState([], 1, 0, 1, true), ledger := [], history := [ADMITTED, Tried([0]), Dropped([0])])
  const S7 := S6.(q := QueueState([LATER_ROW], 2, 0, 1, true), ledger := [LATER],
                  history := [ADMITTED, Tried([0]), Dropped([0]), ADMITTED])
  const S8 := S7.(q := QueueState([], 2, 1, 1, true), sender := Idle,
                  history := [ADMITTED, Tried([0]), Dropped([0]), ADMITTED, Acked([3])])

  lemma Step0() ensures Apply(S0, STEPS[0]) == S1 {}

  lemma Step1() ensures Apply(S1, STEPS[1]) == S2 {}

  lemma Step2() ensures Apply(S2, STEPS[2]) == S3 {
    assert !AnyOlder([ROW], -10) && !AnyReplay([ROW]) && MaxAttempts([ROW]) == 0;
    assert CutEvents([ROW], 1, {}) == [ROW];
  }

  lemma Step3() ensures Apply(S3, STEPS[3]) == S4 {
    assert MarkAttempted(S3.q, Sequences([ROW]), 0).rows == [TRIED_ROW];
    assert Payloads([ROW]) == [FIRST] && Ids([ROW]) == [0];
  }

  lemma Step4() ensures Apply(S4, STEPS[4]) == S5 {}

  lemma Step5() ensures Apply(S5, STEPS[5]) == S6 {
    assert S5.q.rows[0].createdAt < 90;
    assert Ids([TRIED_ROW]) == [0];
  }

  lemma Step6() ensures Apply(S6, STEPS[6]) == S7 {}

  lemma Step7() ensures Apply(S7, STEPS[7]) == S8 {
    var rows := [LATER_ROW];
    assert rows[1..] == [] && After(rows, 1) == [];
    assert UpTo(rows, 1) == [rows[0]] + UpTo(rows[1..], 1) == rows;
    assert Ids(rows)[0] == LATER.id == 3;
    assert Ids(rows) == [3];
  }

  lemma OneMore(s: System, steps: seq<Step>, k: nat, t: System, end: System)
    requires k < |steps| && Apply(s, steps[k]) == t && Run(t, steps[k + 1..]) == end
    ensures Run(s, steps[k..]) == end
  {
    assert steps[k..][1..] == steps[k + 1..];
  }

  lemma StepsEndAtS8()
    ensures Run(Init(LIMITS), STEPS) == S8
  {
    Step7(); OneMore(S7, STEPS, 7, S8, S8);
    Step6(); OneMore(S6, STEPS, 6, S7, S8);
    Step5(); OneMore(S5, STEPS, 5, S6, S8);
    Step4(); OneMore(S4, STEPS, 4, S5, S8);
    Step3(); OneMore(S3, STEPS, 3, S4, S8);
    Step2(); OneMore(S2, STEPS, 2, S3, S8);
    Step1(); OneMore(S1, STEPS, 1, S2, S8);
    Step0(); OneMore(S0, STEPS, 0, S1, S8);
    assert STEPS[0..] == STEPS;
  }

  /** The item with id 3 was accepted and never dropped, yet it is neither in Core's log nor queued. */
  lemma AcceptedItemVanishes()
    ensures var s := Run(Init(LIMITS), STEPS); Vanished(s, 3) && s.q.dropped == 1
  {
    StepsEndAtS8();
  }
}
