/**
 A concrete run in which a session's cursor is applied after a later acknowledgement. The runtime publishes
 the new session before it resynchronises the queue, so the upload thread can finish a batch in between.
 */
module LateCursor {
  import opened Wrappers
  import opened UplinkQueue
  import opened UplinkProtocol
  import opened ExactlyOnce
  import LostItem

  /**
   The session is connected at cursor 0; the upload thread uploads the first event and has it acknowledged;
   only then is cursor 0 applied, so the next event is given sequence 1 again, and the next session's cursor
   acknowledges it although Core never saw it.
   */
  const STEPS: seq<Step> :=
    [Connect(true), Collect(Event, None, 1, 0), Begin(10, 0), Attempt(0), Deliver(0), Finish(1), Sync(0),
     Collect(Event, None, 1, 0), Connect(true), Sync(1)]

  const LIMITS := Limits(1000, 10)
  const FIRST := Payload(0, None, false)
  const LATER := Payload(4, None, false)
  const ROW := Row(1, Event, FIRST, 1, 0, 0, None)
  const TRIED_ROW := Row(1, Event, FIRST, 1, 0, 1, Some(0))
  const LATER_ROW := Row(1, Event, LATER, 1, 0, 0, None)
  const ADMITTED := Admitted(Event, false)

  const S0 := Init(LIMITS)
  const S1 := S0.(core := Core([], 1), session := 1, answers := {0})
  const S2 := S1.(q := QueueState([ROW], 2, 0, 0, false), ledger := [FIRST], history := [ADMITTED])
  const S3 := S2.(sender := Sending([ROW], 0, false))
  const S4 := S3.(q := QueueState([TRIED_ROW], 2, 0, 0, false), net := [Message(1, 1, 1, [FIRST], false)],
                  sender := Sending([ROW], 1, false), history := [ADMITTED, Tried([0])])
  const S5 := S4.(core := Core([FIRST], 1), answers := {0, 1})
  const S6 := S5.(q := QueueState([], 2, 1, 0, false), sender := Idle, history := [ADMITTED, Tried([0]), Acked([0])])
  const S7 := S6.(q := QueueState([], 1, 0, 0, false), ledger := [],
                  history := [ADMITTED, Tried([0]), Acked([0]), Acked([])])
  const S8 := S7.(q := QueueState([LATER_ROW], 2, 0, 0, false), ledger := [LATER],
                  history := [ADMITTED, Tried([0]), Acked([0]), Acked([]), ADMITTED])
  const S9 := S8.(core := Core([FIRST], 2), session := 2)
  const S10 := S9.(q := QueueState([], 2, 1, 0, false),
                   history := [ADMITTED, Tried([0]), Acked([0]), Acked([]), ADMITTED, Acked([4])])

  lemma Step0() ensures Apply(S0, STEPS[0]) == S1 {}

  lemma Step1() ensures Apply(S1, STEPS[1]) == S2 {}

  lemma Step2() ensures Apply(S2, STEPS[2]) == S3 {
    assert !AnyOlder([ROW], -10) && !AnyReplay([ROW]) && MaxAttempts([ROW]) == 0;
    assert CutEvents([ROW], 1, {}) == [ROW];
  }

  lemma Step3() ensures Apply(S3, STEPS[3]) == S4 {
    assert MarkAttempted(S3.q, Sequences([ROW]), 0).rows == [TRIED_ROW];
    assert Payloads([ROW]) == [FIRST] && Ids([ROW]) == [0];
  }

  lemma Step4() ensures Apply(S4, STEPS[4]) == S5 {}

  /** A single row at sequence 1 goes with cursor 1. */
  lemma OneRowGoes(row: Row)
    requires row.sequence == 1
    ensures After([row], 1) == [] && Ids(UpTo([row], 1)) == [row.payload.id]
  {
    var rows := [row];
    assert rows[1..] == [] && After(rows[1..], 1) == [];
    assert UpTo(rows, 1) == [rows[0]] + UpTo(rows[1..], 1) == rows;
    assert Ids(rows)[0] == row.payload.id;
  }

  lemma Step5() ensures Apply(S5, STEPS[5]) == S6 {
    OneRowGoes(TRIED_ROW);
  }

  lemma Step6() ensures Apply(S6, STEPS[6]) == S7 {
    assert UpTo([], 0) == [] && Ids([]) == [];
  }

  lemma Step7() ensures Apply(S7, STEPS[7]) == S8 {}

  lemma Step8() ensures Apply(S8, STEPS[8]) == S9 {}

  lemma Step9() ensures Apply(S9, STEPS[9]) == S10 {
    OneRowGoes(LATER_ROW);
  }

  lemma StepsEndAtS10()
    ensures Run(Init(LIMITS), STEPS) == S10
  {
    Step9(); LostItem.OneMore(S9, STEPS, 9, S10, S10);
    Step8(); LostItem.OneMore(S8, STEPS, 8, S9, S10);
    Step7(); LostItem.OneMore(S7, STEPS, 7, S8, S10);
    Step6(); LostItem.OneMore(S6, STEPS, 6, S7, S10);
    Step5(); LostItem.OneMore(S5, STEPS, 5, S6, S10);
    Step4(); LostItem.OneMore(S4, STEPS, 4, S5, S10);
    Step3(); LostItem.OneMore(S3, STEPS, 3, S4, S10);
    Step2(); LostItem.OneMore(S2, STEPS, 2, S3, S10);
    Step1(); LostItem.OneMore(S1, STEPS, 1, S2, S10);
    Step0(); LostItem.OneMore(S0, STEPS, 0, S1, S10);
    assert STEPS[0..] == STEPS;
  }

  /** No age limit was reached and nothing was counted as dropped, yet the item with id 4 is gone. */
  lemma LateCursorLosesAnItem()
    ensures var s := Run(Init(LIMITS), STEPS); Vanished(s, 4) && s.q.dropped == 0
  {
    StepsEndAtS10();
  }
}
