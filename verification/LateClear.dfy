/** A concrete run in which the reconciliation flag is cleared after its snapshot was itself lost. */
module LateClear {
  import opened Wrappers
  import opened UplinkQueue
  import opened UplinkProtocol
  import opened LossCoverage
  import LostItem

  /**
   An oversized event is refused, which asks for reconciliation; the snapshot is accepted; before the flag is
   cleared another thread reads the queue and ages the snapshot out.
   */
  const STEPS: seq<Step> := [Collect(Event, None, 20, 0), Collect(Snapshot, None, 1, 0), Look(100), Clear(1)]

  const LIMITS := Limits(10, 10)
  const ROW := Row(1, Snapshot, Payload(1, None, false), 1, 0, 0, None)

  const S0 := Init(LIMITS)
  const S1 := S0.(q := QueueState([], 1, 0, 1, true), history := [Refused])
  const S2 := S1.(q := QueueState([ROW], 2, 0, 1, true), ledger := [ROW.payload],
                  history := [Refused, Admitted(Snapshot, false)])
  const S3 := S2.(q := QueueState([], 1, 0, 2, true), ledger := [],
                  history := [Refused, Admitted(Snapshot, false), Dropped([1])])
  const S4 := S3.(q := QueueState([], 1, 0, 2, false))

  lemma Step0() ensures Apply(S0, STEPS[0]) == S1 {}

  lemma Step1() ensures Apply(S1, STEPS[1]) == S2 {}

  lemma Step2() ensures Apply(S2, STEPS[2]) == S3 {
    assert S2.q.rows[0].createdAt < 90;
    assert Ids([ROW]) == [1];
  }

  lemma Step3() ensures Apply(S3, STEPS[3]) == S4 {}

  /** Two items were lost, the queue is empty, and nothing asks for the snapshot that would repair it. */
  lemma LateClearUncoversALoss()
    ensures var s := Run(Init(LIMITS), STEPS); Uncovered(s) && !LossIsCovered(s) && s.q.dropped == 2 && s.q.rows == []
  {
    Step3(); LostItem.OneMore(S3, STEPS, 3, S4, S4);
    Step2(); LostItem.OneMore(S2, STEPS, 2, S3, S4);
    Step1(); LostItem.OneMore(S1, STEPS, 1, S2, S4);
    Step0(); LostItem.OneMore(S0, STEPS, 0, S1, S4);
    assert STEPS[0..] == STEPS;
    assert IsDrop(S4.history[2]);
  }
}
