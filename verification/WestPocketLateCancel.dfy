// The one way a collecting pocket ends up with closed bills: a worker stops waiting for a
// cancel call, a second worker is refused because a payment was submitted, the payee sends
// that payment back, and the first call still goes through.
module WestPocketLateCancel {
  import opened Common
  import opened Split
  import opened PaymentBills
  import opened WestPocket
  import Safety = WestPocketSafety

  const ROWS := [Member(1, 1, None), Member(2, 1, None)]

  // Two cents between the owner and one member.
  function Deal(status: PocketStatus, revision: nat, members: seq<Member>, own: int, owed: int,
        published: bool): Pocket {
    Pocket(7, 1, 2, status, revision, members, own, owed, published)
  }

  function Table(status: BillStatus, version: nat): seq<Bill> {
    [Bill(WestPocketSource(7), 2, 1, 1, status, version)]
  }

  function Asked(op: Op, status: BillStatus, version: nat, stage: ActStage): Act {
    Act(op, 0, Table(status, version)[0], stage)
  }

  const BILLED := CreateCall(2, 1, 1, Done(Created(0, Table(Unpaid, 0)[0])))
  const PAID := Asked(Pay, Unpaid, 0, Over)

  function At(p: Pocket, bills: seq<Bill>, clock: nat, calls: seq<Call>, sourceLock: Option<nat>, run: Run,
        acts: seq<Act>): State {
    State(p, bills, clock, calls, sourceLock, run, acts, [])
  }

  const S0 := At(Deal(Draft, 1, [Member(1, 0, None)], 0, 0, false), [], 0, [], None, Idle, [])
  const S1 := At(Deal(Draft, 2, [Member(1, 0, None), Member(2, 0, None)], 0, 0, false), [], 0, [], None, Idle, [])
  const S2 := At(Deal(Publishing, 3, ROWS, 1, 1, false), [], 0, [], None, Idle, [])
  const S3 := At(Deal(Publishing, 3, ROWS, 1, 1, false), [], 0, [], None, PublishLoop(ROWS, 0), [])
  const S4 := At(Deal(Publishing, 3, ROWS, 1, 1, false), [], 0, [], None, PublishLoop(ROWS, 1), [])
  const S5 := At(Deal(Publishing, 3, ROWS, 1, 1, false), [], 0, [CreateCall(2, 1, 1, Waiting)], None,
      PublishWait(ROWS, 1, 0), [])
  const S6 := At(Deal(Publishing, 3, ROWS, 1, 1, false), [], 0, [CreateCall(2, 1, 1, Locked)], Some(0),
      PublishWait(ROWS, 1, 0), [])
  const S7 := At(Deal(Publishing, 3, ROWS, 1, 1, false), [], 0, [CreateCall(2, 1, 1, Authorized)], Some(0),
      PublishWait(ROWS, 1, 0), [])
  const S8 := At(Deal(Publishing, 3, ROWS, 1, 1, false), Table(Unpaid, 0), 1, [BILLED], None, PublishWait(ROWS, 1, 0),
      [])
  const S9 := At(Deal(Publishing, 3, ROWS, 1, 1, false), Table(Unpaid, 0), 1, [BILLED], None,
      PublishRecord(ROWS, 1, 0), [])
  const S10 := At(Deal(Publishing, 3, [Member(1, 1, None), Member(2, 1, Some(0))], 1, 1, false), Table(Unpaid, 0), 1,
      [BILLED], None, PublishLoop(ROWS, 2), [])
  const S11 := At(Deal(Collecting, 4, [Member(1, 1, None), Member(2, 1, Some(0))], 1, 1, true), Table(Unpaid, 0), 1,
      [BILLED], None, Idle, [])
  const S12 := At(Deal(Collecting, 4, [Member(1, 1, None), Member(2, 1, Some(0))], 1, 1, true), Table(Unpaid, 0), 1,
      [BILLED], None, Idle, [Asked(Pay, Unpaid, 0, Read)])
  const S13 := At(Deal(Collecting, 4, [Member(1, 1, None), Member(2, 1, Some(0))], 1, 1, true), Table(Unpaid, 0), 1,
      [BILLED], None, Idle, [Asked(Pay, Unpaid, 0, Checked)])
  const S14 := At(Deal(Collecting, 4, [Member(1, 1, None), Member(2, 1, Some(0))], 1, 1, true), Table(Submitted, 1), 2,
      [BILLED], None, Idle, [PAID])
  const S15 := At(Deal(Collecting, 4, [Member(1, 1, None), Member(2, 1, Some(0))], 1, 1, true), Table(Submitted, 1), 2,
      [BILLED], None, Idle, [PAID, Asked(SendBack, Submitted, 1, Read)])
  const S16 := At(Deal(Collecting, 4, [Member(1, 1, None), Member(2, 1, Some(0))], 1, 1, true), Table(Submitted, 1), 2,
      [BILLED], None, Idle, [PAID, Asked(SendBack, Submitted, 1, Checked)])
  const S17 := At(Deal(Cancelling, 5, [Member(1, 1, None), Member(2, 1, Some(0))], 1, 1, true), Table(Submitted, 1), 2,
      [BILLED], None, Idle, [PAID, Asked(SendBack, Submitted, 1, Checked)])
  const S18 := At(Deal(Cancelling, 5, [Member(1, 1, None), Member(2, 1, Some(0))], 1, 1, true), Table(Submitted, 1), 2,
      [BILLED, CancelCall(Waiting)], None, CancelWait(1), [PAID, Asked(SendBack, Submitted, 1, Checked)])
  const S19 := At(Deal(Cancelling, 5, [Member(1, 1, None), Member(2, 1, Some(0))], 1, 1, true), Table(Submitted, 1), 2,
      [BILLED, CancelCall(Waiting)], None, Idle, [PAID, Asked(SendBack, Submitted, 1, Checked)])
  const S20 := At(Deal(Cancelling, 5, [Member(1, 1, None), Member(2, 1, Some(0))], 1, 1, true), Table(Submitted, 1), 2,
      [BILLED, CancelCall(Waiting), CancelCall(Waiting)], None, CancelWait(2),
      [PAID, Asked(SendBack, Submitted, 1, Checked)])
  const S21 := At(Deal(Cancelling, 5, [Member(1, 1, None), Member(2, 1, Some(0))], 1, 1, true), Table(Submitted, 1), 2,
      [BILLED, CancelCall(Waiting), CancelCall(Locked)], Some(2), CancelWait(2),
      [PAID, Asked(SendBack, Submitted, 1, Checked)])
  const S22 := At(Deal(Cancelling, 5, [Member(1, 1, None), Member(2, 1, Some(0))], 1, 1, true), Table(Submitted, 1), 2,
      [BILLED, CancelCall(Waiting), CancelCall(Authorized)], Some(2), CancelWait(2),
      [PAID, Asked(SendBack, Submitted, 1, Checked)])
  const S23 := At(Deal(Cancelling, 5, [Member(1, 1, None), Member(2, 1, Some(0))], 1, 1, true), Table(Submitted, 1), 2,
      [BILLED, CancelCall(Waiting), CancelCall(Done(Refused))], None, CancelWait(2),
      [PAID, Asked(SendBack, Submitted, 1, Checked)])
  const S24 := At(Deal(Cancelling, 5, [Member(1, 1, None), Member(2, 1, Some(0))], 1, 1, true), Table(Submitted, 1), 2,
      [BILLED, CancelCall(Locked), CancelCall(Done(Refused))], Some(1), CancelWait(2),
      [PAID, Asked(SendBack, Submitted, 1, Checked)])
  const S25 := At(Deal(Cancelling, 5, [Member(1, 1, None), Member(2, 1, Some(0))], 1, 1, true), Table(Submitted, 1), 2,
      [BILLED, CancelCall(Authorized), CancelCall(Done(Refused))], Some(1), CancelWait(2),
      [PAID, Asked(SendBack, Submitted, 1, Checked)])
  const S26 := At(Deal(Cancelling, 5, [Member(1, 1, None), Member(2, 1, Some(0))], 1, 1, true), Table(Unpaid, 2), 3,
      [BILLED, CancelCall(Authorized), CancelCall(Done(Refused))], Some(1), CancelWait(2),
      [PAID, Asked(SendBack, Submitted, 1, Over)])
  const S27 := At(Deal(Cancelling, 5, [Member(1, 1, None), Member(2, 1, Some(0))], 1, 1, true), Table(Closed, 3), 4,
      [BILLED, CancelCall(Done(AllClosed)), CancelCall(Done(Refused))], None, CancelWait(2),
      [PAID, Asked(SendBack, Submitted, 1, Over)])
  const S28 := At(Deal(Cancelling, 5, [Member(1, 1, None), Member(2, 1, Some(0))], 1, 1, true), Table(Closed, 3), 4,
      [BILLED, CancelCall(Done(AllClosed)), CancelCall(Done(Refused))], None, CancelRefused,
      [PAID, Asked(SendBack, Submitted, 1, Over)])
  const S29 := At(Deal(Collecting, 6, [Member(1, 1, None), Member(2, 1, Some(0))], 1, 1, true), Table(Closed, 3), 4,
      [BILLED, CancelCall(Done(AllClosed)), CancelCall(Done(Refused))], None, Idle,
      [PAID, Asked(SendBack, Submitted, 1, Over)])

  // ------------------------------------------------------------------ the steps, a few at a time

  lemma RowsSort()
    ensures SortById(NewRows([1, 2])) == [Member(1, 0, None), Member(2, 0, None)]
  {
  }

  lemma RowsSplit()
    ensures SplitSpec(2, 1, [Member(1, 0, None), Member(2, 0, None)]) == Ok(Allocation(ROWS, 1, 1))
  {
    RowsSort();
    var rows := [Member(1, 0, None), Member(2, 0, None)];
    assert NewRows([1, 2]) == rows;
    assert Allocate(1, 0, rows) == ROWS;
    assert OwnShare(ROWS[..1], 1) == 1;
  }

  lemma Drafts()
    ensures Next(S0, SetMembers(1, 1, [1, 2])) == S1
  {
  }

  lemma Publishes()
    ensures Next(S1, Publish(1, 2)) == S2
  {
    RowsSplit();
  }

  lemma Starts()
    ensures Next(S2, StartPublish) == S3
    ensures Next(S3, NextMember) == S4
  {
  }

  lemma Sends()
    ensures Next(S4, NextMember) == S5
    ensures Next(S5, LockSource(0)) == S6
  {
  }

  lemma Creates()
    ensures Next(S6, Authorize(0)) == S7
  {
    assert ROWS[1] == Member(2, 1, None);
  }

  lemma Inserts()
    ensures Next(S7, Apply(0)) == S8
  {
  }

  lemma Records()
    ensures Next(S8, TakeBill) == S9
    ensures Next(S9, RecordBill) == S10
  {
  }

  lemma Collects()
    ensures Next(S10, FinishPublish) == S11
    ensures Next(S11, ReadBill(Pay, 0)) == S12
  {
  }

  lemma MayPay()
    ensures Next(S12, CheckCollecting(0)) == S13
  {
    assert S12.pocket.members[1] == Member(2, 1, Some(0));
  }

  lemma Pays()
    ensures Next(S13, WriteBill(0)) == S14
  {
  }

  lemma ReadsAgain()
    ensures Next(S14, ReadBill(SendBack, 0)) == S15
  {
  }

  lemma MaySendBack()
    ensures Next(S15, CheckCollecting(1)) == S16
  {
    assert S15.pocket.members[1] == Member(2, 1, Some(0));
  }

  lemma Cancels()
    ensures Next(S16, Cancel(1, 4)) == S17
    ensures Next(S17, StartCancel) == S18
  {
  }

  lemma Abandons()
    ensures Next(S18, StopRun) == S19
    ensures Next(S19, StartCancel) == S20
  {
  }

  lemma ComesSecond()
    ensures Next(S20, LockSource(2)) == S21
    ensures Next(S21, Authorize(2)) == S22
  {
  }

  lemma IsRefused()
    ensures Next(S22, Apply(2)) == S23
  {
  }

  lemma ComesLate()
    ensures Next(S23, LockSource(1)) == S24
    ensures Next(S24, Authorize(1)) == S25
  {
  }

  lemma SendsBack()
    ensures Next(S25, WriteBill(1)) == S26
  {
  }

  lemma ClosesAnyway()
    ensures Next(S26, Apply(1)) == S27
  {
  }

  lemma ReturnsAnyway()
    ensures Next(S27, TakeVerdict) == S28
    ensures Next(S28, ReturnToCollecting) == S29
  {
  }

  lemma Extend(trace: seq<Step>, from: State, step: Step, to: State) returns (longer: seq<Step>)
    requires Runs(S0, trace) == from && Next(from, step) == to
    ensures Runs(S0, longer) == to
  {
    longer := trace + [step];
    RunsThrough(S0, trace, step);
  }

  lemma RunPublished() returns (trace: seq<Step>)
    ensures Runs(S0, trace) == S11
  {
    trace := [];
    Drafts();
    trace := Extend(trace, S0, SetMembers(1, 1, [1, 2]), S1);
    Publishes();
    trace := Extend(trace, S1, Publish(1, 2), S2);
    Starts();
    trace := Extend(trace, S2, StartPublish, S3);
    trace := Extend(trace, S3, NextMember, S4);
    Sends();
    trace := Extend(trace, S4, NextMember, S5);
    trace := Extend(trace, S5, LockSource(0), S6);
    Creates();
    trace := Extend(trace, S6, Authorize(0), S7);
    Inserts();
    trace := Extend(trace, S7, Apply(0), S8);
    Records();
    trace := Extend(trace, S8, TakeBill, S9);
    trace := Extend(trace, S9, RecordBill, S10);
    Collects();
    trace := Extend(trace, S10, FinishPublish, S11);
  }

  lemma RunSentBack() returns (trace: seq<Step>)
    ensures Runs(S0, trace) == S18
  {
    trace := RunPublished();
    trace := Extend(trace, S11, ReadBill(Pay, 0), S12);
    MayPay();
    trace := Extend(trace, S12, CheckCollecting(0), S13);
    Pays();
    trace := Extend(trace, S13, WriteBill(0), S14);
    ReadsAgain();
    trace := Extend(trace, S14, ReadBill(SendBack, 0), S15);
    MaySendBack();
    trace := Extend(trace, S15, CheckCollecting(1), S16);
    Cancels();
    trace := Extend(trace, S16, Cancel(1, 4), S17);
    trace := Extend(trace, S17, StartCancel, S18);
  }

  lemma RunRefused() returns (trace: seq<Step>)
    ensures Runs(S0, trace) == S23
  {
    trace := RunSentBack();
    Abandons();
    trace := Extend(trace, S18, StopRun, S19);
    trace := Extend(trace, S19, StartCancel, S20);
    ComesSecond();
    trace := Extend(trace, S20, LockSource(2), S21);
    trace := Extend(trace, S21, Authorize(2), S22);
    IsRefused();
    trace := Extend(trace, S22, Apply(2), S23);
  }

  lemma RunClosed() returns (trace: seq<Step>)
    ensures Runs(S0, trace) == S29
  {
    trace := RunRefused();
    ComesLate();
    trace := Extend(trace, S23, LockSource(1), S24);
    trace := Extend(trace, S24, Authorize(1), S25);
    SendsBack();
    trace := Extend(trace, S25, WriteBill(1), S26);
    ClosesAnyway();
    trace := Extend(trace, S26, Apply(1), S27);
    ReturnsAnyway();
    trace := Extend(trace, S27, TakeVerdict, S28);
    trace := Extend(trace, S28, ReturnToCollecting, S29);
  }

  // A run from a newly created pocket to a collecting one whose only bill is closed.
  lemma LateCancelCloses() returns (trace: seq<Step>)
    ensures Fresh(S0) && Runs(S0, trace).pocket.status == Collecting && Safety.SomeClosed(Runs(S0, trace))
  {
    trace := RunClosed();
    assert S29.bills[0].status == Closed;
  }
}
