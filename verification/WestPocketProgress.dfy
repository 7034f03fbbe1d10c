// What the collection protocol can always still reach: a draft is published as asked, publishing ends in
// collecting, a fully paid pocket settles, and a cancellation comes to its end.
module WestPocketProgress {
  import opened Common
  import opened Split
  import opened PaymentBills
  import opened WestPocket
  import opened WestPocketSafety
  import opened WestPocketTheorems

  lemma {:induction false} RunsAppend(s: State, first: seq<Step>, second: seq<Step>)
    ensures Runs(s, first + second) == Runs(Runs(s, first), second)
    decreases |first|
  {
    if first == [] {
      assert first + second == second;
    } else {
      assert (first + second)[1..] == first[1..] + second;
      RunsAppend(Next(s, first[0]), first[1..], second);
    }
  }

  lemma Two(s: State, a: Step, b: Step)
    ensures Runs(s, [a, b]) == Next(Next(s, a), b)
  {
    assert [a, b][1..] == [b] && [b][1..] == [];
    assert Runs(Next(s, a), [b]) == Next(Next(s, a), b);
  }

  lemma Three(s: State, a: Step, b: Step, c: Step)
    ensures Runs(s, [a, b, c]) == Next(Next(Next(s, a), b), c)
  {
    assert [a, b, c][1..] == [b, c];
    Two(Next(s, a), b, c);
  }

  // ------------------------------------------------------------------ settling

  lemma {:induction false} BillIdsFrom(members: seq<Member>, id: nat)
    requires id in BillIds(members)
    ensures exists i :: 0 <= i < |members| && members[i].billId == Some(id)
  {
    if id in BillIds(members[..|members| - 1]) {
      BillIdsFrom(members[..|members| - 1], id);
      var i :| 0 <= i < |members| - 1 && members[..|members| - 1][i].billId == Some(id);
      assert members[i].billId == Some(id);
    } else {
      assert members[|members| - 1].billId == Some(id);
    }
  }

  // A published pocket has somebody to pay, and its members' ids name bills.
  lemma LinksAreBills(s: State)
    requires Inv(s) && s.pocket.status == Collecting
    ensures BillIds(s.pocket.members) != []
    ensures forall k :: 0 <= k < |BillIds(s.pocket.members)| ==> BillIds(s.pocket.members)[k] < |s.bills|
  {
    var members := s.pocket.members;
    var i := if members[0].userId == s.pocket.ownerId then 1 else 0;
    assert Owes(s.pocket, i) && Linked(s, i);
    BillIdsFind(members, i);
    forall k | 0 <= k < |BillIds(members)| ensures BillIds(members)[k] < |s.bills| {
      BillIdsFrom(members, BillIds(members)[k]);
      var l :| 0 <= l < |members| && members[l].billId == Some(BillIds(members)[k]);
      assert Linked(s, l);
    }
  }

  // Once every bill of a collecting pocket is completed, one undisturbed refresh settles it.
  lemma PaidPocketSettles(s0: State, before: seq<Step>)
    requires Fresh(s0) && Runs(s0, before).pocket.status == Collecting
    requires forall b :: 0 <= b < |Runs(s0, before).bills| ==> Runs(s0, before).bills[b].status == Completed
    ensures var s, r := Runs(s0, before), |Runs(s0, before).refreshes|;
            var t := Runs(s, [ReadPocket, CheckBills(r), Settle(r)]);
            t.pocket == s.pocket.(status := Settled, revision := s.pocket.revision + 1) && t.bills == s.bills
  {
    Reachable(s0, before);
    PaidSettles(Runs(s0, before));
  }

  lemma PaidSettles(s: State)
    requires Inv(s) && s.pocket.status == Collecting
    requires forall b :: 0 <= b < |s.bills| ==> s.bills[b].status == Completed
    ensures var r := |s.refreshes|;
            var t := Runs(s, [ReadPocket, CheckBills(r), Settle(r)]);
            t.pocket == s.pocket.(status := Settled, revision := s.pocket.revision + 1) && t.bills == s.bills
  {
    LinksAreBills(s);
    RefreshRuns(s, |s.refreshes|);
    RefreshSettles(s);
  }

  lemma RefreshRuns(s: State, r: nat)
    ensures Runs(s, [ReadPocket, CheckBills(r), Settle(r)]) == DoSettle(DoCheckBills(DoReadPocket(s), r), r)
  {
    Three(s, ReadPocket, CheckBills(r), Settle(r));
    RefreshSteps(s, r);
    RefreshSteps(DoReadPocket(s), r);
    RefreshSteps(DoCheckBills(DoReadPocket(s), r), r);
  }

  lemma RefreshSteps(s: State, r: nat)
    ensures Next(s, ReadPocket) == DoReadPocket(s) && Next(s, CheckBills(r)) == DoCheckBills(s, r)
    ensures Next(s, Settle(r)) == DoSettle(s, r)
  {
  }

  lemma RefreshSettles(s: State)
    requires s.pocket.status == Collecting && BillIds(s.pocket.members) != []
    requires AllPaid(s.bills, BillIds(s.pocket.members))
    ensures var t := DoSettle(DoCheckBills(DoReadPocket(s), |s.refreshes|), |s.refreshes|);
            t.pocket == s.pocket.(status := Settled, revision := s.pocket.revision + 1) && t.bills == s.bills
  {
  }

  // A refresh that found every bill completed settles the pocket exactly when it is still collecting, however
  // long it took to write.
  lemma SettleStepIff(s0: State, before: seq<Step>, r: nat)
    requires Fresh(s0) && r < |Runs(s0, before).refreshes| && Runs(s0, before).refreshes[r].stage == Checked
    ensures var s, t := Runs(s0, before), Runs(Runs(s0, before), [Settle(r)]);
            && t.bills == s.bills && (forall b :: 0 <= b < |t.bills| ==> t.bills[b].status == Completed)
            && (t.pocket.status == Settled <==> s.pocket.status in {Collecting, Settled})
            && t.pocket == if s.pocket.status == Collecting
                           then s.pocket.(status := Settled, revision := s.pocket.revision + 1) else s.pocket
  {
    Reachable(s0, before);
    var s := Runs(s0, before);
    assert RefreshInv(s, s.refreshes[r]);
    assert [Settle(r)][1..] == [];
    assert Runs(s, [Settle(r)]) == Next(s, Settle(r));
  }

  // ------------------------------------------------------------------ paying

  // One undisturbed request of a payer or payee.
  function Acts(s: State, op: Op, b: nat): seq<Step> {
    [ReadBill(op, b), CheckCollecting(|s.acts|), WriteBill(|s.acts|)]
  }

  // It moves its bill from the status the request is for to the one it asks for, and nothing else.
  lemma ActMoves(s: State, op: Op, b: nat)
    requires Inv(s) && s.pocket.status == Collecting && b < |s.bills| && s.bills[b].status == op.From()
    ensures var t := Runs(s, Acts(s, op, b));
            && t.pocket == s.pocket
            && t.bills == s.bills[b := s.bills[b].(status := op.To(), updatedAt := s.clock)]
  {
    assert BillFits(s.pocket, s.bills[b]);
    ActRuns(s, op, b);
    ActWrites(s, op, b);
  }

  lemma ActRuns(s: State, op: Op, b: nat)
    ensures Runs(s, Acts(s, op, b)) == DoWriteBill(DoCheckCollecting(DoReadBill(s, op, b), |s.acts|), |s.acts|)
  {
    var a := |s.acts|;
    Three(s, ReadBill(op, b), CheckCollecting(a), WriteBill(a));
    ActSteps(s, op, b, a);
    ActSteps(DoReadBill(s, op, b), op, b, a);
    ActSteps(DoCheckCollecting(DoReadBill(s, op, b), a), op, b, a);
  }

  lemma ActSteps(s: State, op: Op, b: nat, a: nat)
    ensures Next(s, ReadBill(op, b)) == DoReadBill(s, op, b) && Next(s, CheckCollecting(a)) == DoCheckCollecting(s, a)
    ensures Next(s, WriteBill(a)) == DoWriteBill(s, a)
  {
  }

  lemma ActWrites(s: State, op: Op, b: nat)
    requires s.pocket.status == Collecting && b < |s.bills| && s.bills[b].status == op.From()
    requires BillFits(s.pocket, s.bills[b])
    ensures var t := DoWriteBill(DoCheckCollecting(DoReadBill(s, op, b), |s.acts|), |s.acts|);
            && t.pocket == s.pocket
            && t.bills == s.bills[b := s.bills[b].(status := op.To(), updatedAt := s.clock)]
  {
  }

  // The payer pays and the payee confirms, from wherever the bill is.
  lemma BillCanComplete(s: State, b: nat) returns (trace: seq<Step>)
    requires Inv(s) && s.pocket.status == Collecting && b < |s.bills| && s.bills[b].status != Closed
    ensures var t := Runs(s, trace);
            && t.pocket == s.pocket && |t.bills| == |s.bills| && t.bills[b].status == Completed
            && forall c :: 0 <= c < |s.bills| && c != b ==> t.bills[c] == s.bills[c]
  {
    trace := [];
    if s.bills[b].status == Unpaid {
      trace := Acts(s, Pay, b);
      ActMoves(s, Pay, b);
    }
    var u := Runs(s, trace);
    RunsKeep(s, trace);
    if u.bills[b].status == Submitted {
      ActMoves(u, Confirm, b);
      RunsAppend(s, trace, Acts(u, Confirm, b));
      trace := trace + Acts(u, Confirm, b);
    }
  }

  lemma {:induction false} AllCanComplete(s: State, n: nat) returns (trace: seq<Step>)
    requires Inv(s) && s.pocket.status == Collecting && !SomeClosed(s) && n <= |s.bills|
    ensures var t := Runs(s, trace);
            && t.pocket == s.pocket && |t.bills| == |s.bills|
            && (forall b :: 0 <= b < n ==> t.bills[b].status == Completed)
            && (forall b :: n <= b < |s.bills| ==> t.bills[b] == s.bills[b])
  {
    if n == 0 {
      trace := [];
    } else {
      trace := AllCanComplete(s, n - 1);
      var t := Runs(s, trace);
      RunsKeep(s, trace);
      var last := BillCanComplete(t, n - 1);
      RunsAppend(s, trace, last);
      trace := trace + last;
    }
  }

  ghost predicate CanSettle(s: State) {
    exists trace :: Runs(s, trace).pocket.status == Settled
  }

  // A reachable collecting pocket can still be paid and settled exactly when none of its bills is closed.
  lemma CollectingCanSettleIff(s0: State, before: seq<Step>)
    requires Fresh(s0) && Runs(s0, before).pocket.status == Collecting
    ensures CanSettle(Runs(s0, before)) <==> !SomeClosed(Runs(s0, before))
  {
    var s := Runs(s0, before);
    Reachable(s0, before);
    if SomeClosed(s) {
      forall trace ensures Runs(s, trace).pocket.status != Settled { NeverSettles(s, trace); }
    } else {
      var trace := SettlingRun(s);
    }
  }

  lemma NeverSettles(s: State, trace: seq<Step>)
    requires Inv(s) && SomeClosed(s)
    ensures Runs(s, trace).pocket.status != Settled
  {
    SealedRuns(s, trace);
    RunsKeep(s, trace);
  }

  lemma SettlingRun(s: State) returns (trace: seq<Step>)
    requires Inv(s) && s.pocket.status == Collecting && !SomeClosed(s)
    ensures Runs(s, trace).pocket == s.pocket.(status := Settled, revision := s.pocket.revision + 1)
  {
    var paid := AllCanComplete(s, |s.bills|);
    var t := Runs(s, paid);
    RunsKeep(s, paid);
    PaidSettles(t);
    trace := [ReadPocket, CheckBills(|t.refreshes|), Settle(|t.refreshes|)];
    RunsAppend(s, paid, trace);
    trace := paid + trace;
  }

  // ------------------------------------------------------------------ publishing

  // Nobody is inside paymentservice, and the worker is about to bill row i.
  ghost predicate Looping(s: State, rows: seq<Member>, i: nat) {
    Inv(s) && s.pocket.status == Publishing && s.sourceLock == None && s.run == PublishLoop(rows, i) && i <= |rows|
  }

  // From any reachable publishing state an undisturbed worker brings the pocket to collecting: calls and bills
  // that an earlier worker left behind do not stop it.
  lemma PublishCanFinish(s0: State, before: seq<Step>) returns (trace: seq<Step>)
    requires Fresh(s0) && Runs(s0, before).pocket.status == Publishing
    ensures var s, t := Runs(s0, before), Runs(Runs(s0, before), trace);
            t.pocket.status == Collecting && SameDeal(s.pocket, t.pocket) && ExactlyBilled(t) && !SomeClosed(t)
  {
    Reachable(s0, before);
    trace := PublishingRun(Runs(s0, before));
    RunsKeep(Runs(s0, before), trace);
    PublishedIsFrozen(Runs(s0, before), trace);
    PublishedExactly(Runs(Runs(s0, before), trace));
  }

  lemma PublishingRun(s: State) returns (trace: seq<Step>)
    requires Inv(s) && s.pocket.status == Publishing
    ensures Runs(s, trace).pocket.status == Collecting && !SomeClosed(Runs(s, trace))
  {
    var begin := BeginRun(s);
    var loop := LoopRun(Runs(s, begin), s.pocket.members, 0);
    RunsAppend(s, begin, loop);
    RunsThrough(s, begin + loop, FinishPublish);
    trace := begin + loop + [FinishPublish];
  }

  lemma BeginRun(s: State) returns (trace: seq<Step>)
    requires Inv(s) && s.pocket.status == Publishing
    ensures Looping(Runs(s, trace), s.pocket.members, 0)
  {
    var quiet := QuietRun(s);
    Two(Runs(s, quiet), StopRun, StartPublish);
    RunsAppend(s, quiet, [StopRun, StartPublish]);
    trace := quiet + [StopRun, StartPublish];
    RunsKeep(s, trace);
  }

  // The call inside the source lock fails, and nothing else changes.
  lemma QuietRun(s: State) returns (trace: seq<Step>)
    requires Inv(s)
    ensures Runs(s, trace).sourceLock == None && Runs(s, trace).pocket == s.pocket && Runs(s, trace).bills == s.bills
  {
    trace := [];
    if s.sourceLock.Some? {
      var c := s.sourceLock.value;
      trace := [FailCall(c)];
      assert [FailCall(c)][1..] == [] && Runs(s, trace) == Next(s, FailCall(c));
    }
  }

  lemma {:induction false} LoopRun(s: State, rows: seq<Member>, i: nat) returns (trace: seq<Step>)
    requires Looping(s, rows, i)
    ensures Looping(Runs(s, trace), rows, |rows|)
    decreases |rows| - i
  {
    trace := [];
    if i < |rows| {
      trace := TurnRun(s, rows, i);
      var rest := LoopRun(Runs(s, trace), rows, i + 1);
      RunsAppend(s, trace, rest);
      trace := trace + rest;
    }
  }

  lemma TurnRun(s: State, rows: seq<Member>, i: nat) returns (trace: seq<Step>)
    requires Looping(s, rows, i) && i < |rows|
    ensures Looping(Runs(s, trace), rows, i + 1)
  {
    if rows[i].userId == s.pocket.ownerId {
      trace := [NextMember];
      assert [NextMember][1..] == [] && Runs(s, trace) == Next(s, NextMember);
    } else {
      var c := |s.calls|;
      trace := BillTurn(c);
      BillTurnRuns(s, c);
      AskedTurn(s, rows, i);
      AnsweredTurn(AfterAsk(s, c), rows, i, c);
    }
    RunsKeep(s, trace);
  }

  function BillTurn(c: nat): seq<Step> {
    [NextMember, LockSource(c), Authorize(c), Apply(c), TakeBill, RecordBill]
  }

  // The state in which the call for the row has passed its check.
  function AfterAsk(s: State, c: nat): State {
    DoAuthorize(DoLockSource(DoNextMember(s), c), c)
  }

  lemma BillTurnRuns(s: State, c: nat)
    ensures Runs(s, BillTurn(c)) == DoRecordBill(DoTakeBill(DoApply(AfterAsk(s, c), c)))
  {
    var first, second := [NextMember, LockSource(c), Authorize(c)], [Apply(c), TakeBill, RecordBill];
    assert BillTurn(c) == first + second;
    RunsAppend(s, first, second);
    Three(s, NextMember, LockSource(c), Authorize(c));
    TurnSteps(s, c);
    TurnSteps(DoNextMember(s), c);
    TurnSteps(DoLockSource(DoNextMember(s), c), c);
    var u := AfterAsk(s, c);
    Three(u, Apply(c), TakeBill, RecordBill);
    TurnSteps(u, c);
    TurnSteps(DoApply(u, c), c);
    TurnSteps(DoTakeBill(DoApply(u, c)), c);
  }

  lemma TurnSteps(s: State, c: nat)
    ensures Next(s, NextMember) == DoNextMember(s) && Next(s, LockSource(c)) == DoLockSource(s, c)
    ensures Next(s, Authorize(c)) == DoAuthorize(s, c) && Next(s, Apply(c)) == DoApply(s, c)
    ensures Next(s, TakeBill) == DoTakeBill(s) && Next(s, RecordBill) == DoRecordBill(s)
  {
  }

  // The call for row i is inside the lock with its check passed.
  ghost predicate AskedFor(s: State, rows: seq<Member>, i: nat, c: nat) {
    && s.pocket.status == Publishing && i < |rows| && c < |s.calls| && s.run == PublishWait(rows, i, c)
    && s.calls[c] == CreateCall(rows[i].userId, s.pocket.ownerId, rows[i].shareCents, Authorized)
    && s.sourceLock == Some(c)
  }

  lemma AskedTurn(s: State, rows: seq<Member>, i: nat)
    requires Looping(s, rows, i) && i < |rows| && rows[i].userId != s.pocket.ownerId
    ensures var u := AfterAsk(s, |s.calls|);
            u.pocket == s.pocket && u.bills == s.bills && AskedFor(u, rows, i, |s.calls|) && SameRows(rows, u.pocket)
            && Answerable(u, rows[i])
  {
    assert SameRows(rows, s.pocket) && s.pocket.members[i].shareCents >= 1;
    AskStages(s, rows, i);
    forall b | 0 <= b < |s.bills| && s.bills[b].payerId == rows[i].userId
      ensures MatchesRow(s.bills[b], s.pocket, rows[i])
    {
      assert BillFits(s.pocket, s.bills[b]);
      var k :| 0 <= k < |s.pocket.members| && s.pocket.members[k].userId == s.bills[b].payerId
               && s.pocket.members[k].shareCents == s.bills[b].amountCents;
      assert k == i;
      assert !SomeClosed(s);
    }
  }

  // A bill the member already has is the one the worker wants.
  ghost predicate Answerable(s: State, row: Member) {
    forall b :: 0 <= b < |s.bills| && s.bills[b].payerId == row.userId ==> MatchesRow(s.bills[b], s.pocket, row)
  }

  lemma AskStages(s: State, rows: seq<Member>, i: nat)
    requires s.pocket.status == Publishing && s.sourceLock == None && s.run == PublishLoop(rows, i) && i < |rows|
    requires rows[i].userId != s.pocket.ownerId && SameRows(rows, s.pocket) && s.pocket.members[i].shareCents >= 1
    ensures var u := AfterAsk(s, |s.calls|);
            u.pocket == s.pocket && u.bills == s.bills && AskedFor(u, rows, i, |s.calls|)
  {
    var c := |s.calls|;
    var s1 := DoNextMember(s);
    assert s1.calls[c] == CreateCall(rows[i].userId, s.pocket.ownerId, rows[i].shareCents, Waiting);
    var s2 := DoLockSource(s1, c);
    assert s2.calls[c] == CreateCall(rows[i].userId, s.pocket.ownerId, rows[i].shareCents, Locked);
    assert BillAllowed(s2.pocket, rows[i].userId, s.pocket.ownerId, rows[i].shareCents, Publishing) by {
      assert s.pocket.members[i].userId == rows[i].userId && s.pocket.members[i].shareCents == rows[i].shareCents;
    }
  }

  lemma AnsweredTurn(s: State, rows: seq<Member>, i: nat, c: nat)
    requires AskedFor(s, rows, i, c) && Answerable(s, rows[i])
    ensures var t := DoRecordBill(DoTakeBill(DoApply(s, c)));
            t.pocket.status == Publishing && t.sourceLock == None && t.run == PublishLoop(rows, i + 1)
  {
    var u := DoApply(s, c);
    assert u.calls[c].stage.Done? && u.calls[c].stage.reply.Created?;
    assert MatchesRow(u.calls[c].stage.reply.seen, u.pocket, rows[i]);
  }

  // ------------------------------------------------------------------ cancelling

  ghost predicate SomebodyPaid(s: State) {
    exists b :: 0 <= b < |s.bills| && s.bills[b].status in {Submitted, Completed}
  }

  // From any reachable cancelling state an undisturbed worker ends the cancellation: it is granted, with every
  // bill closed, exactly when nobody has paid; otherwise the pocket collects again and no bill has changed.
  lemma CancelCanFinish(s0: State, before: seq<Step>) returns (trace: seq<Step>)
    requires Fresh(s0) && Runs(s0, before).pocket.status == Cancelling
    ensures var s, t := Runs(s0, before), Runs(Runs(s0, before), trace);
            && (!SomebodyPaid(s) ==> t.pocket.status == Cancelled && |t.bills| == |s.bills| && EveryBillClosed(t))
            && (SomebodyPaid(s) ==> t.pocket.status == Collecting && t.bills == s.bills)
  {
    var s := Runs(s0, before);
    Reachable(s0, before);
    var quiet := QuietRun(s);
    RunsKeep(s, quiet);
    var u := Runs(s, quiet);
    var c := |u.calls|;
    trace := quiet + CancelTurn(u, c);
    RunsAppend(s, quiet, CancelTurn(u, c));
    CancelTurnRuns(u, c);
    CancelTurnEnds(u, c);
    RunsKeep(s, trace);
  }

  predicate Granted(s: State) {
    !PaymentStarted(s.bills, WestPocketSource(s.pocket.id))
  }

  function CancelTurn(s: State, c: nat): seq<Step> {
    [StopRun, StartCancel, LockSource(c), Authorize(c), Apply(c), TakeVerdict]
    + if Granted(s) then [FinishCancel] else [ReturnToCollecting]
  }

  function AfterVerdict(s: State, c: nat): State {
    DoTakeVerdict(DoApply(DoAuthorize(DoLockSource(DoStartCancel(s.(run := Idle)), c), c), c))
  }

  lemma CancelTurnRuns(s: State, c: nat)
    ensures Runs(s, CancelTurn(s, c))
         == if Granted(s) then DoFinishCancel(AfterVerdict(s, c)) else DoReturnToCollecting(AfterVerdict(s, c))
  {
    var first, second := [StopRun, StartCancel, LockSource(c)], [Authorize(c), Apply(c), TakeVerdict];
    var last := if Granted(s) then FinishCancel else ReturnToCollecting;
    assert CancelTurn(s, c) == first + second + [last];
    RunsThrough(s, first + second, last);
    RunsAppend(s, first, second);
    Three(s, StopRun, StartCancel, LockSource(c));
    CancelSteps(s, c);
    CancelSteps(s.(run := Idle), c);
    CancelSteps(DoStartCancel(s.(run := Idle)), c);
    var u := DoLockSource(DoStartCancel(s.(run := Idle)), c);
    Three(u, Authorize(c), Apply(c), TakeVerdict);
    CancelSteps(u, c);
    CancelSteps(DoAuthorize(u, c), c);
    VerdictSteps(DoApply(DoAuthorize(u, c), c));
    VerdictSteps(AfterVerdict(s, c));
  }

  lemma CancelSteps(s: State, c: nat)
    ensures Next(s, StopRun) == s.(run := Idle) && Next(s, StartCancel) == DoStartCancel(s)
    ensures Next(s, LockSource(c)) == DoLockSource(s, c) && Next(s, Authorize(c)) == DoAuthorize(s, c)
    ensures Next(s, Apply(c)) == DoApply(s, c)
  {
  }

  lemma VerdictSteps(s: State)
    ensures Next(s, TakeVerdict) == DoTakeVerdict(s) && Next(s, FinishCancel) == DoFinishCancel(s)
    ensures Next(s, ReturnToCollecting) == DoReturnToCollecting(s)
  {
  }

  lemma CancelTurnEnds(s: State, c: nat)
    requires Inv(s) && s.pocket.status == Cancelling && s.sourceLock == None && c == |s.calls|
    ensures Granted(s) <==> !SomebodyPaid(s)
    ensures var u := AfterVerdict(s, c);
            var t := if Granted(s) then DoFinishCancel(u) else DoReturnToCollecting(u);
            if Granted(s) then t.pocket.status == Cancelled && |t.bills| == |s.bills|
            else t.pocket.status == Collecting && t.bills == s.bills
  {
    forall b | 0 <= b < |s.bills| ensures s.bills[b].source == WestPocketSource(s.pocket.id) {
      assert BillFits(s.pocket, s.bills[b]);
    }
    VerdictIs(s, c);
  }

  lemma VerdictIs(s: State, c: nat)
    requires s.pocket.status == Cancelling && s.sourceLock == None && c == |s.calls|
    ensures var u := AfterVerdict(s, c);
            && u.pocket == s.pocket && |u.bills| == |s.bills|
            && (if Granted(s) then u.run == CancelAccepted else u.run == CancelRefused && u.bills == s.bills)
  {
    var s1 := DoStartCancel(s.(run := Idle));
    assert s1.calls[c] == CancelCall(Waiting);
    var s2 := DoLockSource(s1, c);
    assert s2.calls[c] == CancelCall(Locked);
    var s3 := DoAuthorize(s2, c);
    assert s3.calls[c] == CancelCall(Authorized);
  }

  lemma {:induction false} RevisionsCount(s: State, trace: seq<Step>)
    requires Inv(s)
    ensures s.pocket.revision <= Runs(s, trace).pocket.revision
    decreases |trace|
  {
    if trace != [] {
      StepFreezes(s, trace[0]);
      StepKeeps(s, trace[0]);
      RevisionsCount(Next(s, trace[0]), trace[1..]);
    }
  }

  // What the owner may cancel can be cancelled: from any reachable draft, publishing or collecting pocket some run
  // that starts with the owner's request ends cancelled, unless somebody has paid, when it collects as before.
  lemma CancelRequestEnds(s0: State, before: seq<Step>) returns (rest: seq<Step>)
    requires Fresh(s0) && Runs(s0, before).pocket.status in {Draft, Publishing, Collecting}
    ensures var s := Runs(s0, before);
            var t := Runs(s, [Cancel(s.pocket.ownerId, s.pocket.revision)] + rest);
            && (!SomebodyPaid(s) ==> t.pocket.status == Cancelled && |t.bills| == |s.bills| && EveryBillClosed(t))
            && (SomebodyPaid(s) ==> t.pocket.status == Collecting && t.bills == s.bills)
  {
    var s := Runs(s0, before);
    Reachable(s0, before);
    FreshInv(s0);
    RevisionsCount(s0, before);
    var ask := Cancel(s.pocket.ownerId, s.pocket.revision);
    CancelAsks(s);
    rest := [];
    assert [ask][1..] == [] && Runs(s, [ask]) == Next(s, ask);
    if s.pocket.status != Draft {
      RunsAppend(s0, before, [ask]);
      rest := CancelCanFinish(s0, before + [ask]);
    }
    RunsAppend(s, [ask], rest);
  }

  lemma CancelAsks(s: State)
    requires Inv(s) && s.pocket.revision > 0 && s.pocket.status in {Draft, Publishing, Collecting}
    ensures var t := Next(s, Cancel(s.pocket.ownerId, s.pocket.revision));
            && t.bills == s.bills && (s.pocket.status == Draft ==> t.bills == [])
            && t.pocket.status == if s.pocket.status == Draft then Cancelled else Cancelling
  {
  }

  // Only the owner, who has seen the pocket as it is, may edit, publish or cancel it.
  lemma OnlyTheOwnerActs(s: State, step: Step)
    requires step.SetTotal? || step.SetMembers? || step.Publish? || step.Cancel?
    requires step.actor != s.pocket.ownerId || step.revision != s.pocket.revision
    ensures Next(s, step) == s
  {
  }

  // ------------------------------------------------------------------ drafts

  predicate Distinct(users: seq<int>) {
    && (forall i :: 0 <= i < |users| ==> users[i] > 0)
    && (forall i, j :: 0 <= i < j < |users| ==> users[i] != users[j])
  }

  function Ask(s: State, total: int, users: seq<int>): seq<Step> {
    var owner := s.pocket.ownerId;
    [SetTotal(owner, 1, total), SetMembers(owner, 2, users), Publish(owner, 3)]
  }

  // The pocket divides what was asked for among exactly the users asked for, to the cent.
  ghost predicate Divides(p: Pocket, total: int, users: seq<int>) {
    && p.totalCents == total && SumShares(p.members) == total && p.ownerShare + p.receivable == total
    && |p.members| == |users|
    && (forall u :: u in users <==> exists i :: 0 <= i < |p.members| && p.members[i].userId == u)
    && (forall i, j :: 0 <= i < j < |p.members| ==>
          p.members[j].shareCents <= p.members[i].shareCents <= p.members[j].shareCents + 1)
  }

  // A new pocket is published exactly for 2 to 50 different users and at least a cent each, and then divides the
  // total among them; otherwise it stays a draft.
  lemma DraftPublishesIff(s0: State, total: int, users: seq<int>)
    requires Fresh(s0)
    ensures var p := Runs(s0, Ask(s0, total, users)).pocket;
            if 2 <= |users| <= 50 && |users| <= total && Distinct(users)
            then p.status == Publishing && Divides(p, total, users) else p.status == Draft
  {
    AskRuns(s0, total, users);
    if total > 0 && UsersOk(users) {
      AskedDraft(s0, total, users);
      AskedSplits(Asked(s0, total, users).pocket, s0.pocket.ownerId, total, users);
    } else {
      AskRefused(s0, total, users);
    }
  }

  function Asked(s: State, total: int, users: seq<int>): State {
    var owner := s.pocket.ownerId;
    DoPublish(DoSetMembers(DoSetTotal(s, owner, 1, total), owner, 2, users), owner, 3)
  }

  lemma AskRuns(s: State, total: int, users: seq<int>)
    ensures Runs(s, Ask(s, total, users)) == Asked(s, total, users)
  {
    var owner := s.pocket.ownerId;
    Three(s, SetTotal(owner, 1, total), SetMembers(owner, 2, users), Publish(owner, 3));
  }

  lemma AskRefused(s0: State, total: int, users: seq<int>)
    requires Fresh(s0) && !(total > 0 && UsersOk(users))
    ensures Asked(s0, total, users).pocket.status == Draft
  {
  }

  lemma AskedDraft(s0: State, total: int, users: seq<int>)
    requires Fresh(s0) && total > 0 && UsersOk(users)
    ensures var owner, rows := s0.pocket.ownerId, SortById(NewRows(users));
            var p, split := Asked(s0, total, users).pocket, SplitSpec(total, owner, rows);
            if split.Err? then p.status == Draft
            else p.status == Publishing && TakesSplit(p, total, split.value)
  {
  }

  predicate TakesSplit(p: Pocket, total: int, split: Allocation) {
    && p.totalCents == total && p.members == split.members
    && p.ownerShare == split.ownerShare && p.receivable == split.receivable
  }

  lemma AskedSplits(p: Pocket, owner: int, total: int, users: seq<int>)
    requires total > 0 && UsersOk(users)
    ensures var split := SplitSpec(total, owner, SortById(NewRows(users)));
            && (split.Ok? <==> 2 <= |users| <= 50 && |users| <= total)
            && (split.Ok? && TakesSplit(p, total, split.value) ==> Divides(p, total, users))
  {
    var rows := SortById(NewRows(users));
    SortPermutes(NewRows(users));
    RowsSelectable(users, rows);
    SplitAcceptsIff(total, owner, rows);
    if SplitSpec(total, owner, rows).Ok? {
      SplitIsFair(total, owner, rows);
      SplitKeepsRows(total, owner, rows);
      SplitNames(total, owner, users, rows);
    }
  }

  lemma RowsSelectable(users: seq<int>, rows: seq<Member>)
    requires multiset(rows) == multiset(NewRows(users)) && UsersOk(users)
    ensures |rows| == |users| && Selectable(rows)
  {
    SameLength(rows, NewRows(users));
    SelectablePermutes(NewRows(users), rows);
  }

  lemma SplitNames(total: int, owner: int, users: seq<int>, rows: seq<Member>)
    requires SplitSpec(total, owner, rows).Ok? && multiset(rows) == multiset(NewRows(users))
    requires var shared := SplitSpec(total, owner, rows).value.members;
             multiset(Unshared(shared)) == multiset(Unshared(rows))
    ensures var shared := SplitSpec(total, owner, rows).value.members;
            forall u :: u in users <==> exists i :: 0 <= i < |shared| && shared[i].userId == u
  {
    var shared := SplitSpec(total, owner, rows).value.members;
    UnsharedPermutes(rows, NewRows(users));
    assert Unshared(NewRows(users)) == NewRows(users);
    forall u ensures u in users <==> exists i :: 0 <= i < |shared| && shared[i].userId == u {
      if u in users {
        var k :| 0 <= k < |users| && users[k] == u;
        assert NewRows(users)[k] in multiset(Unshared(shared));
        var i := Locate(Unshared(shared), NewRows(users)[k]);
        assert shared[i].userId == u;
      }
      if i :| 0 <= i < |shared| && shared[i].userId == u {
        assert Unshared(shared)[i] in multiset(NewRows(users));
        var k := Locate(NewRows(users), Unshared(shared)[i]);
        assert users[k] == u;
      }
    }
  }

  // From a new pocket to a settled one: whoever is asked for, and whatever the total, everybody but the owner can
  // be billed for a share and pay it, and what is paid plus the own share is the total asked for.
  lemma WholeLife(s0: State, total: int, users: seq<int>) returns (trace: seq<Step>)
    requires Fresh(s0) && 2 <= |users| <= 50 && |users| <= total && Distinct(users)
    ensures var t := Runs(s0, trace);
            && t.pocket.status == Settled && ExactlyBilled(t) && Divides(t.pocket, total, users)
            && (forall b :: 0 <= b < |t.bills| ==> t.bills[b].status == Completed)
            && SumBills(t.bills) + t.pocket.ownerShare == total
  {
    var ask := Ask(s0, total, users);
    DraftPublishesIff(s0, total, users);
    Reachable(s0, ask);
    var bill := PublishCanFinish(s0, ask);
    RunsAppend(s0, ask, bill);
    Reachable(s0, ask + bill);
    var settle := SettlingRun(Runs(s0, ask + bill));
    RunsAppend(s0, ask + bill, settle);
    trace := ask + bill + settle;
    SettlementConserves(s0, trace);
    Reachable(s0, trace);
    DealDivides(Runs(s0, ask).pocket, Runs(s0, trace).pocket, total, users);
  }

  lemma DealDivides(p: Pocket, q: Pocket, total: int, users: seq<int>)
    requires Divides(p, total, users) && SameDeal(p, q) && SumShares(q.members) == q.totalCents
    ensures Divides(q, total, users)
  {
    forall u ensures u in users <==> exists i :: 0 <= i < |q.members| && q.members[i].userId == u {
      if i :| 0 <= i < |p.members| && p.members[i].userId == u { assert q.members[i].userId == u; }
      if i :| 0 <= i < |q.members| && q.members[i].userId == u { assert p.members[i].userId == u; }
    }
  }
}
