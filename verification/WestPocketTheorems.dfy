// What the collection protocol guarantees, over every interleaving of owner, worker, payer,
// payee, reconciliation, abandoned calls and crashes.
module WestPocketTheorems {
  import opened Common
  import opened Split
  import opened PaymentBills
  import opened WestPocket
  import opened WestPocketSafety

  lemma Reachable(s0: State, trace: seq<Step>)
    requires Fresh(s0)
    ensures Inv(Runs(s0, trace))
  {
    FreshInv(s0);
    RunsKeep(s0, trace);
  }

  // ------------------------------------------------------------------ a cancelled pocket

  // Once every bill is closed and no create call is past its check, the table never changes.
  lemma SealedStep(s: State, step: Step)
    requires Inv(s) && Sealed(s)
    ensures Next(s, step).bills == s.bills && Sealed(Next(s, step))
    ensures s.pocket.status == Cancelled ==> Next(s, step).pocket.status == Cancelled
  {
    match step
    case Apply(c) => SealedApply(s, c);
    case WriteBill(a) => SealedWrite(s, a);
    case _ => SealedElsewhere(s, step);
  }

  lemma SealedWrite(s: State, a: nat)
    requires Inv(s) && Sealed(s)
    ensures DoWriteBill(s, a).bills == s.bills && Sealed(DoWriteBill(s, a)) && DoWriteBill(s, a).pocket == s.pocket
  {
  }

  lemma SealedApply(s: State, c: nat)
    requires Inv(s) && Sealed(s)
    ensures DoApply(s, c).bills == s.bills && Sealed(DoApply(s, c)) && DoApply(s, c).pocket == s.pocket
  {
  }

  lemma SealedElsewhere(s: State, step: Step)
    requires Inv(s) && Sealed(s) && !step.Apply? && !step.WriteBill?
    ensures Next(s, step).bills == s.bills && Sealed(Next(s, step))
    ensures s.pocket.status == Cancelled ==> Next(s, step).pocket.status == Cancelled
  {
    if OwnerStep(step) { SealedOwner(s, step); }
    else if WorkerStep(step) { SealedWorker(s, step); }
  }

  lemma SealedOwner(s: State, step: Step)
    requires Inv(s) && Sealed(s) && OwnerStep(step)
    ensures Next(s, step).bills == s.bills && Sealed(Next(s, step))
    ensures s.pocket.status == Cancelled ==> Next(s, step).pocket.status == Cancelled
  {
  }

  lemma SealedWorker(s: State, step: Step)
    requires Inv(s) && Sealed(s) && WorkerStep(step)
    ensures Next(s, step).bills == s.bills && Sealed(Next(s, step))
    ensures s.pocket.status == Cancelled ==> Next(s, step).pocket.status == Cancelled
  {
  }

  lemma {:induction false} SealedRuns(s: State, trace: seq<Step>)
    requires Inv(s) && Sealed(s)
    ensures Runs(s, trace).bills == s.bills
    ensures s.pocket.status == Cancelled ==> Runs(s, trace).pocket.status == Cancelled
    decreases |trace|
  {
    if trace != [] {
      SealedStep(s, trace[0]);
      StepKeeps(s, trace[0]);
      SealedRuns(Next(s, trace[0]), trace[1..]);
    }
  }

  // A cancelled pocket has every bill closed, stays cancelled, and no late publisher inserts,
  // reopens or changes a bill afterwards.
  lemma CancelledIsFinal(s0: State, before: seq<Step>, after: seq<Step>)
    requires Fresh(s0) && Runs(s0, before).pocket.status == Cancelled
    ensures EveryBillClosed(Runs(s0, before))
    ensures Runs(Runs(s0, before), after).pocket.status == Cancelled
    ensures Runs(Runs(s0, before), after).bills == Runs(s0, before).bills
  {
    Reachable(s0, before);
    SealedRuns(Runs(s0, before), after);
  }

  // Cancelling closes all bills or none, in every reachable state, and a closed table is final.
  lemma AllOrNothing(s0: State, before: seq<Step>, after: seq<Step>)
    requires Fresh(s0) && SomeClosed(Runs(s0, before))
    ensures EveryBillClosed(Runs(s0, before))
    ensures Runs(Runs(s0, before), after).bills == Runs(s0, before).bills
  {
    Reachable(s0, before);
    SealedRuns(Runs(s0, before), after);
  }

  // ------------------------------------------------------------------ settlement

  // Row i is linked to a bill from this member to the owner over exactly its share.
  ghost predicate LinkExact(s: State, i: int)
    requires Owes(s.pocket, i)
  {
    var link := s.pocket.members[i].billId;
    link.Some? && link.value < |s.bills| &&
    s.bills[link.value] == Bill(WestPocketSource(s.pocket.id), s.pocket.members[i].userId, s.pocket.ownerId,
                                s.pocket.members[i].shareCents, s.bills[link.value].status,
                                    s.bills[link.value].updatedAt)
  }

  ghost predicate SomebodyOwes(p: Pocket, b: nat) {
    exists i :: Owes(p, i) && p.members[i].billId == Some(b)
  }

  // The bills of the table are exactly what the members other than the owner owe.
  ghost predicate ExactlyBilled(s: State) {
    && (forall i :: Owes(s.pocket, i) ==> LinkExact(s, i))
    && (forall b :: 0 <= b < |s.bills| ==> SomebodyOwes(s.pocket, b))
    && (forall i, j :: Owes(s.pocket, i) && Owes(s.pocket, j) && i != j ==>
          s.pocket.members[i].billId != s.pocket.members[j].billId)
  }

  function SumBills(bills: seq<Bill>): int {
    if bills == [] then 0 else SumBills(bills[..|bills| - 1]) + bills[|bills| - 1].amountCents
  }

  lemma PublishedExactly(s: State)
    requires Inv(s) && s.pocket.published
    ensures ExactlyBilled(s)
  {
    forall i | Owes(s.pocket, i) ensures LinkExact(s, i) { LinkIsExact(s, i); }
    forall b | 0 <= b < |s.bills| ensures SomebodyOwes(s.pocket, b) {
      assert BillFits(s.pocket, s.bills[b]);
      var i :| 0 <= i < |s.pocket.members| && s.pocket.members[i].userId == s.bills[b].payerId;
      assert Owes(s.pocket, i) && LinkExact(s, i);
      assert s.pocket.members[i].billId == Some(b);
    }
    forall i, j | Owes(s.pocket, i) && Owes(s.pocket, j) && i != j
      ensures s.pocket.members[i].billId != s.pocket.members[j].billId
    {
      assert LinkExact(s, i) && LinkExact(s, j);
      assert s.pocket.members[i].userId != s.pocket.members[j].userId;
    }
  }

  lemma LinkIsExact(s: State, i: int)
    requires PocketInv(s) && BillsInv(s) && s.pocket.published && Owes(s.pocket, i)
    ensures LinkExact(s, i)
  {
  }

  // Members other than the owner and bills pair off by user id, with equal amounts.
  ghost predicate Paired(members: seq<Member>, owner: int, bills: seq<Bill>) {
    && Ascending(members)
    && (forall b, c :: 0 <= b < c < |bills| ==> bills[b].payerId != bills[c].payerId)
    && (forall i {:trigger HasBill(members[i], bills)} :: 0 <= i < |members| && members[i].userId != owner ==>
          HasBill(members[i], bills))
    && (forall b {:trigger HasPayer(bills[b], members, owner)} :: 0 <= b < |bills| ==>
          HasPayer(bills[b], members, owner))
  }

  ghost predicate HasBill(m: Member, bills: seq<Bill>) {
    exists b :: 0 <= b < |bills| && Pays(m, bills[b])
  }

  ghost predicate HasPayer(b: Bill, members: seq<Member>, owner: int) {
    exists i :: 0 <= i < |members| && members[i].userId != owner && Pays(members[i], b)
  }

  ghost predicate Pays(m: Member, b: Bill) {
    b.payerId == m.userId && b.amountCents == m.shareCents
  }

  lemma {:induction false} PairedSums(members: seq<Member>, owner: int, bills: seq<Bill>)
    requires Paired(members, owner, bills)
    ensures SumBills(bills) == SumOwed(members, owner)
  {
    if members == [] {
      NobodyPays(owner, bills);
    } else {
      var m, front := members[|members| - 1], members[..|members| - 1];
      if m.userId == owner {
        PairedFront(members, owner, bills);
        PairedSums(front, owner, bills);
      } else {
        var b := BillOf(members, owner, bills);
        PairedWithout(members, owner, bills, b);
        PairedSums(front, owner, bills[..b] + bills[b + 1..]);
        SumWithout(bills, b);
      }
    }
  }

  lemma NobodyPays(owner: int, bills: seq<Bill>)
    requires Paired([], owner, bills)
    ensures bills == []
  {
    assert |bills| > 0 ==> HasPayer(bills[0], [], owner);
  }

  lemma BillOf(members: seq<Member>, owner: int, bills: seq<Bill>) returns (b: nat)
    requires Paired(members, owner, bills) && members != [] && members[|members| - 1].userId != owner
    ensures b < |bills| && Pays(members[|members| - 1], bills[b])
  {
    assert HasBill(members[|members| - 1], bills);
    b :| 0 <= b < |bills| && Pays(members[|members| - 1], bills[b]);
  }

  lemma PairedFront(members: seq<Member>, owner: int, bills: seq<Bill>)
    requires Paired(members, owner, bills) && members != [] && members[|members| - 1].userId == owner
    ensures Paired(members[..|members| - 1], owner, bills)
  {
    var front := members[..|members| - 1];
    forall i | 0 <= i < |front| && front[i].userId != owner ensures HasBill(front[i], bills) {
      assert HasBill(members[i], bills);
    }
    forall b | 0 <= b < |bills| ensures HasPayer(bills[b], front, owner) {
      assert HasPayer(bills[b], members, owner);
      var i :| 0 <= i < |members| && members[i].userId != owner && Pays(members[i], bills[b]);
      assert front[i] == members[i];
    }
  }

  lemma PairedWithout(members: seq<Member>, owner: int, bills: seq<Bill>, b: nat)
    requires Paired(members, owner, bills) && members != [] && members[|members| - 1].userId != owner
    requires b < |bills| && Pays(members[|members| - 1], bills[b])
    ensures Paired(members[..|members| - 1], owner, bills[..b] + bills[b + 1..])
  {
    var front, rest := members[..|members| - 1], bills[..b] + bills[b + 1..];
    forall i | 0 <= i < |front| && front[i].userId != owner ensures HasBill(front[i], rest) {
      RestHasBill(members, owner, bills, b, i);
    }
    forall c | 0 <= c < |rest| ensures HasPayer(rest[c], front, owner) {
      RestHasPayer(members, owner, bills, b, if c < b then c else c + 1);
    }
    forall c, d | 0 <= c < d < |rest| ensures rest[c].payerId != rest[d].payerId {
      assert rest[c] == bills[if c < b then c else c + 1] && rest[d] == bills[if d < b then d else d + 1];
    }
  }

  lemma RestHasBill(members: seq<Member>, owner: int, bills: seq<Bill>, b: nat, i: nat)
    requires Paired(members, owner, bills) && i < |members| - 1 && members[i].userId != owner
    requires b < |bills| && Pays(members[|members| - 1], bills[b])
    ensures HasBill(members[i], bills[..b] + bills[b + 1..])
  {
    assert HasBill(members[i], bills);
    var c :| 0 <= c < |bills| && Pays(members[i], bills[c]);
    assert c != b;
    assert Pays(members[i], (bills[..b] + bills[b + 1..])[if c < b then c else c - 1]);
  }

  lemma RestHasPayer(members: seq<Member>, owner: int, bills: seq<Bill>, b: nat, k: nat)
    requires Paired(members, owner, bills) && members != []
    requires b < |bills| && Pays(members[|members| - 1], bills[b]) && k < |bills| && k != b
    ensures HasPayer(bills[k], members[..|members| - 1], owner)
  {
    assert HasPayer(bills[k], members, owner);
    var i :| 0 <= i < |members| && members[i].userId != owner && Pays(members[i], bills[k]);
    assert i != |members| - 1;
    assert members[..|members| - 1][i] == members[i];
  }

  lemma {:induction false} SumWithout(bills: seq<Bill>, b: nat)
    requires b < |bills|
    ensures SumBills(bills) == SumBills(bills[..b] + bills[b + 1..]) + bills[b].amountCents
  {
    var last := |bills| - 1;
    if b == last {
      assert bills[..b] + bills[b + 1..] == bills[..last];
    } else {
      SumWithout(bills[..last], b);
      var rest := bills[..b] + bills[b + 1..];
      assert rest[..|rest| - 1] == bills[..last][..b] + bills[..last][b + 1..];
    }
  }

  // Collecting or settled: everybody but the owner has exactly one bill, for the frozen share,
  // payable to the owner, and together they are what the owner is owed.
  lemma CollectingIsBilled(s0: State, trace: seq<Step>)
    requires Fresh(s0) && Runs(s0, trace).pocket.status in {Collecting, Settled}
    ensures ExactlyBilled(Runs(s0, trace))
    ensures SumBills(Runs(s0, trace).bills) == Runs(s0, trace).pocket.receivable
  {
    var s := Runs(s0, trace);
    Reachable(s0, trace);
    PublishedExactly(s);
    BilledSums(s);
  }

  lemma BilledSums(s: State)
    requires Inv(s) && ExactlyBilled(s)
    ensures SumBills(s.bills) == SumOwed(s.pocket.members, s.pocket.ownerId)
  {
    var members := s.pocket.members;
    forall i | 0 <= i < |members| && members[i].userId != s.pocket.ownerId ensures HasBill(members[i], s.bills) {
      assert Owes(s.pocket, i);
      assert Pays(members[i], s.bills[members[i].billId.value]);
    }
    forall b | 0 <= b < |s.bills| ensures HasPayer(s.bills[b], members, s.pocket.ownerId) {
      assert SomebodyOwes(s.pocket, b);
      var i :| Owes(s.pocket, i) && s.pocket.members[i].billId == Some(b);
      assert Pays(members[i], s.bills[b]);
    }
    PairedSums(members, s.pocket.ownerId, s.bills);
  }

  // Settlement conserves the money: every bill is completed, and what was paid plus the
  // owner's own share is the total that was split.
  lemma SettlementConserves(s0: State, trace: seq<Step>)
    requires Fresh(s0) && Runs(s0, trace).pocket.status == Settled
    ensures forall b :: 0 <= b < |Runs(s0, trace).bills| ==> Runs(s0, trace).bills[b].status == Completed
    ensures ExactlyBilled(Runs(s0, trace))
    ensures SumBills(Runs(s0, trace).bills) + Runs(s0, trace).pocket.ownerShare == Runs(s0, trace).pocket.totalCents
  {
    Reachable(s0, trace);
    CollectingIsBilled(s0, trace);
  }

  // ------------------------------------------------------------------ what publishing freezes

  predicate Follows(before: PocketStatus, after: PocketStatus) {
    match before
    case Draft => after in {Draft, Publishing, Cancelled}
    case Publishing => after in {Publishing, Collecting, Cancelling}
    case Collecting => after in {Collecting, Settled, Cancelling}
    case Cancelling => after in {Cancelling, Collecting, Cancelled}
    case Settled => after == Settled
    case Cancelled => after == Cancelled
  }

  ghost predicate SameDeal(p: Pocket, q: Pocket) {
    && q.id == p.id && q.ownerId == p.ownerId && q.totalCents == p.totalCents && q.ownerShare == p.ownerShare
    && q.receivable == p.receivable && SameRows(p.members, q)
  }

  lemma StepFreezes(s: State, step: Step)
    requires Inv(s)
    ensures Follows(s.pocket.status, Next(s, step).pocket.status)
    ensures s.pocket.status != Draft ==> SameDeal(s.pocket, Next(s, step).pocket)
    ensures s.pocket.revision <= Next(s, step).pocket.revision
  {
  }

  // From Publish on the members, shares and total never change, and neither draft nor
  // publishing is entered again.
  lemma {:induction false} PublishedIsFrozen(s: State, trace: seq<Step>)
    requires Inv(s) && s.pocket.status != Draft
    ensures SameDeal(s.pocket, Runs(s, trace).pocket) && Runs(s, trace).pocket.status != Draft
    ensures s.pocket.status != Publishing ==> Runs(s, trace).pocket.status != Publishing
    decreases |trace|
  {
    if trace != [] {
      StepFreezes(s, trace[0]);
      StepKeeps(s, trace[0]);
      PublishedIsFrozen(Next(s, trace[0]), trace[1..]);
    }
  }

  // ------------------------------------------------------------------ bills

  // unpaid -> submitted -> completed, submitted -> unpaid, and unpaid -> closed.
  predicate Advances(b: Bill, after: Bill) {
    && after == b.(status := after.status, updatedAt := after.updatedAt)
    && (after.status == b.status
        || (b.status == Unpaid && after.status in {Submitted, Closed})
        || (b.status == Submitted && after.status in {Unpaid, Completed}))
    && (b.status in {Completed, Closed} ==> after == b)
  }

  // No step closes a submitted or completed bill, whatever is in flight.
  lemma BillsAdvance(s: State, step: Step, b: nat)
    requires Inv(s) && b < |s.bills|
    ensures b < |Next(s, step).bills| && Advances(s.bills[b], Next(s, step).bills[b])
  {
    match step
    case WriteBill(a) => WriteAdvances(s, a, b);
    case Apply(c) => if c < |s.calls| && s.calls[c].stage == Authorized { ApplyAdvances(s, c, b); }
    case _ => OtherStepsKeepBills(s, step);
  }

  lemma WriteAdvances(s: State, a: nat, b: nat)
    requires Inv(s) && b < |s.bills|
    ensures b < |DoWriteBill(s, a).bills| && Advances(s.bills[b], DoWriteBill(s, a).bills[b])
  {
  }

  lemma ApplyAdvances(s: State, c: nat, b: nat)
    requires Inv(s) && b < |s.bills| && c < |s.calls| && s.calls[c].stage == Authorized
    ensures b < |DoApply(s, c).bills| && Advances(s.bills[b], DoApply(s, c).bills[b])
  {
  }

  // A payment that was confirmed stays confirmed.
  lemma {:induction false} CompletedIsFinal(s: State, trace: seq<Step>, b: nat)
    requires Inv(s) && b < |s.bills| && s.bills[b].status == Completed
    ensures b < |Runs(s, trace).bills| && Runs(s, trace).bills[b] == s.bills[b]
    decreases |trace|
  {
    if trace != [] {
      BillsAdvance(s, trace[0], b);
      StepKeeps(s, trace[0]);
      CompletedIsFinal(Next(s, trace[0]), trace[1..], b);
    }
  }

  // ------------------------------------------------------------------ a refused cancellation

  // A step closes a bill only if no bill of the pocket was submitted or completed, and then
  // it closes them all; a refused cancel leaves the whole table as it was.
  lemma ClosingIsJustified(s: State, step: Step)
    requires Inv(s) && SomeClosed(Next(s, step)) && !SomeClosed(s)
    ensures step.Apply? && step.call < |s.calls| && s.calls[step.call] == CancelCall(Authorized)
    ensures forall b :: 0 <= b < |s.bills| ==> s.bills[b].status == Unpaid
    ensures EveryBillClosed(Next(s, step)) && |Next(s, step).bills| == |s.bills|
  {
    match step
    case Apply(c) => if c < |s.calls| && s.calls[c].stage == Authorized { ApplyJustified(s, c); }
    case WriteBill(a) => if a < |s.acts| { WriteStaysOpen(s, a); }
    case _ => OtherStepsKeepBills(s, step);
  }

  lemma OtherStepsKeepBills(s: State, step: Step)
    requires !step.Apply? && !step.WriteBill?
    ensures Next(s, step).bills == s.bills && SomeClosed(Next(s, step)) == SomeClosed(s)
  {
  }

  lemma ApplyJustified(s: State, c: nat)
    requires Inv(s) && c < |s.calls| && s.calls[c].stage == Authorized && SomeClosed(DoApply(s, c)) && !SomeClosed(s)
    ensures s.calls[c] == CancelCall(Authorized)
    ensures forall b :: 0 <= b < |s.bills| ==> s.bills[b].status == Unpaid
    ensures EveryBillClosed(DoApply(s, c)) && |DoApply(s, c).bills| == |s.bills|
  {
  }

  lemma WriteStaysOpen(s: State, a: nat)
    requires Inv(s) && a < |s.acts|
    ensures SomeClosed(DoWriteBill(s, a)) ==> SomeClosed(s)
    ensures DoWriteBill(s, a).pocket == s.pocket
  {
  }

  // Returning to collecting happens only to a pocket that had been published, and changes no bill.
  lemma ReturnIsJustified(s: State, step: Step)
    requires Inv(s) && s.pocket.status == Cancelling && Next(s, step).pocket.status == Collecting
    ensures s.pocket.published && ExactlyBilled(Next(s, step)) && Next(s, step).bills == s.bills
  {
    StepKeeps(s, step);
    PublishedExactly(Next(s, step));
  }

  // A cancel issued while bills were still being created never ends in collecting.
  lemma {:induction false} UnpublishedCancelEnds(s: State, trace: seq<Step>)
    requires Inv(s) && s.pocket.status in {Cancelling, Cancelled} && !s.pocket.published
    ensures Runs(s, trace).pocket.status in {Cancelling, Cancelled} && !Runs(s, trace).pocket.published
    decreases |trace|
  {
    if trace != [] {
      StepKeeps(s, trace[0]);
      StepFreezes(s, trace[0]);
      StaysUnpublished(s, trace[0]);
      UnpublishedCancelEnds(Next(s, trace[0]), trace[1..]);
    }
  }

  lemma StaysUnpublished(s: State, step: Step)
    requires Inv(s) && s.pocket.status in {Cancelling, Cancelled} && !s.pocket.published
    ensures !Next(s, step).pocket.published && Next(s, step).pocket.status in {Cancelling, Cancelled}
  {
  }

  // ------------------------------------------------------------------ closed bills of a live pocket

  ghost predicate Live(s: State) {
    s.pocket.status in {Publishing, Collecting, Settled} ==> !SomeClosed(s)
  }

  // While publishing, and once settled, no bill is ever closed.
  lemma PublishingAndSettledAreLive(s0: State, trace: seq<Step>)
    requires Fresh(s0) && Runs(s0, trace).pocket.status in {Publishing, Settled}
    ensures !SomeClosed(Runs(s0, trace))
  {
    Reachable(s0, trace);
  }

  // The two ways a collecting pocket comes to have closed bills: a refused worker returns to
  // collecting after another cancel call closed them, or a late cancel call closes them then.
  ghost predicate Breaks(s: State, step: Step) {
    || (step == ReturnToCollecting && s.run == CancelRefused && s.pocket.status == Cancelling && SomeClosed(s))
    || (step.Apply? && step.call < |s.calls| && s.calls[step.call] == CancelCall(Authorized)
        && s.pocket.status == Collecting && s.bills != [] && !PaymentStarted(s.bills, WestPocketSource(s.pocket.id)))
  }

  lemma LiveStepIff(s: State, step: Step)
    requires Inv(s) && Live(s)
    ensures Live(Next(s, step)) <==> !Breaks(s, step)
  {
    StepKeeps(s, step);
    match step
    case Apply(c) =>
      if c < |s.calls| && s.calls[c].stage == Authorized { LiveApplyIff(s, c); } else { assert Next(s, step) == s; }
    case WriteBill(a) => if a < |s.acts| { LiveWrite(s, a); }
    case _ =>
      OtherStepsKeepBills(s, step);
      LiveElsewhere(s, step);
  }

  lemma LiveWrite(s: State, a: nat)
    requires Inv(s) && Live(s) && a < |s.acts|
    ensures Live(DoWriteBill(s, a))
  {
  }

  lemma LiveElsewhere(s: State, step: Step)
    requires Inv(s) && Live(s) && !step.Apply? && !step.WriteBill? && Next(s, step).bills == s.bills
    requires SomeClosed(Next(s, step)) == SomeClosed(s)
    ensures Live(Next(s, step)) <==> !Breaks(s, step)
  {
    StepFreezes(s, step);
  }

  lemma LiveApplyIff(s: State, c: nat)
    requires Inv(s) && Live(s) && c < |s.calls| && s.calls[c].stage == Authorized && Inv(DoApply(s, c))
    ensures Live(DoApply(s, c)) <==> !Breaks(s, Apply(c))
  {
    ApplyKeepsPocket(s, c);
    if SomeClosed(DoApply(s, c)) && !SomeClosed(s) { ApplyCloses(s, c); }
    if Breaks(s, Apply(c)) { BreakingCloses(s, c); }
  }

  lemma ApplyKeepsPocket(s: State, c: nat)
    ensures DoApply(s, c).pocket == s.pocket
    ensures c < |s.calls| && !s.calls[c].CancelCall? && Inv(s) && !SomeClosed(s) ==> !SomeClosed(DoApply(s, c))
    ensures SomeClosed(s) && Inv(s) ==> SomeClosed(DoApply(s, c))
  {
  }

  // Bills are closed by a cancel call, which found some and none of them paid.
  lemma ApplyCloses(s: State, c: nat)
    requires Inv(s) && c < |s.calls| && s.calls[c].stage == Authorized && SomeClosed(DoApply(s, c)) && !SomeClosed(s)
    ensures s.calls[c] == CancelCall(Authorized) && s.bills != []
    ensures !PaymentStarted(s.bills, WestPocketSource(s.pocket.id)) && s.pocket.status !in {Publishing, Settled}
  {
    assert CallInv(s, s.calls[c]);
    ClosingIsJustified(s, Apply(c));
  }

  lemma BreakingCloses(s: State, c: nat)
    requires Inv(s) && c < |s.calls| && s.calls[c].stage == Authorized && Breaks(s, Apply(c))
    ensures SomeClosed(DoApply(s, c))
  {
    assert BillFits(s.pocket, s.bills[0]);
    assert DoApply(s, c).bills[0].status == Closed;
  }

  ghost predicate AlwaysLive(s: State, trace: seq<Step>)
    decreases |trace|
  {
    Live(s) && (trace != [] ==> AlwaysLive(Next(s, trace[0]), trace[1..]))
  }

  ghost predicate NeverBreaks(s: State, trace: seq<Step>)
    decreases |trace|
  {
    trace != [] ==> !Breaks(s, trace[0]) && NeverBreaks(Next(s, trace[0]), trace[1..])
  }

  // A run keeps publishing, collecting and settled pockets free of closed bills exactly when
  // it never takes one of the two breaking steps.
  lemma {:induction false} LiveRunsIff(s: State, trace: seq<Step>)
    requires Inv(s) && Live(s)
    ensures AlwaysLive(s, trace) <==> NeverBreaks(s, trace)
    decreases |trace|
  {
    if trace != [] {
      LiveStepIff(s, trace[0]);
      StepKeeps(s, trace[0]);
      if Live(Next(s, trace[0])) { LiveRunsIff(Next(s, trace[0]), trace[1..]); }
    }
  }

  // The worker gives up on a cancel call that paymentservice has not answered.
  predicate Abandons(s: State, step: Step) {
    step == StopRun && s.run.CancelWait? && s.run.call < |s.calls| && !s.calls[s.run.call].stage.Done?
  }

  predicate NoAbandon(s: State, trace: seq<Step>)
    decreases |trace|
  {
    trace != [] ==> !Abandons(s, trace[0]) && NoAbandon(Next(s, trace[0]), trace[1..])
  }

  // Every unanswered cancel call is the running worker's own, and closed bills mean that the
  // pocket is being cancelled and that nobody was told otherwise.
  ghost predicate Attended(s: State) {
    && (forall c :: 0 <= c < |s.calls| && s.calls[c].CancelCall? && !s.calls[c].stage.Done? ==> s.run == CancelWait(c))
    && (SomeClosed(s) ==> s.pocket.status in {Cancelling, Cancelled} && !RefusalPending(s))
  }

  ghost predicate RefusalPending(s: State) {
    || s.run == CancelRefused
    || (s.run.CancelWait? && s.run.call < |s.calls| && s.calls[s.run.call] == CancelCall(Done(Refused)))
  }

  lemma AttendedStep(s: State, step: Step)
    requires Inv(s) && Attended(s) && !Abandons(s, step)
    ensures Attended(Next(s, step))
  {
    match step
    case Apply(c) => AttendedApply(s, c);
    case WriteBill(a) => AttendedWrite(s, a);
    case _ => AttendedElsewhere(s, step);
  }

  lemma AttendedElsewhere(s: State, step: Step)
    requires Inv(s) && Attended(s) && !Abandons(s, step) && !step.Apply? && !step.WriteBill?
    ensures Attended(Next(s, step))
  {
    OtherStepsKeepBills(s, step);
    AttendedCalls(s, step);
    AttendedVerdicts(s, step);
  }

  lemma AttendedWrite(s: State, a: nat)
    requires Inv(s) && Attended(s)
    ensures Attended(DoWriteBill(s, a))
  {
  }

  lemma AttendedCalls(s: State, step: Step)
    requires Inv(s) && Attended(s) && !Abandons(s, step) && !step.Apply? && !step.WriteBill?
    ensures forall c :: 0 <= c < |Next(s, step).calls| && Next(s, step).calls[c].CancelCall?
              && !Next(s, step).calls[c].stage.Done?
              ==> Next(s, step).run == CancelWait(c)
  {
  }

  lemma AttendedVerdicts(s: State, step: Step)
    requires Inv(s) && Attended(s) && SomeClosed(Next(s, step)) == SomeClosed(s) && !step.Apply? && !step.WriteBill?
    ensures SomeClosed(s) ==> Next(s, step).pocket.status in {Cancelling, Cancelled} && !RefusalPending(Next(s, step))
  {
    if SomeClosed(s) {
      if OwnerStep(step) { OwnerStaysUnrefused(s, step); }
      else if WorkerStep(step) { WorkerStaysUnrefused(s, step); }
      else if CallStep(step) {
        match step
        case LockSource(c) => CallStaysUnrefused(s, DoLockSource(s, c));
        case Authorize(c) => CallStaysUnrefused(s, DoAuthorize(s, c));
        case FailCall(c) => CallStaysUnrefused(s, DoFailCall(s, c));
        case _ =>
      }
    }
  }

  lemma OwnerStaysUnrefused(s: State, step: Step)
    requires s.pocket.status in {Cancelling, Cancelled} && !RefusalPending(s) && OwnerStep(step)
    ensures Next(s, step).pocket.status in {Cancelling, Cancelled} && !RefusalPending(Next(s, step))
  {
  }

  lemma WorkerStaysUnrefused(s: State, step: Step)
    requires Inv(s) && s.pocket.status in {Cancelling, Cancelled} && !RefusalPending(s) && WorkerStep(step)
    ensures Next(s, step).pocket.status in {Cancelling, Cancelled} && !RefusalPending(Next(s, step))
  {
  }

  // Moving a call along without carrying it out refuses nothing.
  lemma CallStaysUnrefused(s: State, t: State)
    requires !RefusalPending(s) && t.run == s.run && |t.calls| == |s.calls|
    requires forall c :: 0 <= c < |s.calls| ==> t.calls[c] == s.calls[c] || t.calls[c] != CancelCall(Done(Refused))
    ensures !RefusalPending(t)
  {
  }

  lemma AttendedApply(s: State, c: nat)
    requires Inv(s) && Attended(s)
    ensures Attended(DoApply(s, c))
  {
    var t := DoApply(s, c);
    if c < |s.calls| && s.calls[c].stage == Authorized {
      assert t.pocket == s.pocket && t.run == s.run;
      assert CallInv(s, s.calls[c]);
      if SomeClosed(t) && !SomeClosed(s) {
        ApplyJustified(s, c);
      } else if SomeClosed(t) {
        assert s.calls[c].CancelCall?;
        assert !PaymentStarted(s.bills, WestPocketSource(s.pocket.id));
      }
    }
  }

  // As long as no cancel call is abandoned, a publishing, collecting or settled pocket never
  // has a closed bill.
  lemma {:induction false} NoAbandonIsLive(s: State, trace: seq<Step>)
    requires Inv(s) && Attended(s) && NoAbandon(s, trace)
    ensures AlwaysLive(s, trace)
    decreases |trace|
  {
    if trace != [] {
      AttendedStep(s, trace[0]);
      StepKeeps(s, trace[0]);
      NoAbandonIsLive(Next(s, trace[0]), trace[1..]);
    }
  }
}
