// When the bills of an errand task say what its rows say, and when a transition can bill at all.
module ErrandAmountsTheorems {
  import opened Common
  import opened Errand
  import opened ErrandSafety
  import opened ErrandCompletion
  import opened ErrandPayments
  import opened ErrandPaymentsSafety
  import opened ErrandAmounts
  import Requests = ErrandRequests
  import Links = ErrandPaymentsProgress
  import B = ErrandBilling
  import Sums = ErrandBillingSums
  import P = PaymentBills

  // ------------------------------------------------------------------ what a call has, it keeps

  ghost predicate CallKept(b: Billing, t: Billing, c: nat) {
    && c < |b.drafts| == |b.whole.calls| && c < |t.drafts| == |t.whole.calls| && t.drafts[c] == b.drafts[c]
    && t.whole.calls[c].task == b.whole.calls[c].task && t.whole.calls[c].captain == b.whole.calls[c].captain
    && t.whole.calls[c].payers == b.whole.calls[c].payers
  }

  lemma DoesKeepsCall(b: Billing, move: Move, c: nat)
    requires c < |b.drafts| == |b.whole.calls|
    ensures CallKept(b, Does(b, move), c)
  {
    if !move.ReadDrafts? && !move.BillNext? { OtherMovesKeepCalls(b.whole, move); }
  }

  lemma {:induction false} AllKeepCall(b: Billing, moves: seq<Move>, c: nat)
    requires c < |b.drafts| == |b.whole.calls|
    ensures CallKept(b, DoesAll(b, moves), c)
    decreases |moves|
  {
    if moves != [] {
      DoesKeepsCall(b, moves[0], c);
      AllKeepCall(Does(b, moves[0]), moves[1..], c);
    }
  }

  // ------------------------------------------------------------------ what the transition writes

  // The rows of two states that agree on what a bill is made up of.
  lemma {:induction false} SameRows(s: State, t: State, a: seq<Assignment>, b: seq<Assignment>, task: nat)
    requires |a| == |b| && (forall k :: 0 <= k < |a| ==> b[k] == a[k].(bill := b[k].bill))
    requires t.taskItems == s.taskItems && PackagingOf(t, task) == PackagingOf(s, task)
    requires CaptainOf(t, task) == CaptainOf(s, task)
    ensures RowsFrom(s, a, task) == RowsFrom(t, b, task)
  {
    if a != [] {
      SameRows(s, t, a[..|a| - 1], b[..|b| - 1], task);
    }
  }

  lemma CollectingKeepsRows(s: State, captain: int, task: nat, bills: seq<(int, nat)>)
    ensures RowsFor(DoToCollecting(s, captain, task, bills), task) == RowsFor(s, task)
  {
    var t := DoToCollecting(s, captain, task, bills);
    SameRows(s, t, s.assignments, t.assignments, task);
  }

  // A row that has to be paid for.
  predicate Owed(s: State, task: nat, k: nat)
    requires k < |s.assignments|
  {
    Chargeable(s.assignments[k], task, CaptainOf(s, task))
  }

  ghost predicate OwedIsBilled(w: Whole, v: Whole, call: Call, drafts: seq<B.BillDraft>, k: nat)
    requires k < |w.errand.assignments| && k < |v.errand.assignments| && |drafts| == |call.payers|
  {
    var a, after := w.errand.assignments[k], v.errand.assignments[k];
    && (a.purchaser !in call.payers ==> after.bill == a.bill)
    && forall j :: 0 <= j < |drafts| && call.payers[j] == a.purchaser ==>
         after.bill.Some? && after.bill.value < |v.bills| && BillFor(v.bills[after.bill.value], call.task, drafts[j])
  }

  // Whatever happened since the drafts were read: an accepted transition puts on every row that is owed for the bill
  // of its purchaser, over the amount that was drafted; a purchaser who was not drafted gets none.
  lemma TransitionBills(w: Whole, c: nat, drafts: seq<B.BillDraft>, k: nat)
    requires ReadyCall(w, c) && w.calls[c].payers != [] && CallBills(w.bills, w.calls[c], drafts)
    requires DoTransition(w, c).errand != w.errand && k < |w.errand.assignments|
    requires Owed(w.errand, w.calls[c].task, k)
    ensures |DoTransition(w, c).errand.assignments| == |w.errand.assignments|
    ensures OwedIsBilled(w, DoTransition(w, c), w.calls[c], drafts, k)
  {
    var call, v := w.calls[c], DoTransition(w, c);
    var pairs := Pairs(call.payers, call.bills);
    Requests.CollectingAccepts(w.errand, call.captain, call.task, pairs);
    var a := w.errand.assignments[k];
    assert Requests.RowBilled(a, v.errand.assignments[k], call.task, pairs);
    forall j: nat | j < |drafts| && call.payers[j] == a.purchaser
      ensures v.errand.assignments[k].bill == Some(call.bills[j]) && call.bills[j] < |v.bills|
      ensures BillFor(v.bills[call.bills[j]], call.task, drafts[j])
    {
      assert Requests.LastOf(pairs, j, a.purchaser);
      assert Requests.Due(a, call.task, a.purchaser);
    }
  }

  // ------------------------------------------------------------------ bills that say what the rows say

  // Every row that is owed for carries a bill of its purchaser over all that the purchaser owes, read as an int64.
  ghost predicate BilledRight(w: Whole, task: nat) {
    forall k :: 0 <= k < |w.errand.assignments| && Owed(w.errand, task, k) ==>
      RightBill(w, task, w.errand.assignments[k])
  }

  ghost predicate RightBill(w: Whole, task: nat, a: Assignment) {
    && a.bill.Some? && a.bill.value < |w.bills|
    && w.bills[a.bill.value].source == P.ErrandTaskSource(task) && w.bills[a.bill.value].payerId == a.purchaser
    && w.bills[a.bill.value].amountCents == Amount(w.errand, task, a.purchaser)
  }

  function Amount(s: State, task: nat, payer: int): int {
    Wrap64(B.Total(RowsFor(s, task), payer))
  }

  // Whoever has to pay now had to pay as much when the drafts were read.
  ghost predicate SameDebts(read: State, now: State, task: nat) {
    forall p :: p in B.Payers(RowsFor(now, task)) ==>
      p in B.Payers(RowsFor(read, task)) && Amount(now, task, p) == Amount(read, task, p)
  }

  // A call as it stood when its drafts were read.
  ghost predicate ReadFrom(call: Call, drafts: seq<B.BillDraft>, read: State, captain: int, task: nat) {
    && call.captain == captain && call.task == task && call.payers == B.Payers(RowsFor(read, task))
    && B.DraftsSpec(RowsFor(read, task)) == Ok(drafts)
  }

  lemma DraftsAreAmounts(call: Call, drafts: seq<B.BillDraft>, read: State, captain: int, task: nat)
    requires ReadFrom(call, drafts, read, captain, task)
    ensures |drafts| == |call.payers|
    ensures forall j :: 0 <= j < |drafts| ==>
              drafts[j].payer == call.payers[j] && drafts[j].amount == Amount(read, task, call.payers[j])
  {
  }

  lemma {:induction false} OwedAppears(s: State, assignments: seq<Assignment>, task: nat, k: nat)
    requires k < |assignments| && Chargeable(assignments[k], task, CaptainOf(s, task))
    ensures assignments[k].purchaser in Chargees(assignments, task, CaptainOf(s, task))
  {
    if k < |assignments| - 1 { OwedAppears(s, assignments[..|assignments| - 1], task, k); }
  }

  // What the accepted transition of a call leaves, row by row.
  ghost predicate Transitioned(w: Whole, v: Whole, call: Call, drafts: seq<B.BillDraft>) {
    && RowsFor(v.errand, call.task) == RowsFor(w.errand, call.task)
    && CaptainOf(v.errand, call.task) == CaptainOf(w.errand, call.task)
    && |v.errand.assignments| == |w.errand.assignments| && |drafts| == |call.payers|
    && forall k :: 0 <= k < |w.errand.assignments| ==>
         && v.errand.assignments[k] == w.errand.assignments[k].(bill := v.errand.assignments[k].bill)
         && (Owed(w.errand, call.task, k) ==>
               w.errand.assignments[k].bill == None && OwedIsBilled(w, v, call, drafts, k))
  }

  lemma RightBillIff(w: Whole, v: Whole, call: Call, drafts: seq<B.BillDraft>, read: State, captain: int, k: nat)
    requires ReadFrom(call, drafts, read, captain, call.task) && Transitioned(w, v, call, drafts)
    requires k < |w.errand.assignments| && Owed(w.errand, call.task, k)
    ensures RightBill(v, call.task, v.errand.assignments[k])
       <==> w.errand.assignments[k].purchaser in call.payers
            && Amount(w.errand, call.task, w.errand.assignments[k].purchaser)
               == Amount(read, call.task, w.errand.assignments[k].purchaser)
  {
    var a, after := w.errand.assignments[k], v.errand.assignments[k];
    DraftsAreAmounts(call, drafts, read, captain, call.task);
    if a.purchaser in call.payers {
      var j :| 0 <= j < |call.payers| && call.payers[j] == a.purchaser;
      assert BillFor(v.bills[after.bill.value], call.task, drafts[j]);
    }
  }

  lemma BilledRightIff(w: Whole, v: Whole, call: Call, drafts: seq<B.BillDraft>, read: State, captain: int)
    requires ReadFrom(call, drafts, read, captain, call.task) && Transitioned(w, v, call, drafts)
    ensures BilledRight(v, call.task) <==> SameDebts(read, w.errand, call.task)
  {
    var task, s := call.task, w.errand;
    PayersAreChargees(s, s.assignments, task);
    forall k | 0 <= k < |s.assignments| && Owed(s, task, k)
      ensures s.assignments[k].purchaser in B.Payers(RowsFor(s, task))
      ensures RightBill(v, task, v.errand.assignments[k])
         <==> s.assignments[k].purchaser in call.payers
              && Amount(s, task, s.assignments[k].purchaser) == Amount(read, task, s.assignments[k].purchaser)
    {
      OwedAppears(s, s.assignments, task, k);
      RightBillIff(w, v, call, drafts, read, captain, k);
    }
    if BilledRight(v, task) {
      forall p | p in B.Payers(RowsFor(s, task))
        ensures p in B.Payers(RowsFor(read, task)) && Amount(s, task, p) == Amount(read, task, p)
      {
        var k := ChargedFor(s.assignments, task, CaptainOf(s, task), p);
        assert Owed(v.errand, task, k);
      }
    }
  }

  // No row of the task carries a bill yet.
  ghost predicate Unbilled(s: State, task: nat) {
    forall k :: 0 <= k < |s.assignments| && s.assignments[k].task == task ==> s.assignments[k].bill == None
  }

  lemma DistributingIsUnbilled(w: Whole, task: nat)
    requires Links.Linked(w.errand, w.bills) && task < |w.errand.tasks|
    requires w.errand.tasks[task].status == TaskDistributing
    ensures Unbilled(w.errand, task)
  {
    forall k | 0 <= k < |w.errand.assignments| && w.errand.assignments[k].task == task
      ensures w.errand.assignments[k].bill == None
    {
      assert w.errand.assignments[k] in w.errand.assignments;
    }
  }

  lemma AcceptedDistributes(w: Whole, c: nat)
    requires ReadyCall(w, c) && w.calls[c].payers != [] && DoTransition(w, c).errand != w.errand
    ensures var task := w.calls[c].task;
            task < |w.errand.tasks| && w.errand.tasks[task].status == TaskDistributing
  {
  }

  lemma Accepted(w: Whole, c: nat, drafts: seq<B.BillDraft>)
    requires ReadyCall(w, c) && w.calls[c].payers != [] && CallBills(w.bills, w.calls[c], drafts)
    requires Unbilled(w.errand, w.calls[c].task) && DoTransition(w, c).errand != w.errand
    ensures Transitioned(w, DoTransition(w, c), w.calls[c], drafts)
  {
    var call, v := w.calls[c], DoTransition(w, c);
    var pairs := Pairs(call.payers, call.bills);
    CollectingKeepsRows(w.errand, call.captain, call.task, pairs);
    Requests.CollectingAccepts(w.errand, call.captain, call.task, pairs);
    forall k | 0 <= k < |w.errand.assignments|
      ensures v.errand.assignments[k] == w.errand.assignments[k].(bill := v.errand.assignments[k].bill)
      ensures Owed(w.errand, call.task, k) ==>
                w.errand.assignments[k].bill == None && OwedIsBilled(w, v, call, drafts, k)
    {
      assert Requests.RowBilled(w.errand.assignments[k], v.errand.assignments[k], call.task, pairs);
      if Owed(w.errand, call.task, k) { TransitionBills(w, c, drafts, k); }
    }
  }

  lemma ReachableLinks(moves: seq<Move>)
    ensures var b := DoesAll(NO_BILLING, moves);
            WholeInv(b.whole) && Links.Linked(b.whole.errand, b.whole.bills) && AsDrafted(b)
  {
    var wider := FollowsWider(NO_BILLING, moves);
    NothingInv();
    Links.MovesLink(NOTHING, wider);
    AllKeepDrafts(NO_BILLING, moves);
  }

  lemma {:induction false} DoesAppend(b: Billing, first: seq<Move>, second: seq<Move>)
    ensures DoesAll(b, first + second) == DoesAll(DoesAll(b, first), second)
    decreases |first|
  {
    if first == [] {
      assert first + second == second;
    } else {
      assert (first + second)[1..] == first[1..] + second;
      DoesAppend(Does(b, first[0]), first[1..], second);
    }
  }

  lemma DoesOne(b: Billing, move: Move)
    ensures DoesAll(b, [move]) == Does(b, move)
  {
    assert [move][1..] == [];
  }

  // The call of a transition whose drafts were read at some time, at any later time.
  ghost predicate Prepared(b: Billing, u: Billing, captain: int, task: nat) {
    var c := |b.whole.calls|;
    && c < |u.whole.calls| == |u.drafts| && Links.Linked(u.whole.errand, u.whole.bills)
    && CallBills(u.whole.bills, u.whole.calls[c], u.drafts[c]) && u.whole.calls[c].payers != []
    && ReadFrom(u.whole.calls[c], u.drafts[c], b.whole.errand, captain, task)
  }

  lemma Preparing(before: seq<Move>, captain: int, task: nat, between: seq<Move>)
    requires var b := DoesAll(NO_BILLING, before);
             B.DraftsSpec(RowsFor(b.whole.errand, task)).Ok? && RowsFor(b.whole.errand, task) != []
    ensures var b := DoesAll(NO_BILLING, before);
            Prepared(b, DoesAll(Does(b, ReadDrafts(captain, task)), between), captain, task)
  {
    var b := DoesAll(NO_BILLING, before);
    var c, r := |b.whole.calls|, Does(b, ReadDrafts(captain, task));
    AllKeepDrafts(NO_BILLING, before);
    DoesOne(b, ReadDrafts(captain, task));
    DoesAppend(NO_BILLING, before, [ReadDrafts(captain, task)]);
    DoesAppend(NO_BILLING, before + [ReadDrafts(captain, task)], between);
    ReachableLinks(before + [ReadDrafts(captain, task)] + between);
    PayersAreChargees(b.whole.errand, b.whole.errand.assignments, task);
    SomebodyPays(b.whole.errand, task);
    AllKeepCall(r, between, c);
    var u := DoesAll(r, between);
    assert CallBills(u.whole.bills, u.whole.calls[c], u.drafts[c]);
  }

  lemma SomebodyPays(s: State, task: nat)
    requires RowsFor(s, task) != []
    ensures B.Payers(RowsFor(s, task)) != []
  {
  }

  // Whatever happens before the drafts are read and between that and the transition: if the task is then collected
  // for, its bills are over what its purchasers owe exactly when everybody who owes something already owed as much
  // when the drafts were read. A price or a share that changes meanwhile is not noticed.
  lemma BillsAreRightIff(before: seq<Move>, captain: int, task: nat, between: seq<Move>)
    requires var b := DoesAll(NO_BILLING, before);
             var c, u := |b.whole.calls|, DoesAll(Does(b, ReadDrafts(captain, task)), between);
             && B.DraftsSpec(RowsFor(b.whole.errand, task)).Ok? && RowsFor(b.whole.errand, task) != []
             && Does(u, Transition(c)).whole.errand != u.whole.errand
    ensures var b := DoesAll(NO_BILLING, before);
            var c, u := |b.whole.calls|, DoesAll(Does(b, ReadDrafts(captain, task)), between);
            BilledRight(Does(u, Transition(c)).whole, task) <==> SameDebts(b.whole.errand, u.whole.errand, task)
  {
    var b := DoesAll(NO_BILLING, before);
    var c, u := |b.whole.calls|, DoesAll(Does(b, ReadDrafts(captain, task)), between);
    Preparing(before, captain, task, between);
    AcceptedDistributes(u.whole, c);
    DistributingIsUnbilled(u.whole, task);
    Accepted(u.whole, c, u.drafts[c]);
    BilledRightIff(u.whole, DoTransition(u.whole, c), u.whole.calls[c], u.drafts[c], b.whole.errand, captain);
  }
}
