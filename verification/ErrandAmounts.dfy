// What the bills of an errand task are made out for. A transition drafts its bills from the task's rows before it
// locks the task, and asks for them one call at a time, each over the amount of its draft.
module ErrandAmounts {
  import opened Common
  import opened Errand
  import opened ErrandPayments
  import opened ErrandPaymentsSafety
  import B = ErrandBilling
  import Sums = ErrandBillingSums
  import P = PaymentBills

  // The drafts of a transition's call, beside the tables of both services.
  datatype Billing = Billing(whole: Whole, drafts: seq<seq<B.BillDraft>>)

  const NO_BILLING := Billing(NOTHING, [])

  // ------------------------------------------------------------------ the rows and their drafts

  // The columns are int32, and no request carries anything else.
  function Column(x: int): Int32 {
    if -0x8000_0000 <= x <= INT32_MAX then x else 0
  }

  // COALESCE(actual_unit_price_cents, 0).
  function PriceOf(s: State, ti: nat): int {
    if ti < |s.taskItems| && s.taskItems[ti].price.Some? then s.taskItems[ti].price.value else 0
  }

  function PackagingOf(s: State, task: nat): int {
    if task < |s.tasks| then s.tasks[task].packaging else 0
  }

  function RowOf(s: State, a: Assignment, task: nat): B.Row {
    B.Row(a.purchaser, CaptainOf(s, task), Column(PackagingOf(s, task)), Column(PriceOf(s, a.taskItem)),
          if a.distributed.Some? then Some(Column(a.distributed.value)) else None, Column(a.fee))
  }

  function RowsFrom(s: State, assignments: seq<Assignment>, task: nat): seq<B.Row> {
    if assignments == [] then []
    else
      var r := RowsFrom(s, assignments[..|assignments| - 1], task);
      var last := assignments[|assignments| - 1];
      if Chargeable(last, task, CaptainOf(s, task)) then r + [RowOf(s, last, task)] else r
  }

  // ListTaskPaymentBillAssignments.
  function RowsFor(s: State, task: nat): seq<B.Row> {
    RowsFrom(s, s.assignments, task)
  }

  lemma {:induction false} PayersAreChargees(s: State, assignments: seq<Assignment>, task: nat)
    ensures B.Payers(RowsFrom(s, assignments, task)) == Chargees(assignments, task, CaptainOf(s, task))
  {
    if assignments != [] {
      var n := |assignments| - 1;
      PayersAreChargees(s, assignments[..n], task);
      var r, row := RowsFrom(s, assignments[..n], task), RowOf(s, assignments[n], task);
      assert (r + [row])[..|r|] == r;
    }
  }

  lemma {:induction false} PayeesAreCaptain(s: State, assignments: seq<Assignment>, task: nat, payer: int)
    requires payer in B.Payers(RowsFrom(s, assignments, task))
    ensures B.FirstPayee(RowsFrom(s, assignments, task), payer) == CaptainOf(s, task)
  {
    var n := |assignments| - 1;
    var r, row := RowsFrom(s, assignments[..n], task), RowOf(s, assignments[n], task);
    assert (r + [row])[..|r|] == r;
    if payer in B.Payers(r) { PayeesAreCaptain(s, assignments[..n], task, payer); }
  }

  // Every draft is for a purchaser who was given something and is not the captain, and payable to the captain.
  lemma DraftsNameTheCaptain(s: State, task: nat, k: nat)
    requires B.DraftsSpec(RowsFor(s, task)).Ok? && k < |B.DraftsSpec(RowsFor(s, task)).value|
    ensures var draft := B.DraftsSpec(RowsFor(s, task)).value[k];
            && draft.payee == CaptainOf(s, task) && draft.amount == Wrap64(B.Total(RowsFor(s, task), draft.payer))
            && exists l :: 0 <= l < |s.assignments| && s.assignments[l].purchaser == draft.payer
                           && Chargeable(s.assignments[l], task, CaptainOf(s, task))
  {
    var payer := B.Payers(RowsFor(s, task))[k];
    PayersAreChargees(s, s.assignments, task);
    PayeesAreCaptain(s, s.assignments, task, payer);
    var l := ChargedFor(s.assignments, task, CaptainOf(s, task), payer);
  }

  lemma {:induction false} ChargedFor(assignments: seq<Assignment>, task: nat, captain: int, payer: int)
    returns (k: nat)
    requires payer in Chargees(assignments, task, captain)
    ensures k < |assignments| && Chargeable(assignments[k], task, captain) && assignments[k].purchaser == payer
  {
    var n := |assignments| - 1;
    k := n;
    if payer in Chargees(assignments[..n], task, captain) { k := ChargedFor(assignments[..n], task, captain, payer); }
  }

  // ------------------------------------------------------------------ moves that bill what was drafted

  // A transition whose drafts do not fit an int32 ends at once, and each call is for the amount of its draft.
  function Does(b: Billing, move: Move): Billing {
    match move
    case ReadDrafts(captain, task) =>
      var drafts := B.DraftsSpec(RowsFor(b.whole.errand, task));
      if drafts.Err? then b else Billing(After(b.whole, move), b.drafts + [drafts.value])
    case BillNext(c, _) =>
      if c >= |b.whole.calls| || c >= |b.drafts| || |b.whole.calls[c].bills| >= |b.drafts[c]| then b
      else b.(whole := After(b.whole, BillNext(c, b.drafts[c][|b.whole.calls[c].bills|].amount)))
    case _ => b.(whole := After(b.whole, move))
  }

  function DoesAll(b: Billing, moves: seq<Move>): Billing
    decreases |moves|
  {
    if moves == [] then b else DoesAll(Does(b, moves[0]), moves[1..])
  }

  // The same as a move of the system in which a bill may be for any amount, or as none.
  function AsMoves(b: Billing, move: Move): seq<Move> {
    match move
    case ReadDrafts(captain, task) => if B.DraftsSpec(RowsFor(b.whole.errand, task)).Err? then [] else [move]
    case BillNext(c, _) =>
      if c >= |b.whole.calls| || c >= |b.drafts| || |b.whole.calls[c].bills| >= |b.drafts[c]| then []
      else [BillNext(c, b.drafts[c][|b.whole.calls[c].bills|].amount)]
    case _ => [move]
  }

  lemma DoesFollows(b: Billing, move: Move)
    ensures Does(b, move).whole == Afters(b.whole, AsMoves(b, move))
  {
    var moves := AsMoves(b, move);
    if moves != [] { assert moves[1..] == []; }
  }

  lemma {:induction false} AftersAppend(w: Whole, first: seq<Move>, second: seq<Move>)
    ensures Afters(w, first + second) == Afters(Afters(w, first), second)
    decreases |first|
  {
    if first == [] {
      assert first + second == second;
    } else {
      assert (first + second)[1..] == first[1..] + second;
      AftersAppend(After(w, first[0]), first[1..], second);
    }
  }

  // Whatever holds of every sequence of moves of the wider system holds here.
  lemma {:induction false} FollowsWider(b: Billing, moves: seq<Move>) returns (wider: seq<Move>)
    ensures DoesAll(b, moves).whole == Afters(b.whole, wider)
    decreases |moves|
  {
    if moves == [] {
      wider := [];
    } else {
      DoesFollows(b, moves[0]);
      var rest := FollowsWider(Does(b, moves[0]), moves[1..]);
      AftersAppend(b.whole, AsMoves(b, moves[0]), rest);
      wider := AsMoves(b, moves[0]) + rest;
    }
  }

  lemma Reachable(moves: seq<Move>)
    ensures WholeInv(DoesAll(NO_BILLING, moves).whole)
  {
    var wider := FollowsWider(NO_BILLING, moves);
    NothingInv();
    MovesKeep(NOTHING, wider);
  }

  // ------------------------------------------------------------------ every bill is for its draft

  // The bills a call has so far are those of its drafts, over the drafted amounts.
  ghost predicate CallBills(bills: seq<P.Bill>, call: Call, drafts: seq<B.BillDraft>) {
    && |drafts| == |call.payers| && B.Distinct(call.payers) && |call.bills| <= |drafts|
    && (forall k :: 0 <= k < |drafts| ==> drafts[k].payer == call.payers[k])
    && forall k :: 0 <= k < |call.bills| ==>
         call.bills[k] < |bills| && BillFor(bills[call.bills[k]], call.task, drafts[k])
  }

  predicate BillFor(bill: P.Bill, task: nat, draft: B.BillDraft) {
    bill.source == P.ErrandTaskSource(task) && bill.payerId == draft.payer && bill.amountCents == draft.amount
  }

  ghost predicate AsDrafted(b: Billing) {
    && |b.drafts| == |b.whole.calls|
    && forall c :: 0 <= c < |b.drafts| ==> CallBills(b.whole.bills, b.whole.calls[c], b.drafts[c])
  }

  // What a bill is for never changes.
  ghost predicate ColumnsKept(before: seq<P.Bill>, after: seq<P.Bill>) {
    && |before| <= |after|
    && forall b :: 0 <= b < |before| ==>
         after[b] == before[b].(status := after[b].status, updatedAt := after[b].updatedAt)
  }

  lemma MoveKeepsColumns(w: Whole, move: Move)
    ensures ColumnsKept(w.bills, After(w, move).bills)
  {
  }

  lemma CallBillsStay(before: seq<P.Bill>, after: seq<P.Bill>, call: Call, drafts: seq<B.BillDraft>)
    requires CallBills(before, call, drafts) && ColumnsKept(before, after)
    ensures CallBills(after, call, drafts)
  {
    forall k | 0 <= k < |call.bills| ensures BillFor(after[call.bills[k]], call.task, drafts[k]) {
      assert BillFor(before[call.bills[k]], call.task, drafts[k]);
    }
  }

  lemma OtherMovesKeepCalls(w: Whole, move: Move)
    requires !move.ReadDrafts? && !move.BillNext?
    ensures After(w, move).calls == w.calls
  {
  }

  lemma DoesKeepsDrafts(b: Billing, move: Move)
    requires AsDrafted(b)
    ensures AsDrafted(Does(b, move))
  {
    match move
    case ReadDrafts(captain, task) => ReadingDrafts(b, captain, task);
    case BillNext(c, amount) => BillingNext(b, c, amount);
    case _ =>
      MoveKeepsColumns(b.whole, move);
      OtherMovesKeepCalls(b.whole, move);
      forall c | 0 <= c < |b.drafts|
        ensures CallBills(After(b.whole, move).bills, b.whole.calls[c], b.drafts[c])
      {
        CallBillsStay(b.whole.bills, After(b.whole, move).bills, b.whole.calls[c], b.drafts[c]);
      }
  }

  lemma ReadingDrafts(b: Billing, captain: int, task: nat)
    requires AsDrafted(b)
    ensures AsDrafted(Does(b, ReadDrafts(captain, task)))
  {
    var rows := RowsFor(b.whole.errand, task);
    PayersAreChargees(b.whole.errand, b.whole.errand.assignments, task);
    Sums.PayersExact(rows);
  }

  lemma BillingNext(b: Billing, c: nat, amount: int)
    requires AsDrafted(b)
    ensures AsDrafted(Does(b, BillNext(c, amount)))
  {
    var t := Does(b, BillNext(c, amount));
    if t != b {
      assert CallBills(b.whole.bills, b.whole.calls[c], b.drafts[c]);
      NextBill(b.whole, c, b.drafts[c]);
      forall k | 0 <= k < |b.drafts| ensures CallBills(t.whole.bills, t.whole.calls[k], b.drafts[k]) {
        if k != c { CallBillsStay(b.whole.bills, t.whole.bills, b.whole.calls[k], b.drafts[k]); }
      }
    }
  }

  // One call for the next draft.
  lemma NextBill(w: Whole, c: nat, drafts: seq<B.BillDraft>)
    requires c < |w.calls| && CallBills(w.bills, w.calls[c], drafts) && |w.calls[c].bills| < |drafts|
    ensures var v := DoBillNext(w, c, drafts[|w.calls[c].bills|].amount);
            && ColumnsKept(w.bills, v.bills) && |v.calls| == |w.calls|
            && (forall k :: 0 <= k < |w.calls| && k != c ==> v.calls[k] == w.calls[k])
            && CallBills(v.bills, v.calls[c], drafts)
  {
    var v, n := DoBillNext(w, c, drafts[|w.calls[c].bills|].amount), |w.calls[c].bills|;
    CallBillsStay(w.bills, v.bills, w.calls[c], drafts);
    if v != w {
      assert v.calls[c] == w.calls[c].(bills := v.calls[c].bills) && |v.calls[c].bills| == n + 1;
      assert v.calls[c].bills[..n] == w.calls[c].bills;
      assert BillFor(v.bills[v.calls[c].bills[n]], w.calls[c].task, drafts[n]);
    }
  }

  lemma {:induction false} AllKeepDrafts(b: Billing, moves: seq<Move>)
    requires AsDrafted(b)
    ensures AsDrafted(DoesAll(b, moves))
    decreases |moves|
  {
    if moves != [] {
      DoesKeepsDrafts(b, moves[0]);
      AllKeepDrafts(Does(b, moves[0]), moves[1..]);
    }
  }
}
