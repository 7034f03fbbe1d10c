// When a captain can start collecting: exactly when no live bill of an earlier attempt says something else.
module ErrandAmountsProgress {
  import opened Common
  import opened Errand
  import opened ErrandPayments
  import opened ErrandAmounts
  import opened ErrandAmountsTheorems
  import Requests = ErrandRequests
  import B = ErrandBilling
  import Sums = ErrandBillingSums
  import P = PaymentBills

  // Every live bill the payer has for the task is payable to the captain and over the drafted amount.
  ghost predicate Agrees(bills: seq<P.Bill>, task: nat, captain: int, draft: B.BillDraft) {
    forall b :: 0 <= b < |bills| && LiveBill(bills[b], task, draft.payer) ==>
      bills[b].payeeId == captain && bills[b].amountCents == draft.amount
  }

  predicate LiveBill(bill: P.Bill, task: nat, payer: int) {
    bill.source == P.ErrandTaskSource(task) && bill.payerId == payer && bill.status != P.Closed
  }

  ghost predicate CanBill(bills: seq<P.Bill>, task: nat, captain: int, draft: B.BillDraft) {
    captain > 0 && draft.payer > 0 && Agrees(bills, task, captain, draft)
  }

  // A draft as the rows give it: for somebody else than the captain, over an amount.
  predicate Sound(draft: B.BillDraft, captain: int) {
    draft.payer != captain && draft.amount >= 0
  }

  // ------------------------------------------------------------------ one live bill each

  ghost predicate OneLive(bills: seq<P.Bill>) {
    forall a, b :: 0 <= a < b < |bills| && SameDebt(bills[a], bills[b]) ==>
      bills[a].status == P.Closed || bills[b].status == P.Closed
  }

  predicate SameDebt(a: P.Bill, b: P.Bill) {
    a.source == b.source && a.payerId == b.payerId
  }

  // Rows keep what they are for and stay closed; a new one is the only live one of its debt.
  ghost predicate StaysOneLive(before: seq<P.Bill>, after: seq<P.Bill>) {
    && |before| <= |after| <= |before| + 1
    && (forall b :: 0 <= b < |before| ==>
          && SameDebt(before[b], after[b])
          && (before[b].status == P.Closed ==> after[b].status == P.Closed))
    && (|after| > |before| ==>
          forall b :: 0 <= b < |before| && SameDebt(after[b], after[|before|]) ==> after[b].status == P.Closed)
  }

  lemma MoveStaysOneLive(w: Whole, move: Move)
    ensures StaysOneLive(w.bills, After(w, move).bills)
  {
    if move.BillNext? { CallStaysOneLive(w, move.call, move.amount); }
  }

  lemma CallStaysOneLive(w: Whole, c: nat, amount: int)
    ensures StaysOneLive(w.bills, DoBillNext(w, c, amount).bills)
  {
  }

  lemma StillOneLive(before: seq<P.Bill>, after: seq<P.Bill>)
    requires OneLive(before) && StaysOneLive(before, after)
    ensures OneLive(after)
  {
    forall a, b | 0 <= a < b < |after| && SameDebt(after[a], after[b])
      ensures after[a].status == P.Closed || after[b].status == P.Closed
    {
      if b < |before| { assert SameDebt(before[a], before[b]); }
    }
  }

  lemma {:induction false} AllOneLive(b: Billing, moves: seq<Move>)
    requires OneLive(b.whole.bills)
    ensures OneLive(DoesAll(b, moves).whole.bills)
    decreases |moves|
  {
    if moves != [] {
      DoesOneLive(b, moves[0]);
      AllOneLive(Does(b, moves[0]), moves[1..]);
    }
  }

  lemma DoesOneLive(b: Billing, move: Move)
    requires OneLive(b.whole.bills)
    ensures OneLive(Does(b, move).whole.bills)
  {
    DoesFollows(b, move);
    var moves := AsMoves(b, move);
    if moves != [] {
      assert moves == [moves[0]] && moves[1..] == [];
      MoveStaysOneLive(b.whole, moves[0]);
      StillOneLive(b.whole.bills, After(b.whole, moves[0]).bills);
    }
  }

  // ------------------------------------------------------------------ one call after the other

  // Nothing but the call's bills and the bill table has changed.
  ghost predicate OnlyBilled(b: Billing, t: Billing, c: nat) {
    && c < |b.whole.calls| == |t.whole.calls| && t.drafts == b.drafts && t.whole.errand == b.whole.errand
    && t.whole.calls[c] == b.whole.calls[c].(bills := t.whole.calls[c].bills)
  }

  // The bills of everybody else are as they were.
  ghost predicate OthersAgree(before: seq<P.Bill>, after: seq<P.Bill>, task: nat, captain: int, payer: int) {
    forall draft: B.BillDraft :: draft.payer != payer ==>
      (Agrees(before, task, captain, draft) <==> Agrees(after, task, captain, draft))
  }

  lemma BillOne(b: Billing, c: nat, captain: int)
    requires c < |b.whole.calls| == |b.drafts| && |b.whole.calls[c].bills| < |b.drafts[c]| == |b.whole.calls[c].payers|
    requires var n := |b.whole.calls[c].bills|;
             b.whole.calls[c].payers[n] == b.drafts[c][n].payer && Sound(b.drafts[c][n], captain)
    requires captain == CaptainOf(b.whole.errand, b.whole.calls[c].task) && OneLive(b.whole.bills)
    ensures var call, draft := b.whole.calls[c], b.drafts[c][|b.whole.calls[c].bills|];
            var t := Does(b, BillNext(c, 0));
            if CanBill(b.whole.bills, call.task, captain, draft)
            then
              && OnlyBilled(b, t, c) && |t.whole.calls[c].bills| == |call.bills| + 1
              && OthersAgree(b.whole.bills, t.whole.bills, call.task, captain, draft.payer)
            else t == b
  {
    var call, draft := b.whole.calls[c], b.drafts[c][|b.whole.calls[c].bills|];
    var t := Does(b, BillNext(c, 0));
    var existing := P.FindLive(b.whole.bills, P.ErrandTaskSource(call.task), draft.payer);
    if existing.Some? {
      assert LiveBill(b.whole.bills[existing.value], call.task, draft.payer);
    }
    if CanBill(b.whole.bills, call.task, captain, draft) {
      AddedForOne(b.whole.bills, t.whole.bills, call.task, captain, draft.payer);
    }
  }

  lemma AddedForOne(before: seq<P.Bill>, after: seq<P.Bill>, task: nat, captain: int, payer: int)
    requires after == before
             || (|after| == |before| + 1 && after[..|before|] == before && after[|before|].payerId == payer)
    ensures OthersAgree(before, after, task, captain, payer)
  {
    forall draft: B.BillDraft | draft.payer != payer
      ensures Agrees(before, task, captain, draft) <==> Agrees(after, task, captain, draft)
    {
      forall b | 0 <= b < |before| ensures after[b] == before[b] { }
      if Agrees(after, task, captain, draft) {
        forall b | 0 <= b < |before| && LiveBill(before[b], task, draft.payer)
          ensures before[b].payeeId == captain && before[b].amountCents == draft.amount
        {
          assert LiveBill(after[b], task, draft.payer);
        }
      }
    }
  }

  function BillTimes(c: nat, n: nat): seq<Move> {
    if n == 0 then [] else [BillNext(c, 0)] + BillTimes(c, n - 1)
  }

  // Every draft from the n-th on can be billed.
  ghost predicate RestCanBill(bills: seq<P.Bill>, task: nat, captain: int, drafts: seq<B.BillDraft>, n: nat) {
    forall k :: n <= k < |drafts| ==> CanBill(bills, task, captain, drafts[k])
  }

  ghost predicate SoundCall(b: Billing, c: nat, captain: int) {
    && c < |b.whole.calls| == |b.drafts| && |b.drafts[c]| == |b.whole.calls[c].payers|
    && |b.whole.calls[c].bills| <= |b.drafts[c]| && captain == CaptainOf(b.whole.errand, b.whole.calls[c].task)
    && (forall k :: 0 <= k < |b.drafts[c]| ==>
          b.drafts[c][k].payer == b.whole.calls[c].payers[k] && Sound(b.drafts[c][k], captain))
    && (forall k, l :: 0 <= k < l < |b.drafts[c]| ==> b.drafts[c][k].payer != b.drafts[c][l].payer)
  }

  lemma BillFirst(b: Billing, c: nat, n: nat)
    requires n > 0
    ensures DoesAll(b, BillTimes(c, n)) == DoesAll(Does(b, BillNext(c, 0)), BillTimes(c, n - 1))
  {
    assert BillTimes(c, n)[0] == BillNext(c, 0) && BillTimes(c, n)[1..] == BillTimes(c, n - 1);
  }

  // A call that is granted leaves a sound call with one draft less to go.
  lemma BillStep(b: Billing, c: nat, captain: int)
    requires SoundCall(b, c, captain) && OneLive(b.whole.bills) && |b.whole.calls[c].bills| < |b.drafts[c]|
    requires CanBill(b.whole.bills, b.whole.calls[c].task, captain, b.drafts[c][|b.whole.calls[c].bills|])
    ensures var call, t := b.whole.calls[c], Does(b, BillNext(c, 0));
            && OnlyBilled(b, t, c) && SoundCall(t, c, captain) && OneLive(t.whole.bills)
            && |t.whole.calls[c].bills| == |call.bills| + 1
            && (RestCanBill(b.whole.bills, call.task, captain, b.drafts[c], |call.bills|)
                <==> RestCanBill(t.whole.bills, call.task, captain, b.drafts[c], |call.bills| + 1))
  {
    BillOne(b, c, captain);
    DoesOneLive(b, BillNext(c, 0));
    RestAgrees(b.whole.bills, Does(b, BillNext(c, 0)).whole.bills, b.whole.calls[c].task, captain, b.drafts[c],
               |b.whole.calls[c].bills|);
  }

  lemma {:induction false} BillMany(b: Billing, c: nat, captain: int, n: nat)
    requires SoundCall(b, c, captain) && OneLive(b.whole.bills) && n == |b.drafts[c]| - |b.whole.calls[c].bills|
    ensures var call, t := b.whole.calls[c], DoesAll(b, BillTimes(c, n));
            && OnlyBilled(b, t, c)
            && (|t.whole.calls[c].bills| == |b.drafts[c]|
                <==> RestCanBill(b.whole.bills, call.task, captain, b.drafts[c], |call.bills|))
    decreases n
  {
    if n > 0 {
      var call, draft := b.whole.calls[c], b.drafts[c][|b.whole.calls[c].bills|];
      BillFirst(b, c, n);
      if CanBill(b.whole.bills, call.task, captain, draft) {
        BillStep(b, c, captain);
        BillMany(Does(b, BillNext(c, 0)), c, captain, n - 1);
      } else {
        BillOne(b, c, captain);
        Stuck(b, c, n - 1);
      }
    }
  }

  lemma RestAgrees(before: seq<P.Bill>, after: seq<P.Bill>, task: nat, captain: int, drafts: seq<B.BillDraft>, n: nat)
    requires n < |drafts| && CanBill(before, task, captain, drafts[n])
    requires OthersAgree(before, after, task, captain, drafts[n].payer)
    requires forall k, l :: 0 <= k < l < |drafts| ==> drafts[k].payer != drafts[l].payer
    ensures RestCanBill(before, task, captain, drafts, n) <==> RestCanBill(after, task, captain, drafts, n + 1)
  {
    forall k | n < k < |drafts|
      ensures CanBill(before, task, captain, drafts[k]) <==> CanBill(after, task, captain, drafts[k]) { }
  }

  // A call that is refused is refused again.
  lemma {:induction false} Stuck(b: Billing, c: nat, n: nat)
    requires Does(b, BillNext(c, 0)) == b
    ensures DoesAll(b, BillTimes(c, n)) == b
  {
    if n > 0 {
      BillFirst(b, c, n);
      Stuck(b, c, n - 1);
    }
  }

  // ------------------------------------------------------------------ the whole attempt

  // An undisturbed attempt: read the drafts, ask for every bill, move the task on.
  function Attempt(b: Billing, captain: int, task: nat): seq<Move> {
    var c := |b.whole.calls|;
    [ReadDrafts(captain, task)] + BillTimes(c, |B.Payers(RowsFor(b.whole.errand, task))|) + [Transition(c)]
  }

  // The task is the captain's, being distributed and fully shared out, somebody has to pay, and every amount fits.
  ghost predicate ReadyToCollect(s: State, captain: int, task: nat) {
    && Requests.Own(s, captain, task, {TaskDistributing}) && Requests.SharedOut(s, task)
    && RowsFor(s, task) != [] && B.DraftsSpec(RowsFor(s, task)).Ok?
  }

  lemma ReadCall(b: Billing, captain: int, task: nat)
    requires AsDrafted(b) && ReadyToCollect(b.whole.errand, captain, task)
    ensures var c, t := |b.whole.calls|, Does(b, ReadDrafts(captain, task));
            && SoundCall(t, c, captain) && t.whole.calls[c].bills == [] && t.whole.calls[c].task == task
            && t.whole.calls[c].captain == captain && t.whole.calls[c].payers == B.Payers(RowsFor(b.whole.errand, task))
            && t.whole.errand == b.whole.errand && t.whole.bills == b.whole.bills
            && Ok(t.drafts[c]) == B.DraftsSpec(RowsFor(b.whole.errand, task))
  {
    var s, rows := b.whole.errand, RowsFor(b.whole.errand, task);
    var drafts := B.DraftsSpec(rows).value;
    PayersAreChargees(s, s.assignments, task);
    Sums.PayersExact(rows);
    forall k | 0 <= k < |drafts| ensures Sound(drafts[k], captain) {
      assert drafts[k].payer in B.Payers(rows);
      var row := ChargedFor(s.assignments, task, CaptainOf(s, task), drafts[k].payer);
    }
  }

  // With all bills made the transition is accepted; with one missing it is not.
  lemma Moving(w: Whole, c: nat, captain: int, task: nat)
    requires ReadyToCollect(w.errand, captain, task) && c < |w.calls| && w.calls[c].payers != []
    requires w.calls[c].task == task && w.calls[c].captain == captain
    requires w.calls[c].payers == B.Payers(RowsFor(w.errand, task))
    ensures Collects(DoTransition(w, c).errand, task) <==> |w.calls[c].bills| == |w.calls[c].payers|
  {
    var call := w.calls[c];
    if ReadyCall(w, c) {
      var pairs := Pairs(call.payers, call.bills);
      PayersAreChargees(w.errand, w.errand.assignments, task);
      forall j | 0 <= j < |pairs| ensures Requests.Owes(w.errand.assignments, task, pairs[j].0) {
        var k := ChargedFor(w.errand.assignments, task, captain, pairs[j].0);
        assert Requests.Due(w.errand.assignments[k], task, pairs[j].0);
      }
      Requests.CollectingAccepts(w.errand, captain, task, pairs);
    }
  }

  lemma AttemptRuns(b: Billing, captain: int, task: nat)
    ensures var c, n := |b.whole.calls|, |B.Payers(RowsFor(b.whole.errand, task))|;
            DoesAll(b, Attempt(b, captain, task))
            == Does(DoesAll(Does(b, ReadDrafts(captain, task)), BillTimes(c, n)), Transition(c))
  {
    var c, n := |b.whole.calls|, |B.Payers(RowsFor(b.whole.errand, task))|;
    var read, bill := [ReadDrafts(captain, task)], BillTimes(c, n);
    DoesOne(b, ReadDrafts(captain, task));
    DoesAppend(b, read, bill);
    DoesAppend(b, read + bill, [Transition(c)]);
    DoesOne(DoesAll(b, read + bill), Transition(c));
  }

  // Every user has a proper id, and no live bill that an earlier attempt made for the task is over another amount.
  ghost predicate NothingStale(b: Billing, captain: int, task: nat)
    requires ReadyToCollect(b.whole.errand, captain, task)
  {
    var drafts := B.DraftsSpec(RowsFor(b.whole.errand, task)).value;
    forall k :: 0 <= k < |drafts| ==> CanBill(b.whole.bills, task, captain, drafts[k])
  }

  lemma AttemptCollects(b: Billing, captain: int, task: nat)
    requires AsDrafted(b) && OneLive(b.whole.bills) && ReadyToCollect(b.whole.errand, captain, task)
    ensures Collects(DoesAll(b, Attempt(b, captain, task)).whole.errand, task) <==> NothingStale(b, captain, task)
  {
    var c, n := |b.whole.calls|, |B.Payers(RowsFor(b.whole.errand, task))|;
    var r := Does(b, ReadDrafts(captain, task));
    AttemptRuns(b, captain, task);
    ReadCall(b, captain, task);
    BillMany(r, c, captain, n);
    SomebodyPays(b.whole.errand, task);
    Moving(DoesAll(r, BillTimes(c, n)).whole, c, captain, task);
  }

  // From every reachable state in which a task is ready to collect: an undisturbed attempt starts the collection
  // exactly when no live bill of an earlier attempt is over another amount. A price or a share that was changed
  // after such an attempt blocks every later one.
  lemma CollectsIff(before: seq<Move>, captain: int, task: nat)
    requires ReadyToCollect(DoesAll(NO_BILLING, before).whole.errand, captain, task)
    ensures var b := DoesAll(NO_BILLING, before);
            Collects(DoesAll(b, Attempt(b, captain, task)).whole.errand, task) <==> NothingStale(b, captain, task)
  {
    AllKeepDrafts(NO_BILLING, before);
    AllOneLive(NO_BILLING, before);
    AttemptCollects(DoesAll(NO_BILLING, before), captain, task);
  }
}
