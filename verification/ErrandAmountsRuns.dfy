// Two runs in which a price changes after the buyer (2) was billed: one ends with the bill at the old price, in the
// other the task cannot be collected for any more.
module ErrandAmountsRuns {
  import opened Common
  import opened Errand
  import opened ErrandPayments
  import opened ErrandPaymentsRuns
  import opened ErrandAmounts
  import Theorems = ErrandAmountsTheorems
  import Progress = ErrandAmountsProgress
  import Requests = ErrandRequests
  import B = ErrandBilling
  import P = PaymentBills

  // Moves within the errand tables read and bill no drafts.
  lemma {:induction false} WithinDoes(b: Billing, moves: seq<Move>)
    requires AllWithin(moves)
    ensures DoesAll(b, moves) == b.(whole := Afters(b.whole, moves))
    decreases |moves|
  {
    if moves != [] {
      assert moves[0].Within?;
      forall k | 0 <= k < |moves[1..]| ensures moves[1..][k].Within? { assert moves[1..][k] == moves[k + 1]; }
      WithinDoes(Does(b, moves[0]), moves[1..]);
    }
  }

  lemma Longer(moves: seq<Move>, from: Billing, move: Move, to: Billing) returns (longer: seq<Move>)
    requires DoesAll(NO_BILLING, moves) == from && Does(from, move) == to
    ensures DoesAll(NO_BILLING, longer) == to
  {
    longer := moves + [move];
    Theorems.DoesAppend(NO_BILLING, moves, [move]);
    Theorems.DoesOne(from, move);
  }

  // The tables with the price of the one product.
  function PricedAt(price: int): State {
    Two(Distributing, Distributing, TaskDistributing, Some(2), Some(price), Some(1), Some(1), None, [])
  }

  function CollectingAt(price: int): State {
    Two(PendingPayment, PendingPayment, CollectingPayment, Some(2), Some(price), Some(1), Some(1), Some(0), [])
  }

  function RowAt(price: Int32): B.Row {
    B.Row(2, 1, 0, price, Some(1), 0)
  }

  lemma OneRow(s: State, price: Int32)
    requires s == PricedAt(price) || s == CollectingAt(price)
    ensures RowsFor(s, 0) == [RowAt(price)]
  {
    var rows := s.assignments;
    assert rows[..1] == [rows[0]] && [rows[0]][..0] == [];
    assert RowOf(s, rows[0], 0) == RowAt(price);
    assert RowsFrom(s, [], 0) == [];
    assert RowsFrom(s, [rows[0]], 0) == [RowAt(price)];
    assert !Chargeable(rows[1], 0, 1);
  }

  lemma OneDebt(price: Int32)
    ensures B.Payers([RowAt(price)]) == [2] && B.Total([RowAt(price)], 2) == price
  {
    var rows := [RowAt(price)];
    assert rows[..0] == [];
    assert B.Payers([]) == [] && B.Owed([], 2) == 0;
    assert B.RowAmount(RowAt(price)) == price;
  }

  lemma DraftsAt(price: Int32)
    requires 0 <= price
    ensures B.DraftsSpec([RowAt(price)]) == Ok([B.BillDraft(2, 1, price)])
  {
    OneDebt(price);
    var rows := [RowAt(price)];
    assert rows[..0] == [];
    assert B.DraftsFit(rows);
    assert B.DraftsSpec(rows).value == [B.BillDraft(2, 1, price)];
  }

  lemma SharedOutAt(price: int)
    ensures FullyDistributed(PricedAt(price), 0)
  {
    SumTwo(PricedAt(price));
    assert PricedAt(price).taskItems[0].task == 0;
  }

  lemma CollectsAt(price: int)
    ensures DoToCollecting(PricedAt(price), 1, 0, [(2, 0)]) == CollectingAt(price)
  {
    SharedOutAt(price);
    var s := PricedAt(price);
    var rows, bills := s.assignments, [(2, 0)];
    assert bills[..0] == [] && Bound(rows, 0, []) == rows;
    assert Billable(rows[0], 0, 2) && !Billable(rows[1], 0, 2);
    assert Bound(rows, 0, bills) == CollectingAt(price).assignments;
    MovesTwo(Distributing, TaskDistributing, Some(2), Some(price), Some(1), Some(1), None, {Distributing},
        PendingPayment);
  }

  const DRAFTS := [[B.BillDraft(2, 1, 100)]]

  const CHANGED := BILLED.(errand := PricedAt(200))
  const WRONG := CHANGED.(errand := CollectingAt(200))

  lemma ReadsAndBills()
    ensures Does(Billing(SHARED_TWO, []), ReadDrafts(1, 0)) == Billing(DRAFTED, DRAFTS)
    ensures Does(Billing(DRAFTED, DRAFTS), BillNext(0, 0)) == Billing(BILLED, DRAFTS)
  {
    assert SHARED_TWO.errand == PricedAt(100);
    OneRow(PricedAt(100), 100);
    DraftsAt(100);
    Drafts();
  }

  lemma Corrects()
    ensures Does(Billing(BILLED, DRAFTS), Within(SetPrice(1, 0, 200))) == Billing(CHANGED, DRAFTS)
  {
  }

  lemma CollectsAnyway()
    ensures Does(Billing(CHANGED, DRAFTS), Transition(0)) == Billing(WRONG, DRAFTS)
  {
    CollectsAt(200);
    assert Pairs([2], [0]) == [(2, 0)];
  }

  lemma RunToChanged() returns (moves: seq<Move>)
    ensures DoesAll(NO_BILLING, moves) == Billing(CHANGED, DRAFTS)
  {
    moves := RunToShared(2, 1);
    WithinDoes(NO_BILLING, moves);
    ReadsAndBills();
    Corrects();
    moves := Longer(moves, Billing(SHARED_TWO, []), ReadDrafts(1, 0), Billing(DRAFTED, DRAFTS));
    moves := Longer(moves, Billing(DRAFTED, DRAFTS), BillNext(0, 0), Billing(BILLED, DRAFTS));
    moves := Longer(moves, Billing(BILLED, DRAFTS), Within(SetPrice(1, 0, 200)), Billing(CHANGED, DRAFTS));
  }

  // The drafts are read and billed at 100 cents, the captain then corrects the price to 200, and the transition is
  // accepted: the buyer owes 200 cents and the one bill is over 100.
  lemma StalePrice() returns (moves: seq<Move>)
    ensures var w := DoesAll(NO_BILLING, moves).whole;
            && w.errand.tasks == [Task(1, 5, CollectingPayment, 0)] && |w.errand.assignments| == 2
            && w.errand.assignments[0].purchaser == 2 && w.errand.assignments[0].bill == Some(0)
            && |w.bills| == 1 && w.bills[0].payerId == 2 && w.bills[0].amountCents == 100
            && B.Total(RowsFor(w.errand, 0), 2) == 200
  {
    moves := RunToChanged();
    CollectsAnyway();
    moves := Longer(moves, Billing(CHANGED, DRAFTS), Transition(0), Billing(WRONG, DRAFTS));
    OneRow(WRONG.errand, 200);
    OneDebt(200);
  }

  // The same without the first transition, which broke off: the task is ready to collect, nobody else has done
  // anything, and the attempt at the corrected price is refused, because the buyer's bill is over the old one.
  lemma BlockedRetry() returns (moves: seq<Move>)
    ensures var b := DoesAll(NO_BILLING, moves);
            && Progress.ReadyToCollect(b.whole.errand, 1, 0)
            && !Collects(DoesAll(b, Progress.Attempt(b, 1, 0)).whole.errand, 0)
  {
    moves := RunToChanged();
    ChangedIsReady();
    Progress.CollectsIff(moves, 1, 0);
    var b := Billing(CHANGED, DRAFTS);
    DraftsAt(200);
    OneRow(PricedAt(200), 200);
    assert Progress.LiveBill(CHANGED.bills[0], 0, 2);
    assert !Progress.CanBill(CHANGED.bills, 0, 1, B.BillDraft(2, 1, 200));
  }

  lemma ChangedIsReady()
    ensures Progress.ReadyToCollect(CHANGED.errand, 1, 0)
  {
    SharedOutAt(200);
    Requests.DistributedIff(CHANGED.errand, 0);
    OneRow(PricedAt(200), 200);
    DraftsAt(200);
  }
}
