// What the two services guarantee about spot orders, over every interleaving of purchases,
// cancellations, completions, payments, reconciliations and rollbacks.
module SpotOrdersTheorems {
  import opened Common
  import opened PaymentBills
  import opened SpotOrders
  import opened SpotOrdersSafety
  import opened SpotOrdersDeals

  lemma Reachable(trace: seq<Step>)
    ensures Inv(Runs(EMPTY, trace)) && Deals(Runs(EMPTY, trace))
  {
    EmptyInv();
    RunsKeep(EMPTY, trace);
    RunsDeal(EMPTY, trace);
  }

  // ------------------------------------------------------------------ orders and bills agree

  // An order bought from another seller has exactly one bill, from the purchaser to the seller
  // over unit price times quantity; it is completed once the order is paid and closed once it is cancelled.
  lemma OrdersAndBillsAgree(trace: seq<Step>, id: nat)
    requires id in Runs(EMPTY, trace).orders
    requires Runs(EMPTY, trace).orders[id].purchaser != Runs(EMPTY, trace).orders[id].seller
    ensures var s := Runs(EMPTY, trace);
            var o := s.orders[id];
            && o.bill.Some? && o.bill.value < |s.bills|
            && s.bills[o.bill.value] == Bill(SpotOrderSource(id), o.purchaser, o.seller, o.unitPrice * o.quantity,
                                             s.bills[o.bill.value].status, s.bills[o.bill.value].updatedAt)
            && (o.status in {Paid, OrderCompleted} ==> s.bills[o.bill.value].status == Completed)
            && (o.status == Cancelled ==> s.bills[o.bill.value].status == Closed)
            && forall b :: 0 <= b < |s.bills| && s.bills[b].source == SpotOrderSource(id) ==> b == o.bill.value
  {
    var s := Runs(EMPTY, trace);
    Reachable(trace);
    assert OrderRow(s, id, s.orders[id]) && Agrees(s, s.orders[id]);
  }

  predicate Follows(before: OrderStatus, after: OrderStatus) {
    match before
    case PendingPayment => true
    case Paid => after in {Paid, OrderCompleted}
    case OrderCompleted => after == OrderCompleted
    case Cancelled => after == Cancelled
  }

  // An order keeps its columns; only its status moves, and never back.
  ghost predicate Advances(o: Order, after: Order) {
    && after == o.(status := after.status, version := after.version)
    && Follows(o.status, after.status)
    && (o.status in {OrderCompleted, Cancelled} ==> after == o)
  }

  lemma OrderAdvances(s: State, step: Step, id: nat)
    requires Inv(s) && id in s.orders
    ensures id in Next(s, step).orders && Advances(s.orders[id], Next(s, step).orders[id])
  {
    match step
    case Commit(i) => if i < |s.txs| { CommitAdvances(s, i, id); }
    case MarkPaid(y) =>
    case _ => OtherStepsKeepOrders(s, step);
  }

  lemma OtherStepsKeepOrders(s: State, step: Step)
    requires !step.Commit? && !step.MarkPaid?
    ensures Next(s, step).orders == s.orders
  {
  }

  lemma CommitAdvances(s: State, i: nat, id: nat)
    requires Inv(s) && id in s.orders && i < |s.txs|
    ensures id in DoCommit(s, i).orders && Advances(s.orders[id], DoCommit(s, i).orders[id])
  {
    assert TxInv(s, s.txs[i]);
    if s.txs[i].CreateTx? {
      forall k | k in s.txs[i].made ensures k !in s.orders { assert MadeRow(s, s.txs[i], k); }
    }
  }

  // A completed or closed bill is never written again.
  lemma BillsGrowStep(s: State, step: Step)
    requires Inv(s)
    ensures BillsGrow(s.bills, Next(s, step).bills, s.clock)
  {
    match step
    case WriteBill(a) => if a < |s.acts| { WrittenBills(s, a); }
    case AskBill(i) => if i < |s.txs| && s.txs[i].CreateTx? && s.txs[i].asking.Some? { AskedBills(s, i); }
    case CloseTxBill(i) =>
    case LateCreate(order, payer, payee, amount) => LateCallsGrow(s, step);
    case LateCancel(order) => LateCallsGrow(s, step);
    case _ => OtherStepsKeepBills(s, step);
  }

  lemma LateCallsGrow(s: State, step: Step)
    requires BillsInv(s) && (step.LateCreate? || step.LateCancel?)
    ensures BillsGrow(s.bills, Next(s, step).bills, s.clock)
  {
    if Next(s, step) != s {
      match step
      case LateCreate(order, payer, payee, amount) => LateCreatedBills(s, order, payer, payee, amount);
      case LateCancel(order) => LateClosedBills(s, order);
    }
  }

  lemma OtherStepsKeepBills(s: State, step: Step)
    requires !step.WriteBill? && !step.AskBill? && !step.CloseTxBill? && !step.LateCreate? && !step.LateCancel?
    ensures Next(s, step).bills == s.bills
  {
  }

  // What has ended in both services.
  ghost predicate Settled(s: State, id: nat) {
    && id in s.orders && s.orders[id].status in {OrderCompleted, Cancelled}
    && (s.orders[id].bill.Some? ==>
          s.orders[id].bill.value < |s.bills| && s.bills[s.orders[id].bill.value].status in {Completed, Closed})
  }

  lemma {:induction false} SettledRuns(s: State, trace: seq<Step>, id: nat)
    requires Inv(s) && Settled(s, id)
    ensures id in Runs(s, trace).orders && Runs(s, trace).orders[id] == s.orders[id]
    ensures s.orders[id].bill.Some? ==>
              s.orders[id].bill.value < |Runs(s, trace).bills|
                && Runs(s, trace).bills[s.orders[id].bill.value] == s.bills[s.orders[id].bill.value]
    decreases |trace|
  {
    if trace != [] {
      OrderAdvances(s, trace[0], id);
      BillsGrowStep(s, trace[0]);
      StepKeeps(s, trace[0]);
      SettledRuns(Next(s, trace[0]), trace[1..], id);
    }
  }

  // A cancelled order stays cancelled and its bill can never complete, even if a confirmation
  // was racing the cancellation or an earlier cancellation was rolled back half way.
  lemma CancelledIsFinal(before: seq<Step>, after: seq<Step>, id: nat)
    requires id in Runs(EMPTY, before).orders && Runs(EMPTY, before).orders[id].status == Cancelled
    ensures var s, t := Runs(EMPTY, before), Runs(Runs(EMPTY, before), after);
            && id in t.orders && t.orders[id] == s.orders[id] && s.orders[id].bill.Some?
            && s.orders[id].bill.value < |t.bills| && t.bills[s.orders[id].bill.value].status == Closed
  {
    var s := Runs(EMPTY, before);
    Reachable(before);
    assert OrderRow(s, id, s.orders[id]) && Agrees(s, s.orders[id]);
    SettledRuns(s, after, id);
  }

  // A completed order stays completed, and so does the bill it was paid with.
  lemma CompletedIsFinal(before: seq<Step>, after: seq<Step>, id: nat)
    requires id in Runs(EMPTY, before).orders && Runs(EMPTY, before).orders[id].status == OrderCompleted
    ensures var s, t := Runs(EMPTY, before), Runs(Runs(EMPTY, before), after);
            && id in t.orders && t.orders[id] == s.orders[id]
            && (s.orders[id].purchaser != s.orders[id].seller ==>
                  s.orders[id].bill.Some? && s.orders[id].bill.value < |t.bills|
                    && t.bills[s.orders[id].bill.value].status == Completed)
  {
    var s := Runs(EMPTY, before);
    Reachable(before);
    assert OrderRow(s, id, s.orders[id]) && Agrees(s, s.orders[id]);
    SettledRuns(s, after, id);
  }

  // ------------------------------------------------------------------ bills of rolled back purchases

  lemma AbandonedStep(s: State, step: Step, id: nat)
    requires Abandoned(s, id)
    ensures Abandoned(Next(s, step), id)
  {
    match step
    case TakeItem(i) => AbandonedTake(s, i, id);
    case Commit(i) => AbandonedCommit(s, i, id);
    case BeginCreate(purchaser, items) =>
    case BeginCancel(user, order, version) =>
    case BeginComplete(user, order, version) =>
    case AskBill(i) => AbandonedAsk(s, i, id);
    case ReadTxBill(i) => AbandonedCancel(s, step, id);
    case CloseTxBill(i) => AbandonedCancel(s, step, id);
    case Rollback(i) =>
    case _ => OtherStepsKeepIds(s, step);
  }

  lemma OtherStepsKeepIds(s: State, step: Step)
    requires !step.TakeItem? && !step.Commit? && !step.BeginCreate? && !step.BeginCancel? && !step.BeginComplete?
    requires !step.AskBill? && !step.ReadTxBill? && !step.CloseTxBill? && !step.Rollback?
    ensures var t := Next(s, step); t.nextOrder == s.nextOrder && t.txs == s.txs && t.orders.Keys == s.orders.Keys
  {
  }

  lemma AbandonedCancel(s: State, step: Step, id: nat)
    requires Abandoned(s, id) && (step.ReadTxBill? || step.CloseTxBill?)
    ensures Abandoned(Next(s, step), id)
  {
  }

  lemma AbandonedTake(s: State, i: nat, id: nat)
    requires Abandoned(s, id)
    ensures Abandoned(DoTakeItem(s, i), id)
  {
  }

  lemma AbandonedAsk(s: State, i: nat, id: nat)
    requires Abandoned(s, id)
    ensures Abandoned(DoAskBill(s, i), id)
  {
  }

  lemma AbandonedCommit(s: State, i: nat, id: nat)
    requires Abandoned(s, id)
    ensures Abandoned(DoCommit(s, i), id)
  {
  }

  // The id of a rolled back purchase is never used again: a bill it left behind never becomes
  // the bill of an order.
  lemma {:induction false} AbandonedForever(s: State, trace: seq<Step>, id: nat)
    requires Abandoned(s, id)
    ensures Abandoned(Runs(s, trace), id)
    decreases |trace|
  {
    if trace != [] {
      AbandonedStep(s, trace[0], id);
      AbandonedForever(Next(s, trace[0]), trace[1..], id);
    }
  }

  lemma RollbackAbandons(s: State, i: nat, id: nat)
    requires Inv(s) && i < |s.txs| && s.txs[i].CreateTx? && id in s.txs[i].made
    ensures Abandoned(Next(s, Rollback(i)), id)
  {
    assert MadeRow(s, s.txs[i], id);
    forall k | 0 <= k < |s.txs| && k != i && s.txs[k].CreateTx? ensures id !in s.txs[k].made {
      assert id in s.txs[i].made.Keys;
      if k < i { assert Apart(s, s.txs[k], s.txs[i]); } else { assert Apart(s, s.txs[i], s.txs[k]); }
    }
  }

  // ------------------------------------------------------------------ stock

  // Stock is what its ledger says, for every listing of every run; each order took its stock
  // once, and gave it back at most once, only if it was cancelled.
  lemma StockIsItsLedger(trace: seq<Step>)
    ensures var s := Runs(EMPTY, trace);
            && (forall l :: 0 <= l < |s.goods| ==>
                  s.goods[l].stock >= -1 && Max(s.goods[l].stock, 0) == SumDeltas(s.ledger, l))
            && (forall id :: CountFor(s.ledger, OrderLock, id) == if id in s.orders then 1 else 0)
            && (forall id :: CountFor(s.ledger, OrderCancel, id) <= 1)
            && (forall id :: CountFor(s.ledger, OrderCancel, id) == 1 ==>
                  id in s.orders && s.orders[id].status == Cancelled)
            && (forall k :: 0 <= k < |s.ledger| ==> EntryFits(s.ledger[k], s.orders))
  {
    Reachable(trace);
  }

  // ------------------------------------------------------------------ every pending order can end

  ghost predicate Unlocked(s: State, id: nat)
    requires id in s.orders
  {
    OrderFree(s, id) && GoodsFree(s, s.orders[id].listing)
  }

  function CancelTrace(s: State, id: nat): seq<Step>
    requires id in s.orders
  {
    var tx := |s.txs|;
    [BeginCancel(s.orders[id].purchaser, id, s.orders[id].version), ReadTxBill(tx), CloseTxBill(tx), Commit(tx)]
  }

  lemma Four(s: State, a: Step, b: Step, c: Step, d: Step)
    ensures Runs(s, [a, b, c, d]) == Next(Next(Next(Next(s, a), b), c), d)
  {
    var s1 := Next(s, a);
    var s2 := Next(s1, b);
    var s3 := Next(s2, c);
    assert [a, b, c, d][1..] == [b, c, d] && [b, c, d][1..] == [c, d] && [c, d][1..] == [d] && [d][1..] == [];
    assert Runs(s3, [d]) == Next(s3, d);
    assert Runs(s2, [c, d]) == Runs(s3, [d]);
    assert Runs(s1, [b, c, d]) == Runs(s2, [c, d]);
  }

  // A pending order whose bill is not completed can be cancelled, also when a rolled back
  // cancellation has already closed the bill; one whose bill is completed cannot.
  lemma CancelSucceedsIff(s: State, id: nat)
    requires Inv(s) && id in s.orders && s.orders[id].status == PendingPayment && Unlocked(s, id)
    ensures id in Runs(s, CancelTrace(s, id)).orders
    ensures Runs(s, CancelTrace(s, id)).orders[id].status == Cancelled <==> !BillStatusIs(s, s.orders[id], Completed)
  {
    CancelTraceRuns(s, id);
    CancelBegins(s, id);
    CancelFinishes(DoBeginCancel(s, s.orders[id].purchaser, id, s.orders[id].version), id, |s.txs|);
  }

  lemma CancelTraceRuns(s: State, id: nat)
    requires id in s.orders
    ensures var tx, begun := |s.txs|, DoBeginCancel(s, s.orders[id].purchaser, id, s.orders[id].version);
            Runs(s, CancelTrace(s, id)) == DoCommit(DoCloseTxBill(DoReadTxBill(begun, tx), tx), tx)
  {
    var o, tx := s.orders[id], |s.txs|;
    Four(s, BeginCancel(o.purchaser, id, o.version), ReadTxBill(tx), CloseTxBill(tx), Commit(tx));
    TxSteps(DoBeginCancel(s, o.purchaser, id, o.version), tx);
    TxSteps(DoReadTxBill(DoBeginCancel(s, o.purchaser, id, o.version), tx), tx);
    TxSteps(DoCloseTxBill(DoReadTxBill(DoBeginCancel(s, o.purchaser, id, o.version), tx), tx), tx);
  }

  lemma TxSteps(s: State, tx: nat)
    ensures Next(s, ReadTxBill(tx)) == DoReadTxBill(s, tx) && Next(s, CloseTxBill(tx)) == DoCloseTxBill(s, tx)
    ensures Next(s, Commit(tx)) == DoCommit(s, tx)
  {
  }

  lemma CancelFinishes(s: State, id: nat, tx: nat)
    requires Cancelling(s, id, tx, ToRead)
    requires forall c, d :: 0 <= c < d < |s.bills| ==> s.bills[c].source != s.bills[d].source
    ensures id in DoCommit(DoCloseTxBill(DoReadTxBill(s, tx), tx), tx).orders
    ensures DoCommit(DoCloseTxBill(DoReadTxBill(s, tx), tx), tx).orders[id].status == Cancelled <==>
              !BillStatusIs(s, s.orders[id], Completed)
  {
  }

  lemma CancelBegins(s: State, id: nat)
    requires Inv(s) && id in s.orders && s.orders[id].status == PendingPayment && Unlocked(s, id)
    ensures var t := DoBeginCancel(s, s.orders[id].purchaser, id, s.orders[id].version);
            t.orders == s.orders && t.bills == s.bills && t.goods == s.goods && Cancelling(t, id, |s.txs|, ToRead)
  {
  }

  ghost predicate Cancelling(s: State, id: nat, tx: nat, stage: Stage) {
    && tx < |s.txs| && s.txs[tx] == CancelTx(id, stage) && id in s.orders && s.orders[id].status == PendingPayment
    && OrderRow(s, id, s.orders[id]) && s.orders[id].bill.Some?
  }
}
