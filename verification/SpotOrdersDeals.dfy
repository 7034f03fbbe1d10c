// What spot orders say about money and stock: every order's total is its unit price times its quantity, and every
// ledger entry of an order moves the order's quantity, of the order's listing.
module SpotOrdersDeals {
  import opened Common
  import opened PaymentBills
  import opened SpotOrders
  import opened SpotOrdersSafety

  ghost predicate Priced(o: Order) {
    o.total == o.unitPrice * o.quantity
  }

  // An order takes its quantity from its listing, and gives back as much.
  ghost predicate EntryFits(e: Entry, orders: map<nat, Order>) {
    e.reason in {OrderLock, OrderCancel} ==>
      && e.order.Some? && e.order.value in orders && e.listing == orders[e.order.value].listing
      && e.delta == if e.reason == OrderLock then -orders[e.order.value].quantity else orders[e.order.value].quantity
  }

  ghost predicate AllPriced(orders: map<nat, Order>) {
    forall id :: id in orders ==> Priced(orders[id])
  }

  ghost predicate AllFit(entries: seq<Entry>, orders: map<nat, Order>) {
    forall k :: 0 <= k < |entries| ==> EntryFits(entries[k], orders)
  }

  ghost predicate TxDeals(t: Tx) {
    t.CreateTx? ==> AllPriced(t.made) && AllFit(t.entries, t.made)
  }

  ghost predicate Deals(s: State) {
    && AllPriced(s.orders) && AllFit(s.ledger, s.orders)
    && forall i :: 0 <= i < |s.txs| ==> TxDeals(s.txs[i])
  }

  // ------------------------------------------------------------------ what keeps a deal

  // The same orders, with the columns a deal is made of.
  ghost predicate SameDeals(before: map<nat, Order>, after: map<nat, Order>) {
    forall id :: id in before ==>
      && id in after && after[id].listing == before[id].listing && after[id].quantity == before[id].quantity
      && after[id].unitPrice == before[id].unitPrice && after[id].total == before[id].total
  }

  lemma FitsStay(entries: seq<Entry>, before: map<nat, Order>, after: map<nat, Order>)
    requires AllFit(entries, before) && SameDeals(before, after)
    ensures AllFit(entries, after)
  {
  }

  lemma FitsAdd(a: seq<Entry>, b: seq<Entry>, orders: map<nat, Order>)
    requires AllFit(a, orders) && AllFit(b, orders)
    ensures AllFit(a + b, orders)
  {
  }

  lemma SellerDeals(s: State, step: Step)
    requires Deals(s) && (step.PublishGoods? || step.AdjustStock? || step.SetPrice? || step.CloseGoods?)
    ensures Deals(Next(s, step))
  {
  }

  lemma TakenDeals(s: State, i: nat)
    requires Inv(s) && Deals(s)
    ensures Deals(DoTakeItem(s, i))
  {
    var t := DoTakeItem(s, i);
    if t != s && t.txs[i] != Over {
      var u, v := s.txs[i], t.txs[i];
      assert TxInv(s, u) && TxDeals(u);
      forall id | id in u.made ensures id < s.nextOrder { assert MadeRow(s, u, id); }
      TakenTx(s, i);
      FitsStay(u.entries, u.made, v.made);
      FitsAdd(u.entries, [v.entries[|u.entries|]], v.made);
      assert v.entries == u.entries + [v.entries[|u.entries|]];
      forall k | 0 <= k < |t.txs| ensures TxDeals(t.txs[k]) { if k != i { assert t.txs[k] == s.txs[k]; } }
    }
  }

  // The row and entry an accepted item adds.
  lemma TakenTx(s: State, i: nat)
    requires i < |s.txs| && DoTakeItem(s, i) != s && DoTakeItem(s, i).txs[i] != Over
    requires s.txs[i].CreateTx? && forall id :: id in s.txs[i].made ==> id < s.nextOrder
    ensures var u, v, id := s.txs[i], DoTakeItem(s, i).txs[i], s.nextOrder;
            && v.CreateTx? && id in v.made && v.made == u.made[id := v.made[id]] && SameDeals(u.made, v.made)
            && Priced(v.made[id]) && |v.entries| == |u.entries| + 1 && v.entries[..|u.entries|] == u.entries
            && EntryFits(v.entries[|u.entries|], v.made)
    ensures |DoTakeItem(s, i).txs| == |s.txs|
    ensures forall k :: 0 <= k < |s.txs| && k != i ==> DoTakeItem(s, i).txs[k] == s.txs[k]
    ensures DoTakeItem(s, i).orders == s.orders && DoTakeItem(s, i).ledger == s.ledger
  {
  }

  lemma AskedDeals(s: State, i: nat)
    requires Deals(s)
    ensures Deals(DoAskBill(s, i))
  {
    var t := DoAskBill(s, i);
    if t != s {
      AskedFrame(s, i);
      assert TxDeals(s.txs[i]);
      if t.txs[i] != Over {
        AskedMade(s, i);
        FitsStay(s.txs[i].entries, s.txs[i].made, t.txs[i].made);
      }
      forall k | 0 <= k < |t.txs| ensures TxDeals(t.txs[k]) { if k != i { assert t.txs[k] == s.txs[k]; } }
    }
  }

  lemma AskedMade(s: State, i: nat)
    requires i < |s.txs| && DoAskBill(s, i) != s && i < |DoAskBill(s, i).txs| && DoAskBill(s, i).txs[i] != Over
    requires s.txs[i].CreateTx?
    ensures var u, v := s.txs[i], DoAskBill(s, i).txs[i];
            v.CreateTx? && v.made.Keys == u.made.Keys && SameDeals(u.made, v.made) && v.entries == u.entries
  {
  }

  lemma CreatedDeals(s: State, i: nat)
    requires Inv(s) && Deals(s) && i < |s.txs| && s.txs[i].CreateTx?
    ensures Deals(CommitCreate(s, i))
  {
    var t, u := CommitCreate(s, i), s.txs[i];
    if t != s {
      assert TxInv(s, u) && TxDeals(u);
      forall id | id in u.made ensures id !in s.orders { assert MadeRow(s, u, id); }
      FitsStay(s.ledger, s.orders, t.orders);
      FitsStay(u.entries, u.made, t.orders);
      FitsAdd(s.ledger, u.entries, t.orders);
    }
  }

  lemma CancelledDeals(s: State, i: nat)
    requires Deals(s) && i < |s.txs| && s.txs[i].CancelTx?
    ensures Deals(CommitCancel(s, i))
  {
    var t := CommitCancel(s, i);
    if t != s {
      var order := s.txs[i].order;
      FitsStay(s.ledger, s.orders, t.orders);
      FitsAdd(s.ledger, [Entry(s.orders[order].listing, s.orders[order].quantity, OrderCancel, Some(order))], t.orders);
    }
  }

  lemma CompletedDeals(s: State, i: nat)
    requires Deals(s) && i < |s.txs| && s.txs[i].CompleteTx?
    ensures Deals(CommitComplete(s, i))
  {
    FitsStay(s.ledger, s.orders, CommitComplete(s, i).orders);
  }

  lemma CommittedDeals(s: State, i: nat)
    requires Inv(s) && Deals(s)
    ensures Deals(DoCommit(s, i))
  {
    if i < |s.txs| {
      match s.txs[i]
      case CreateTx(_, _, _, _, _, _) => CreatedDeals(s, i);
      case CancelTx(_, _) => CancelledDeals(s, i);
      case CompleteTx(_, _) => CompletedDeals(s, i);
      case Over =>
    }
  }

  lemma PaidDeals(s: State, y: nat)
    requires Deals(s)
    ensures Deals(DoMarkPaid(s, y))
  {
    FitsStay(s.ledger, s.orders, DoMarkPaid(s, y).orders);
  }

  // Every other step writes neither orders nor entries nor what a purchase has taken.
  lemma OtherDeals(s: State, step: Step)
    requires Deals(s) && !step.PublishGoods? && !step.AdjustStock? && !step.SetPrice? && !step.CloseGoods?
    requires !step.TakeItem? && !step.AskBill? && !step.Commit? && !step.MarkPaid?
    ensures Deals(Next(s, step))
  {
    var t := Next(s, step);
    assert t.orders == s.orders && t.ledger == s.ledger;
  }

  lemma StepDeals(s: State, step: Step)
    requires Inv(s) && Deals(s)
    ensures Deals(Next(s, step))
  {
    match step
    case PublishGoods(_, _, _) => SellerDeals(s, step);
    case AdjustStock(_, _, _, _) => SellerDeals(s, step);
    case SetPrice(_, _, _, _) => SellerDeals(s, step);
    case CloseGoods(_, _, _) => SellerDeals(s, step);
    case TakeItem(i) => TakenDeals(s, i);
    case AskBill(i) => AskedDeals(s, i);
    case Commit(i) => CommittedDeals(s, i);
    case MarkPaid(y) => PaidDeals(s, y);
    case _ => OtherDeals(s, step);
  }

  lemma {:induction false} RunsDeal(s: State, trace: seq<Step>)
    requires Inv(s) && Deals(s)
    ensures Deals(Runs(s, trace))
    decreases |trace|
  {
    if trace != [] {
      StepDeals(s, trace[0]);
      StepKeeps(s, trace[0]);
      RunsDeal(Next(s, trace[0]), trace[1..]);
    }
  }
}
