// Requests of sellers and purchasers, accepted and refused: what each of them does by itself, and that one made on
// an older sight of its row does nothing.
module SpotOrdersRequests {
  import opened Common
  import opened PaymentBills
  import opened SpotOrders
  import opened SpotOrdersSafety
  import opened SpotOrdersDeals
  import opened SpotOrdersTheorems

  // ------------------------------------------------------------------ accepted and refused

  // A listing is published exactly by a seller with a price and 1 to 999 units, open and with its first entry.
  lemma PublishingIff(s: State, seller: int, price: int, stock: int)
    ensures var t := Next(s, PublishGoods(seller, price, stock));
            if !(seller > 0 && price > 0 && 1 <= stock <= 999) then t == s
            else
              && |t.goods| == |s.goods| + 1 && t.goods[..|s.goods|] == s.goods
              && t.goods[|s.goods|] == Goods(seller, price, stock, false, t.goods[|s.goods|].version)
              && t.ledger == s.ledger + [Entry(|s.goods|, stock, PublishEntry, None)]
              && t.orders == s.orders && t.bills == s.bills && t.txs == s.txs
  {
  }

  // The stock a purchase still finds: its own earlier lines are already taken off.
  function Left(s: State, tx: nat, listing: nat): int
    requires tx < |s.txs| && s.txs[tx].CreateTx? && listing < |s.goods|
  {
    if listing in s.txs[tx].stocks then s.txs[tx].stocks[listing] else s.goods[listing].stock
  }

  // An item is taken exactly from an open listing that has the stock and has not changed since the purchaser saw
  // it, if the amount is an int32; any other ends the purchase as a whole. Nothing is written before the commit.
  lemma TakeItemIff(s: State, tx: nat)
    requires tx < |s.txs| && s.txs[tx].CreateTx? && s.txs[tx].asking.None? && s.txs[tx].todo != []
    requires GoodsFreeFor(s, tx, s.txs[tx].todo[0].listing)
    ensures var item, t := s.txs[tx].todo[0], Next(s, TakeItem(tx));
            var l := item.listing;
            var taken := && l < |s.goods| && !s.goods[l].closed && item.sameSecond
                         && 0 < item.quantity <= Left(s, tx, l) && s.goods[l].price * item.quantity <= INT32_MAX;
            && t.goods == s.goods && t.orders == s.orders && t.ledger == s.ledger && t.bills == s.bills
            && |t.txs| == |s.txs| && (forall i :: 0 <= i < |s.txs| && i != tx ==> t.txs[i] == s.txs[i])
            && if !taken then t.txs[tx] == Over && t.nextOrder == s.nextOrder
               else
                 && t.nextOrder == s.nextOrder + 1 && t.txs[tx].CreateTx? && t.txs[tx].todo == s.txs[tx].todo[1..]
                 && s.nextOrder in t.txs[tx].made && Left(t, tx, l) == Left(s, tx, l) - item.quantity
  {
  }

  // An order is cancelled or completed only at the request of its purchaser, who has seen it as it is, and only
  // while nobody else works on it; a request by itself writes nothing.
  lemma BeginningIff(s: State, step: Step)
    requires step.BeginCancel? || step.BeginComplete?
    ensures var id, t := step.order, Next(s, step);
            var begins := && id in s.orders && s.orders[id].purchaser == step.user
                          && s.orders[id].version == step.version && OrderFree(s, id)
                          && GoodsFree(s, s.orders[id].listing)
                          && s.orders[id].status in (if step.BeginCancel? then {PendingPayment}
                                                     else {PendingPayment, Paid});
            if !begins then t == s
            else
              && t == s.(txs := t.txs) && |t.txs| == |s.txs| + 1 && t.txs[..|s.txs|] == s.txs
              && t.txs[|s.txs|].order == id
              && (if step.BeginCancel? then t.txs[|s.txs|].CancelTx? else t.txs[|s.txs|].CompleteTx?)
  {
  }

  // A purchase is opened exactly by a user with something to buy, with nothing taken yet.
  lemma PurchaseOpensIff(s: State, purchaser: int, items: seq<Item>)
    ensures var t := Next(s, BeginCreate(purchaser, items));
            if purchaser > 0 && items != []
            then t == s.(txs := s.txs + [CreateTx(purchaser, items, map[], map[], [], None)]) else t == s
  {
  }

  // All of a purchase is written: its orders, its stocks and its entries.
  ghost predicate AllAtOnce(s: State, t: State, tx: nat)
    requires tx < |s.txs| && s.txs[tx].CreateTx?
  {
    var p := s.txs[tx];
    && t.txs == s.txs[tx := Over] && t.bills == s.bills && t.nextOrder == s.nextOrder
    && t.orders == s.orders + p.made && t.ledger == s.ledger + p.entries && |t.goods| == |s.goods|
    && forall l :: 0 <= l < |s.goods| ==>
         t.goods[l] == s.goods[l].(stock := if l in p.stocks then p.stocks[l] else s.goods[l].stock,
                                   version := t.goods[l].version)
  }

  // All or nothing: a purchase is written exactly once every item of it was taken and every bill it needs was made.
  lemma PurchaseCommitsIff(s: State, tx: nat)
    requires tx < |s.txs| && s.txs[tx].CreateTx?
    ensures var t := Next(s, Commit(tx));
            if s.txs[tx].todo == [] && s.txs[tx].asking.None? then AllAtOnce(s, t, tx) else t == s
  {
    CreatesAllOrNothing(s, tx);
  }

  lemma CreatesAllOrNothing(s: State, tx: nat)
    requires tx < |s.txs| && s.txs[tx].CreateTx?
    ensures var t := CommitCreate(s, tx);
            if s.txs[tx].todo == [] && s.txs[tx].asking.None? then AllAtOnce(s, t, tx) else t == s
  {
  }

  lemma RollbackWritesNothing(s: State, tx: nat)
    requires tx < |s.txs|
    ensures Next(s, Rollback(tx)) == s.(txs := s.txs[tx := Over])
  {
  }

  // ------------------------------------------------------------------ rows and their versions

  ghost predicate Stamped(s: State) {
    && (forall l :: 0 <= l < |s.goods| ==> s.goods[l].version < s.clock)
    && (forall id :: id in s.orders ==> s.orders[id].version < s.clock)
    && (forall i :: 0 <= i < |s.txs| && s.txs[i].CreateTx? ==> MadeStamped(s.txs[i], s.clock))
  }

  ghost predicate MadeStamped(t: Tx, clock: nat)
    requires t.CreateTx?
  {
    forall id :: id in t.made ==> t.made[id].version < clock
  }

  // A row that was written has a version nobody has seen before.
  ghost predicate Rewritten(s: State, t: State, clock: nat) {
    && |s.goods| <= |t.goods| && s.orders.Keys <= t.orders.Keys && clock <= t.clock
    && (forall l :: 0 <= l < |s.goods| ==> t.goods[l] == s.goods[l] || t.goods[l].version >= clock)
    && (forall id :: id in s.orders ==> t.orders[id] == s.orders[id] || t.orders[id].version >= clock)
  }

  lemma StepStamps(s: State, step: Step)
    requires Inv(s) && Stamped(s)
    ensures Stamped(Next(s, step)) && Rewritten(s, Next(s, step), s.clock)
  {
    match step
    case TakeItem(tx) => TakingStamps(s, tx);
    case AskBill(tx) => AskingStamps(s, tx);
    case Commit(tx) =>
      if tx < |s.txs| && s.txs[tx].CreateTx? { MadeOrdersAreNew(s, tx); }
      CommitStamps(s, tx);
    case MarkPaid(y) => PaidStamps(s, y);
    case _ => if WritesGoods(step) { SellerStamps(s, step); } else { OtherStepsStamp(s, step); }
  }

  lemma TakingStamps(s: State, tx: nat)
    requires Stamped(s)
    ensures Stamped(DoTakeItem(s, tx)) && Rewritten(s, DoTakeItem(s, tx), s.clock)
  {
  }

  lemma AskingStamps(s: State, tx: nat)
    requires Stamped(s)
    ensures Stamped(DoAskBill(s, tx)) && Rewritten(s, DoAskBill(s, tx), s.clock)
  {
  }

  lemma CommitStamps(s: State, tx: nat)
    requires Stamped(s) && (tx < |s.txs| && s.txs[tx].CreateTx? ==> MadeIsNew(s, s.txs[tx]))
    ensures Stamped(DoCommit(s, tx)) && Rewritten(s, DoCommit(s, tx), s.clock)
  {
    if tx < |s.txs| && s.txs[tx].CreateTx? { CreatedStamps(s, tx); }
  }

  ghost predicate MadeIsNew(s: State, t: Tx)
    requires t.CreateTx?
  {
    forall id :: id in t.made ==> id !in s.orders
  }

  lemma MadeOrdersAreNew(s: State, tx: nat)
    requires Inv(s) && tx < |s.txs| && s.txs[tx].CreateTx?
    ensures MadeIsNew(s, s.txs[tx])
  {
    assert TxInv(s, s.txs[tx]);
  }

  lemma CreatedStamps(s: State, tx: nat)
    requires Stamped(s) && tx < |s.txs| && s.txs[tx].CreateTx? && MadeIsNew(s, s.txs[tx])
    ensures Stamped(CommitCreate(s, tx)) && Rewritten(s, CommitCreate(s, tx), s.clock)
  {
    assert MadeStamped(s.txs[tx], s.clock);
  }

  lemma PaidStamps(s: State, y: nat)
    requires Stamped(s)
    ensures Stamped(DoMarkPaid(s, y)) && Rewritten(s, DoMarkPaid(s, y), s.clock)
  {
  }

  predicate WritesGoods(step: Step) {
    step.PublishGoods? || step.AdjustStock? || step.SetPrice? || step.CloseGoods?
  }

  lemma SellerStamps(s: State, step: Step)
    requires Stamped(s) && WritesGoods(step)
    ensures Stamped(Next(s, step)) && Rewritten(s, Next(s, step), s.clock)
  {
  }

  // The others write no row of a listing or an order.
  lemma OtherStepsStamp(s: State, step: Step)
    requires Stamped(s) && !WritesGoods(step)
    requires !step.TakeItem? && !step.AskBill? && !step.Commit? && !step.MarkPaid?
    ensures Stamped(Next(s, step)) && Rewritten(s, Next(s, step), s.clock)
  {
    OtherStepsKeepRows(s, step);
    RowsStamped(s, Next(s, step));
  }

  lemma OtherStepsKeepRows(s: State, step: Step)
    requires !WritesGoods(step) && !step.TakeItem? && !step.AskBill? && !step.Commit? && !step.MarkPaid?
    ensures var t := Next(s, step);
            t.goods == s.goods && t.orders == s.orders && s.clock <= t.clock && NothingMade(s, t)
  {
  }

  ghost predicate NothingMade(s: State, t: State) {
    forall i :: 0 <= i < |t.txs| && t.txs[i].CreateTx? ==>
      t.txs[i].made == map[] || (i < |s.txs| && s.txs[i] == t.txs[i])
  }

  lemma RowsStamped(s: State, t: State)
    requires Stamped(s) && t.goods == s.goods && t.orders == s.orders && s.clock <= t.clock && NothingMade(s, t)
    ensures Stamped(t) && Rewritten(s, t, s.clock)
  {
    forall i | 0 <= i < |t.txs| && t.txs[i].CreateTx? ensures MadeStamped(t.txs[i], t.clock) {
      if t.txs[i].made != map[] { assert MadeStamped(s.txs[i], s.clock); }
    }
  }

  lemma {:induction false} RunsStamp(s: State, trace: seq<Step>)
    requires Inv(s) && Stamped(s)
    ensures Stamped(Runs(s, trace))
    decreases |trace|
  {
    if trace != [] {
      StepStamps(s, trace[0]);
      StepKeeps(s, trace[0]);
      RunsStamp(Next(s, trace[0]), trace[1..]);
    }
  }

  lemma {:induction false} RunsRewrite(s: State, trace: seq<Step>)
    requires Inv(s) && Stamped(s)
    ensures Rewritten(s, Runs(s, trace), s.clock)
    decreases |trace|
  {
    if trace != [] {
      var u := Next(s, trace[0]);
      StepStamps(s, trace[0]);
      StepKeeps(s, trace[0]);
      RunsRewrite(u, trace[1..]);
      RewritesChain(s, u, Runs(u, trace[1..]));
    }
  }

  lemma RewritesChain(s: State, u: State, t: State)
    requires Rewritten(s, u, s.clock) && Rewritten(u, t, u.clock)
    ensures Rewritten(s, t, s.clock)
  {
  }

  lemma ReachableRewrites(before: seq<Step>, after: seq<Step>)
    ensures var s := Runs(EMPTY, before); Stamped(s) && Rewritten(s, Runs(s, after), s.clock)
  {
    EmptyInv();
    Reachable(before);
    RunsStamp(EMPTY, before);
    RunsRewrite(Runs(EMPTY, before), after);
  }

  // Whatever happens between a seller's look at a listing and the request, a sale included: if it changed the
  // listing at all, the request changes nothing.
  lemma StaleSellerIsRefused(before: seq<Step>, after: seq<Step>, request: Step)
    requires request.AdjustStock? || request.SetPrice? || request.CloseGoods?
    requires request.listing < |Runs(EMPTY, before).goods|
    requires request.version == Runs(EMPTY, before).goods[request.listing].version
    ensures var s, t := Runs(EMPTY, before), Runs(Runs(EMPTY, before), after);
            && request.listing < |t.goods|
            && (t.goods[request.listing] != s.goods[request.listing] ==> Next(t, request) == t)
  {
    var s, t := Runs(EMPTY, before), Runs(Runs(EMPTY, before), after);
    ReachableRewrites(before, after);
    if t.goods[request.listing] != s.goods[request.listing] { StaleListing(s, t, request); }
  }

  lemma StaleListing(s: State, t: State, request: Step)
    requires Stamped(s) && Rewritten(s, t, s.clock)
    requires request.AdjustStock? || request.SetPrice? || request.CloseGoods?
    requires request.listing < |s.goods| && request.version == s.goods[request.listing].version
    requires t.goods[request.listing] != s.goods[request.listing]
    ensures Next(t, request) == t
  {
  }

  // The same for a purchaser and an order.
  lemma StalePurchaserIsRefused(before: seq<Step>, after: seq<Step>, request: Step)
    requires request.BeginCancel? || request.BeginComplete?
    requires request.order in Runs(EMPTY, before).orders
    requires request.version == Runs(EMPTY, before).orders[request.order].version
    ensures var s, t := Runs(EMPTY, before), Runs(Runs(EMPTY, before), after);
            && request.order in t.orders
            && (t.orders[request.order] != s.orders[request.order] ==> Next(t, request) == t)
  {
    var s, t := Runs(EMPTY, before), Runs(Runs(EMPTY, before), after);
    ReachableRewrites(before, after);
    if t.orders[request.order] != s.orders[request.order] { StaleOrder(s, t, request); }
  }

  lemma StaleOrder(s: State, t: State, request: Step)
    requires Stamped(s) && Rewritten(s, t, s.clock)
    requires request.BeginCancel? || request.BeginComplete?
    requires request.order in s.orders && request.version == s.orders[request.order].version
    requires t.orders[request.order] != s.orders[request.order]
    ensures Next(t, request) == t
  {
  }
}
