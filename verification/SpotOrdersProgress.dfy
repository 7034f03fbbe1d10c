// What spot orders can always still come to: a purchase at the listing's price, a payment that is noticed, a
// completed order, and stock that goes back.
module SpotOrdersProgress {
  import opened Common
  import opened PaymentBills
  import opened SpotOrders
  import opened SpotOrdersSafety
  import opened SpotOrdersDeals
  import opened SpotOrdersTheorems

  lemma {:induction false} Append(s: State, first: seq<Step>, second: seq<Step>)
    ensures Runs(s, first + second) == Runs(Runs(s, first), second)
    decreases |first|
  {
    if first == [] {
      assert first + second == second;
    } else {
      assert (first + second)[1..] == first[1..] + second;
      Append(Next(s, first[0]), first[1..], second);
    }
  }

  lemma One(s: State, a: Step)
    ensures Runs(s, [a]) == Next(s, a)
  {
    assert [a][1..] == [];
  }

  lemma Two(s: State, a: Step, b: Step)
    ensures Runs(s, [a, b]) == Next(Next(s, a), b)
  {
    assert [a, b][1..] == [b];
    One(Next(s, a), b);
  }

  lemma Three(s: State, a: Step, b: Step, c: Step)
    ensures Runs(s, [a, b, c]) == Next(Next(Next(s, a), b), c)
  {
    assert [a, b, c][1..] == [b, c];
    Two(Next(s, a), b, c);
  }

  // ------------------------------------------------------------------ the seller

  ghost predicate GoodsOk(s: State) {
    forall l :: 0 <= l < |s.goods| ==> s.goods[l].seller > 0 && s.goods[l].price > 0
  }

  lemma GoodsStay(s: State, step: Step)
    requires GoodsOk(s)
    ensures GoodsOk(Next(s, step))
  {
    match step
    case Commit(i) => CommittedGoods(s, i);
    case _ =>
  }

  lemma CommittedGoods(s: State, i: nat)
    requires GoodsOk(s)
    ensures GoodsOk(DoCommit(s, i))
  {
  }

  lemma {:induction false} GoodsAreOk(s: State, trace: seq<Step>)
    requires GoodsOk(s)
    ensures GoodsOk(Runs(s, trace))
    decreases |trace|
  {
    if trace != [] {
      GoodsStay(s, trace[0]);
      GoodsAreOk(Next(s, trace[0]), trace[1..]);
    }
  }

  // What a seller writes is what the listing then says, and only the seller of a listing that is open, held by
  // nobody and as last seen writes it.
  lemma SellerWrites(s: State, step: Step)
    requires step.AdjustStock? || step.SetPrice? || step.CloseGoods?
    ensures var l, t := step.listing, Next(s, step);
            var mine := l < |s.goods| && GoodsFree(s, l) && s.goods[l].seller == step.caller && !s.goods[l].closed
                        && s.goods[l].version == step.version;
            var sound := match step
              case AdjustStock(_, _, stock, _) =>
                -1 <= stock <= MAX_STOCK && !(l < |s.goods| && s.goods[l].stock == -1 && stock == 0)
              case SetPrice(_, _, price, _) => price > 0
              case _ => true;
            if !mine || !sound then t == s
            else
              && |t.goods| == |s.goods| && t.orders == s.orders && t.bills == s.bills
              && (forall k :: 0 <= k < |s.goods| && k != l ==> t.goods[k] == s.goods[k])
              && t.goods[l].seller == s.goods[l].seller
              && t.goods[l].stock == (if step.AdjustStock? then step.stock else s.goods[l].stock)
              && t.goods[l].price == (if step.SetPrice? then step.price else s.goods[l].price)
              && t.goods[l].closed == step.CloseGoods?
  {
  }

  // ------------------------------------------------------------------ buying

  function Purchase(s: State, purchaser: int, l: nat, quantity: int): seq<Step>
    requires l < |s.goods|
  {
    var tx := |s.txs|;
    if purchaser == s.goods[l].seller
    then [BeginCreate(purchaser, [Item(l, quantity, true)]), TakeItem(tx), Commit(tx)]
    else [BeginCreate(purchaser, [Item(l, quantity, true)]), TakeItem(tx), AskBill(tx)] + [Commit(tx)]
  }

  // Whatever else is going on: an item that is taken becomes an order at the price its listing has at that moment.
  lemma TakeItemPrices(s: State, tx: nat)
    requires tx < |s.txs| && s.txs[tx].CreateTx? && s.txs[tx].todo != []
    requires Next(s, TakeItem(tx)).nextOrder != s.nextOrder
    ensures var item, t := s.txs[tx].todo[0], Next(s, TakeItem(tx));
            && t.nextOrder == s.nextOrder + 1 && item.listing < |s.goods| && t.txs[tx].CreateTx?
            && s.nextOrder in t.txs[tx].made
            && var o, g := t.txs[tx].made[s.nextOrder], s.goods[item.listing];
               && o.purchaser == s.txs[tx].purchaser && o.seller == g.seller && o.listing == item.listing
               && o.quantity == item.quantity > 0 && o.unitPrice == g.price && o.total == g.price * item.quantity
               && o.total <= INT32_MAX
  {
  }

  // The order and bill of an accepted purchase, at the listing's price of that moment.
  ghost predicate Bought(s: State, t: State, purchaser: int, l: nat, quantity: int)
    requires l < |s.goods|
  {
    var g, id := s.goods[l], s.nextOrder;
    && id !in s.orders && id in t.orders && t.orders == s.orders[id := t.orders[id]]
    && t.orders[id].purchaser == purchaser && t.orders[id].seller == g.seller && t.orders[id].listing == l
    && t.orders[id].quantity == quantity && t.orders[id].unitPrice == g.price
    && t.orders[id].total == g.price * quantity
    && |t.goods| == |s.goods| && t.goods[l].stock == g.stock - quantity && t.goods[l].price == g.price
    && (forall k :: 0 <= k < |s.goods| && k != l ==> t.goods[k] == s.goods[k])
    && if purchaser == g.seller
       then t.orders[id].status == OrderCompleted && t.orders[id].bill == None && t.bills == s.bills
       else
         && t.orders[id].status == PendingPayment && t.orders[id].bill == Some(|s.bills|) && |t.bills| == |s.bills| + 1
         && t.bills[..|s.bills|] == s.bills
         && t.bills[|s.bills|]
            == Bill(SpotOrderSource(id), purchaser, g.seller, g.price * quantity, Unpaid, t.bills[|s.bills|].updatedAt)
  }

  // An undisturbed purchase of a listing nobody holds succeeds exactly when it is open, has the stock, and the
  // amount is an int32; otherwise it changes no listing, order or bill.
  lemma PurchaseIff(before: seq<Step>, purchaser: int, l: nat, quantity: int)
    requires l < |Runs(EMPTY, before).goods| && GoodsFree(Runs(EMPTY, before), l) && purchaser > 0
    ensures var s := Runs(EMPTY, before);
            var t := Runs(s, Purchase(s, purchaser, l, quantity));
            if !s.goods[l].closed && 0 < quantity <= s.goods[l].stock && s.goods[l].price * quantity <= INT32_MAX
            then Bought(s, t, purchaser, l, quantity)
            else t.goods == s.goods && t.orders == s.orders && t.bills == s.bills
  {
    var s := Runs(EMPTY, before);
    Reachable(before);
    GoodsAreOk(EMPTY, before);
    PurchaseRuns(s, purchaser, l, quantity);
    var taken := Taken(s, purchaser, l, quantity);
    TakenIff(s, purchaser, l, quantity);
    if taken.txs[|s.txs|] != Over {
      NewId(s);
      if purchaser == s.goods[l].seller {
        CommitsOwn(s, taken, purchaser, l, quantity);
      } else {
        AsksAndCommits(s, taken, purchaser, l, quantity);
      }
    }
  }

  function Taken(s: State, purchaser: int, l: nat, quantity: int): State {
    DoTakeItem(DoBeginCreate(s, purchaser, [Item(l, quantity, true)]), |s.txs|)
  }

  lemma PurchaseRuns(s: State, purchaser: int, l: nat, quantity: int)
    requires l < |s.goods|
    ensures var tx, taken := |s.txs|, Taken(s, purchaser, l, quantity);
            Runs(s, Purchase(s, purchaser, l, quantity))
            == if purchaser == s.goods[l].seller then DoCommit(taken, tx) else DoCommit(DoAskBill(taken, tx), tx)
  {
    var tx, begin := |s.txs|, BeginCreate(purchaser, [Item(l, quantity, true)]);
    Three(s, begin, TakeItem(tx), Commit(tx));
    Three(s, begin, TakeItem(tx), AskBill(tx));
    Append(s, [begin, TakeItem(tx), AskBill(tx)], [Commit(tx)]);
    var asked := Next(Next(Next(s, begin), TakeItem(tx)), AskBill(tx));
    One(asked, Commit(tx));
    BuyingSteps(s, begin, tx);
    BuyingSteps(Next(s, begin), begin, tx);
    BuyingSteps(Taken(s, purchaser, l, quantity), begin, tx);
    BuyingSteps(asked, begin, tx);
  }

  lemma BuyingSteps(s: State, begin: Step, tx: nat)
    requires begin.BeginCreate?
    ensures Next(s, begin) == DoBeginCreate(s, begin.purchaser, begin.items)
    ensures Next(s, TakeItem(tx)) == DoTakeItem(s, tx)
    ensures Next(s, AskBill(tx)) == DoAskBill(s, tx) && Next(s, Commit(tx)) == DoCommit(s, tx)
  {
  }

  // What the taken item leaves in the open transaction.
  ghost predicate Holding(s: State, t: State, purchaser: int, l: nat, quantity: int)
    requires l < |s.goods|
  {
    var g, id, tx := s.goods[l], s.nextOrder, |s.txs|;
    && t.goods == s.goods && t.orders == s.orders && t.bills == s.bills && tx < |t.txs| && t.txs[tx].CreateTx?
    && t.txs[tx].todo == [] && t.txs[tx].made.Keys == {id} && t.txs[tx].stocks == map[l := g.stock - quantity]
    && t.txs[tx].made[id].purchaser == purchaser && t.txs[tx].made[id].seller == g.seller
    && t.txs[tx].made[id].listing == l && t.txs[tx].made[id].quantity == quantity
    && t.txs[tx].made[id].unitPrice == g.price && t.txs[tx].made[id].total == g.price * quantity
    && t.txs[tx].made[id].bill == None
    && if purchaser == g.seller then t.txs[tx].made[id].status == OrderCompleted && t.txs[tx].asking == None
       else t.txs[tx].made[id].status == PendingPayment && t.txs[tx].asking == Some(id)
  }

  lemma TakenIff(s: State, purchaser: int, l: nat, quantity: int)
    requires l < |s.goods| && GoodsFree(s, l) && purchaser > 0
    ensures var t := Taken(s, purchaser, l, quantity);
            |t.txs| == |s.txs| + 1
            && if !s.goods[l].closed && 0 < quantity <= s.goods[l].stock && s.goods[l].price * quantity <= INT32_MAX
               then t.txs[|s.txs|] != Over && Holding(s, t, purchaser, l, quantity)
               else t == s.(txs := s.txs + [Over])
  {
    var begun := DoBeginCreate(s, purchaser, [Item(l, quantity, true)]);
    assert GoodsFreeFor(begun, |s.txs|, l) by {
      forall i | 0 <= i < |begun.txs| && i != |s.txs| ensures !HoldsGoods(begun, begun.txs[i], l) {
        assert begun.txs[i] == s.txs[i] && !HoldsGoods(s, s.txs[i], l);
      }
    }
    assert Buyable(begun, map[], Item(l, quantity, true)) <==>
      !s.goods[l].closed && 0 < quantity <= s.goods[l].stock && s.goods[l].price * quantity <= INT32_MAX;
  }

  lemma NewId(s: State)
    requires Inv(s)
    ensures s.nextOrder !in s.orders && NoBillFor(s, s.nextOrder)
  {
    forall id | id in s.orders ensures id < s.nextOrder { assert OrderRow(s, id, s.orders[id]); }
  }

  lemma CommitsOwn(s: State, t: State, purchaser: int, l: nat, quantity: int)
    requires l < |s.goods| && Holding(s, t, purchaser, l, quantity) && s.nextOrder !in s.orders
    requires purchaser == s.goods[l].seller
    ensures Bought(s, DoCommit(t, |s.txs|), purchaser, l, quantity)
  {
  }

  lemma AsksAndCommits(s: State, t: State, purchaser: int, l: nat, quantity: int)
    requires l < |s.goods| && Holding(s, t, purchaser, l, quantity) && s.nextOrder !in s.orders
    requires NoBillFor(s, s.nextOrder) && purchaser != s.goods[l].seller && purchaser > 0 && quantity > 0 && GoodsOk(s)
    ensures Bought(s, DoCommit(DoAskBill(t, |s.txs|), |s.txs|), purchaser, l, quantity)
  {
    var id, g := s.nextOrder, s.goods[l];
    assert FindLive(t.bills, SpotOrderSource(id), purchaser) == None;
    Positive(g.price, quantity);
    AskedOnce(t, |s.txs|, id);
    CommitsAsked(s, t, DoAskBill(t, |s.txs|), purchaser, l, quantity);
  }

  lemma Positive(price: int, quantity: int)
    requires price > 0 && quantity > 0
    ensures price * quantity > 0
  {
  }

  lemma CommitsAsked(s: State, t: State, u: State, purchaser: int, l: nat, quantity: int)
    requires l < |s.goods| && Holding(s, t, purchaser, l, quantity) && s.nextOrder !in s.orders
    requires purchaser != s.goods[l].seller
    requires AskedFor(t, u, |s.txs|, s.nextOrder)
    ensures Bought(s, DoCommit(u, |s.txs|), purchaser, l, quantity)
  {
  }

  // The bill was made and attached.
  ghost predicate AskedFor(t: State, u: State, tx: nat, id: nat)
    requires tx < |t.txs| && t.txs[tx].CreateTx? && id in t.txs[tx].made
  {
    var o := t.txs[tx].made[id];
    && u.goods == t.goods && u.orders == t.orders && |u.txs| == |t.txs|
    && u.bills == t.bills + [Bill(SpotOrderSource(id), o.purchaser, o.seller, o.total, Unpaid, t.clock)]
    && u.txs[tx] == t.txs[tx].(made := t.txs[tx].made[id := o.(bill := Some(|t.bills|), version := t.clock)],
                               asking := None)
  }

  lemma AskedOnce(t: State, tx: nat, id: nat)
    requires tx < |t.txs| && t.txs[tx].CreateTx? && t.txs[tx].asking == Some(id) && id in t.txs[tx].made
    requires var o := t.txs[tx].made[id];
             && o.purchaser > 0 && o.seller > 0 && o.purchaser != o.seller && o.total >= 0
             && FindLive(t.bills, SpotOrderSource(id), o.purchaser) == None
    ensures AskedFor(t, DoAskBill(t, tx), tx, id)
  {
  }

  // ------------------------------------------------------------------ paying

  function Acts(s: State, op: Op, b: nat): seq<Step> {
    [ReadBill(op, b), WriteBill(|s.acts|)]
  }

  // One undisturbed request of a payer or payee moves its bill and nothing else.
  lemma ActMoves(s: State, op: Op, b: nat)
    requires b < |s.bills| && s.bills[b].status == op.From()
    ensures var t := Runs(s, Acts(s, op, b));
            && t == s.(bills := t.bills, clock := t.clock, acts := t.acts)
            && t.bills == s.bills[b := s.bills[b].(status := op.To(), updatedAt := s.clock)]
  {
    Two(s, ReadBill(op, b), WriteBill(|s.acts|));
    BillSteps(s, op, b, |s.acts|);
    BillSteps(DoReadBill(s, op, b), op, b, |s.acts|);
  }

  lemma BillSteps(s: State, op: Op, b: nat, a: nat)
    ensures Next(s, ReadBill(op, b)) == DoReadBill(s, op, b) && Next(s, WriteBill(a)) == DoWriteBill(s, a)
  {
  }

  // The payer pays and the payee confirms, from wherever the bill is.
  lemma BillCanComplete(s: State, b: nat) returns (trace: seq<Step>)
    requires b < |s.bills| && s.bills[b].status != Closed
    ensures var t := Runs(s, trace);
            && t == s.(bills := t.bills, clock := t.clock, acts := t.acts) && |t.bills| == |s.bills|
            && t.bills[b] == s.bills[b].(status := Completed, updatedAt := t.bills[b].updatedAt)
            && forall c :: 0 <= c < |s.bills| && c != b ==> t.bills[c] == s.bills[c]
  {
    trace := [];
    if s.bills[b].status == Unpaid {
      trace := Acts(s, Pay, b);
      ActMoves(s, Pay, b);
    }
    var u := Runs(s, trace);
    if u.bills[b].status == Submitted {
      ActMoves(u, Confirm, b);
      Append(s, trace, Acts(u, Confirm, b));
      trace := trace + Acts(u, Confirm, b);
    }
  }

  // Once the bill is completed, one undisturbed reconciliation marks the order paid, and nothing else.
  lemma PaymentIsNoticed(before: seq<Step>, id: nat)
    requires var s := Runs(EMPTY, before);
             && id in s.orders && s.orders[id].status == PendingPayment && BillStatusIs(s, s.orders[id], Completed)
             && OrderFree(s, id)
    ensures var s, y := Runs(EMPTY, before), |Runs(EMPTY, before).syncs|;
            var t := Runs(s, [ReadOrder(id), FetchBill(y), MarkPaid(y)]);
            && t.orders == s.orders[id := s.orders[id].(status := Paid, version := s.clock)]
            && t.bills == s.bills && t.goods == s.goods && t.ledger == s.ledger
  {
    var s, y := Runs(EMPTY, before), |Runs(EMPTY, before).syncs|;
    Reachable(before);
    assert OrderRow(s, id, s.orders[id]);
    Three(s, ReadOrder(id), FetchBill(y), MarkPaid(y));
    SyncSteps(s, id, y);
    SyncSteps(DoReadOrder(s, id), id, y);
    SyncSteps(DoFetchBill(DoReadOrder(s, id), y), id, y);
    Noticed(s, id);
  }

  lemma SyncSteps(s: State, id: nat, y: nat)
    ensures Next(s, ReadOrder(id)) == DoReadOrder(s, id) && Next(s, FetchBill(y)) == DoFetchBill(s, y)
    ensures Next(s, MarkPaid(y)) == DoMarkPaid(s, y)
  {
  }

  lemma Noticed(s: State, id: nat)
    requires id in s.orders && s.orders[id].status == PendingPayment && BillStatusIs(s, s.orders[id], Completed)
    requires OrderFree(s, id) && BillFits(s, id, s.orders[id])
    ensures var y := |s.syncs|;
            var t := DoMarkPaid(DoFetchBill(DoReadOrder(s, id), y), y);
            && t.orders == s.orders[id := s.orders[id].(status := Paid, version := s.clock)]
            && t.bills == s.bills && t.goods == s.goods && t.ledger == s.ledger
  {
    var u := DoFetchBill(DoReadOrder(s, id), |s.syncs|);
    var b := s.orders[id].bill.value;
    assert u.syncs[|s.syncs|] == Sync(id, b, s.orders[id].total, Some(s.bills[b]));
    assert OrderFree(u, id);
  }

  // ------------------------------------------------------------------ completing

  ghost predicate CanComplete(s: State, id: nat) {
    exists trace :: id in Runs(s, trace).orders && Runs(s, trace).orders[id].status == OrderCompleted
  }

  // A reachable order that is pending or paid and held by nobody can be paid and completed exactly when its bill is
  // not closed.
  lemma CanCompleteIff(before: seq<Step>, id: nat)
    requires var s := Runs(EMPTY, before);
             id in s.orders && s.orders[id].status in {PendingPayment, Paid} && Unlocked(s, id)
    ensures var s := Runs(EMPTY, before); CanComplete(s, id) <==> !BillStatusIs(s, s.orders[id], Closed)
  {
    var s := Runs(EMPTY, before);
    Reachable(before);
    assert OrderRow(s, id, s.orders[id]) && Agrees(s, s.orders[id]);
    if BillStatusIs(s, s.orders[id], Closed) {
      forall trace ensures !(id in Runs(s, trace).orders && Runs(s, trace).orders[id].status == OrderCompleted) {
        NeverCompletes(s, trace, id);
      }
    } else {
      var trace := CompletingRun(s, id);
    }
  }

  lemma {:induction false} ClosedStays(s: State, trace: seq<Step>, id: nat)
    requires Inv(s) && id in s.orders && BillStatusIs(s, s.orders[id], Closed)
    ensures id in Runs(s, trace).orders && BillStatusIs(Runs(s, trace), Runs(s, trace).orders[id], Closed)
    ensures Runs(s, trace).orders[id].purchaser == s.orders[id].purchaser
    ensures Runs(s, trace).orders[id].seller == s.orders[id].seller
    decreases |trace|
  {
    if trace != [] {
      OrderAdvances(s, trace[0], id);
      BillsGrowStep(s, trace[0]);
      StepKeeps(s, trace[0]);
      ClosedStays(Next(s, trace[0]), trace[1..], id);
    }
  }

  lemma NeverCompletes(s: State, trace: seq<Step>, id: nat)
    requires Inv(s) && id in s.orders && BillStatusIs(s, s.orders[id], Closed)
    ensures id in Runs(s, trace).orders ==> Runs(s, trace).orders[id].status != OrderCompleted
  {
    var t := Runs(s, trace);
    ClosedStays(s, trace, id);
    RunsKeep(s, trace);
    assert Agrees(t, t.orders[id]);
  }

  lemma CompletingRun(s: State, id: nat) returns (trace: seq<Step>)
    requires id in s.orders && s.orders[id].status in {PendingPayment, Paid} && Unlocked(s, id)
    requires OrderRow(s, id, s.orders[id])
    requires s.orders[id].bill.Some? && !BillStatusIs(s, s.orders[id], Closed)
    ensures id in Runs(s, trace).orders && Runs(s, trace).orders[id].status == OrderCompleted
  {
    trace := BillCanComplete(s, s.orders[id].bill.value);
    var u, tx := Runs(s, trace), |s.txs|;
    var o := s.orders[id];
    var last := [BeginComplete(o.purchaser, id, o.version), ReadTxBill(tx), Commit(tx)];
    Append(s, trace, last);
    trace := trace + last;
    Three(u, BeginComplete(o.purchaser, id, o.version), ReadTxBill(tx), Commit(tx));
    CompletingSteps(u, id);
    TxSteps(DoBeginComplete(u, o.purchaser, id, o.version), tx);
    TxSteps(DoReadTxBill(DoBeginComplete(u, o.purchaser, id, o.version), tx), tx);
    StillUnlocked(s, u, id);
    Completes(u, id);
  }

  lemma StillUnlocked(s: State, u: State, id: nat)
    requires id in s.orders && Unlocked(s, id) && u.orders == s.orders && u.txs == s.txs
    ensures Unlocked(u, id)
  {
    forall i | 0 <= i < |u.txs| ensures !HoldsGoods(u, u.txs[i], s.orders[id].listing) {
      assert !HoldsGoods(s, s.txs[i], s.orders[id].listing);
    }
  }

  lemma CompletingSteps(s: State, id: nat)
    requires id in s.orders
    ensures var o := s.orders[id];
            Next(s, BeginComplete(o.purchaser, id, o.version)) == DoBeginComplete(s, o.purchaser, id, o.version)
  {
  }

  lemma Completes(s: State, id: nat)
    requires id in s.orders && s.orders[id].status in {PendingPayment, Paid} && Unlocked(s, id)
    requires BillFits(s, id, s.orders[id])
    requires BillStatusIs(s, s.orders[id], Completed)
    ensures var tx, o := |s.txs|, s.orders[id];
            var t := DoCommit(DoReadTxBill(DoBeginComplete(s, o.purchaser, id, o.version), tx), tx);
            id in t.orders && t.orders[id].status == OrderCompleted
  {
    var tx, o := |s.txs|, s.orders[id];
    assert DoBeginComplete(s, o.purchaser, id, o.version).txs[tx] == CompleteTx(id, ToRead);
    assert DoReadTxBill(DoBeginComplete(s, o.purchaser, id, o.version), tx).txs[tx] == CompleteTx(id, ToCommit);
  }

  // ------------------------------------------------------------------ cancelling

  // A cancelled order gives its stock back to its listing, unless that is delisted, and touches no other.
  lemma CancelReturnsStock(s: State, id: nat)
    requires Inv(s) && id in s.orders && s.orders[id].status == PendingPayment && Unlocked(s, id)
    requires !BillStatusIs(s, s.orders[id], Completed)
    ensures var t, l, o := Runs(s, CancelTrace(s, id)), s.orders[id].listing, s.orders[id];
            && l < |s.goods| == |t.goods|
            && t.goods[l].stock == (if s.goods[l].stock < 0 then s.goods[l].stock else s.goods[l].stock + o.quantity)
            && (forall k :: 0 <= k < |s.goods| && k != l ==> t.goods[k] == s.goods[k])
            && (forall k :: k in s.orders && k != id ==> k in t.orders && t.orders[k] == s.orders[k])
  {
    assert OrderRow(s, id, s.orders[id]) && Agrees(s, s.orders[id]);
    CancelTraceRuns(s, id);
    CancelBegins(s, id);
    ReturnsStock(DoBeginCancel(s, s.orders[id].purchaser, id, s.orders[id].version), id, |s.txs|);
  }

  lemma ReturnsStock(s: State, id: nat, tx: nat)
    requires Cancelling(s, id, tx, ToRead) && !BillStatusIs(s, s.orders[id], Completed)
    requires forall c, d :: 0 <= c < d < |s.bills| ==> s.bills[c].source != s.bills[d].source
    ensures var t, l, o := DoCommit(DoCloseTxBill(DoReadTxBill(s, tx), tx), tx), s.orders[id].listing, s.orders[id];
            && l < |s.goods| == |t.goods|
            && t.goods[l].stock == (if s.goods[l].stock < 0 then s.goods[l].stock else s.goods[l].stock + o.quantity)
            && (forall k :: 0 <= k < |s.goods| && k != l ==> t.goods[k] == s.goods[k])
            && (forall k :: k in s.orders && k != id ==> k in t.orders && t.orders[k] == s.orders[k])
  {
  }
}
