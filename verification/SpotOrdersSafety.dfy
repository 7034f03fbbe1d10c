// What every run of the spot order system keeps.
module SpotOrdersSafety {
  import opened Common
  import opened PaymentBills
  import opened SpotOrders

  // ------------------------------------------------------------------ sums and counts

  function SumDeltas(entries: seq<Entry>, listing: nat): int {
    if entries == [] then 0
    else
      var last := entries[|entries| - 1];
      SumDeltas(entries[..|entries| - 1], listing) + if last.listing == listing then last.delta else 0
  }

  // The entries of one kind written for one order.
  function CountFor(entries: seq<Entry>, reason: Reason, order: nat): nat {
    if entries == [] then 0
    else
      var last := entries[|entries| - 1];
      CountFor(entries[..|entries| - 1], reason, order) + if last.reason == reason && last.order == Some(order) then 1
      else 0
  }

  lemma {:induction false} SumAppend(a: seq<Entry>, b: seq<Entry>, listing: nat)
    ensures SumDeltas(a + b, listing) == SumDeltas(a, listing) + SumDeltas(b, listing)
  {
    if b == [] {
      assert a + b == a;
    } else {
      assert (a + b)[..|a + b| - 1] == a + b[..|b| - 1];
      SumAppend(a, b[..|b| - 1], listing);
    }
  }

  lemma {:induction false} CountAppend(a: seq<Entry>, b: seq<Entry>, reason: Reason, order: nat)
    ensures CountFor(a + b, reason, order) == CountFor(a, reason, order) + CountFor(b, reason, order)
  {
    if b == [] {
      assert a + b == a;
    } else {
      assert (a + b)[..|a + b| - 1] == a + b[..|b| - 1];
      CountAppend(a, b[..|b| - 1], reason, order);
    }
  }

  lemma AddEntry(entries: seq<Entry>, e: Entry)
    ensures forall listing: nat :: SumDeltas(entries + [e], listing)
              == SumDeltas(entries, listing) + (if e.listing == listing then e.delta else 0)
    ensures forall reason, order: nat :: CountFor(entries + [e], reason, order)
              == CountFor(entries, reason, order) + (if e.reason == reason && e.order == Some(order) then 1 else 0)
  {
  }

  // ------------------------------------------------------------------ the invariant

  // The bill a row points to is this order's bill.
  ghost predicate BillFits(s: State, id: nat, o: Order) {
    o.bill.Some? ==>
      && o.bill.value < |s.bills|
      && s.bills[o.bill.value].source == SpotOrderSource(id) && s.bills[o.bill.value].payerId == o.purchaser
      && s.bills[o.bill.value].payeeId == o.seller && s.bills[o.bill.value].amountCents == o.total
  }

  ghost predicate OrderRow(s: State, id: nat, o: Order) {
    && id < s.nextOrder && o.listing < |s.goods| && o.seller == s.goods[o.listing].seller && o.quantity > 0
    && BillFits(s, id, o)
  }

  ghost predicate BillStatusIs(s: State, o: Order, status: BillStatus) {
    o.bill.Some? && o.bill.value < |s.bills| && s.bills[o.bill.value].status == status
  }

  // The two services agree on every committed order.
  ghost predicate Agrees(s: State, o: Order) {
    if o.purchaser == o.seller then o.status == OrderCompleted && o.bill == None
    else
      && o.bill.Some?
      && (o.status == Paid || o.status == OrderCompleted ==> BillStatusIs(s, o, Completed))
      && (o.status == Cancelled ==> BillStatusIs(s, o, Closed))
  }

  ghost predicate OrdersInv(s: State) {
    forall id :: id in s.orders ==> OrderRow(s, id, s.orders[id]) && Agrees(s, s.orders[id])
  }

  ghost predicate NoBillFor(s: State, id: nat) {
    forall b :: 0 <= b < |s.bills| ==> s.bills[b].source != SpotOrderSource(id)
  }

  ghost predicate BillsInv(s: State) {
    && (forall b :: 0 <= b < |s.bills| ==> s.bills[b].updatedAt < s.clock)
    && (forall b :: 0 <= b < |s.bills| ==>
          s.bills[b].source.SpotOrderSource? && 0 <= s.bills[b].source.orderId < s.nextOrder)
    && (forall b, c :: 0 <= b < c < |s.bills| ==> s.bills[b].source != s.bills[c].source)
  }

  // An order that has not been committed yet.
  ghost predicate MadeRow(s: State, t: Tx, id: nat)
    requires t.CreateTx? && id in t.made
  {
    var o := t.made[id];
    && OrderRow(s, id, o) && id !in s.orders && o.purchaser == t.purchaser
    && (if o.purchaser == o.seller then o.status == OrderCompleted && o.bill == None
        else o.status == PendingPayment && if t.asking == Some(id) then o.bill == None && NoBillFor(s, id)
        else o.bill.Some?)
  }

  ghost predicate StocksInv(s: State, t: Tx)
    requires t.CreateTx?
  {
    && (forall l :: l in t.stocks ==> l < |s.goods| && s.goods[l].stock >= 0 && t.stocks[l] >= 0
                                      && t.stocks[l] == s.goods[l].stock + SumDeltas(t.entries, l))
    && (forall l :: l !in t.stocks ==> SumDeltas(t.entries, l) == 0)
    && (forall id :: CountFor(t.entries, OrderLock, id) == if id in t.made then 1 else 0)
    && (forall id :: CountFor(t.entries, OrderCancel, id) == 0)
  }

  ghost predicate TxInv(s: State, t: Tx) {
    match t
    case CreateTx(_, _, made, _, _, asking) =>
      && (forall id :: id in made ==> MadeRow(s, t, id)) && StocksInv(s, t)
      && (asking.Some? ==> asking.value in made && made[asking.value].purchaser != made[asking.value].seller)
    case CancelTx(order, stage) =>
      && order in s.orders && s.orders[order].status == PendingPayment
      && (stage == ToCommit ==> BillStatusIs(s, s.orders[order], Closed))
    case CompleteTx(order, stage) =>
      && order in s.orders && s.orders[order].status in {PendingPayment, Paid}
      && (stage == ToCommit ==> BillStatusIs(s, s.orders[order], Completed))
    case Over => true
  }

  // No two open transactions hold the same listing or create the same order.
  ghost predicate Apart(s: State, t: Tx, u: Tx) {
    && (forall l: nat :: HoldsGoods(s, t, l) ==> !HoldsGoods(s, u, l))
    && (t.CreateTx? && u.CreateTx? ==> t.made.Keys !! u.made.Keys)
  }

  ghost predicate LocksInv(s: State) {
    forall i, j :: 0 <= i < j < |s.txs| ==> Apart(s, s.txs[i], s.txs[j])
  }

  ghost predicate LedgerInv(s: State) {
    && (forall l :: 0 <= l < |s.goods| ==> s.goods[l].stock >= -1 && Max(s.goods[l].stock, 0) == SumDeltas(s.ledger, l))
    && (forall l :: l >= |s.goods| ==> SumDeltas(s.ledger, l) == 0)
    && (forall id :: CountFor(s.ledger, OrderLock, id) == if id in s.orders then 1 else 0)
    && (forall id :: CountFor(s.ledger, OrderCancel, id) <= 1)
    && (forall id :: CountFor(s.ledger, OrderCancel, id) == 1 ==> id in s.orders && s.orders[id].status == Cancelled)
  }

  ghost predicate ActInv(s: State, a: Act) {
    && a.bill < |s.bills| && a.seen.updatedAt < s.clock
    && a.seen.updatedAt <= s.bills[a.bill].updatedAt
    && (a.seen.updatedAt == s.bills[a.bill].updatedAt ==> a.seen == s.bills[a.bill])
  }

  ghost predicate SyncInv(s: State, y: Sync) {
    y.bill < |s.bills| && (y.seen.Some? && y.seen.value.status == Completed ==> s.bills[y.bill].status == Completed)
  }

  ghost predicate Inv(s: State) {
    && OrdersInv(s) && BillsInv(s) && LocksInv(s) && LedgerInv(s)
    && (forall i :: 0 <= i < |s.txs| ==> TxInv(s, s.txs[i]))
    && (forall a :: 0 <= a < |s.acts| ==> ActInv(s, s.acts[a]))
    && (forall y :: 0 <= y < |s.syncs| ==> SyncInv(s, s.syncs[y]))
  }

  lemma EmptyInv()
    ensures Inv(EMPTY)
  {
  }

  // ------------------------------------------------------------------ what carries over

  ghost predicate Keeps(s: State, t: State) {
    && BillsGrow(s.bills, t.bills, s.clock) && s.clock <= t.clock && s.nextOrder <= t.nextOrder
    && |s.goods| <= |t.goods| && forall l :: 0 <= l < |s.goods| ==> t.goods[l].seller == s.goods[l].seller
  }

  // What an open transaction relies on and others must leave alone.
  ghost predicate Undisturbed(s: State, t: State, u: Tx) {
    match u
    case CreateTx(_, _, made, stocks, _, asking) =>
      && (forall l :: l in stocks && l < |s.goods| ==> l < |t.goods| && t.goods[l].stock == s.goods[l].stock)
      && (forall id :: id in made ==> id !in t.orders)
      && (asking.Some? && NoBillFor(s, asking.value) ==> NoBillFor(t, asking.value))
    case CancelTx(order, _) => order in s.orders ==> order in t.orders && t.orders[order] == s.orders[order]
    case CompleteTx(order, _) => order in s.orders ==> order in t.orders && t.orders[order] == s.orders[order]
    case Over => true
  }

  lemma RowCarries(s: State, t: State, id: nat, o: Order)
    requires Keeps(s, t) && OrderRow(s, id, o)
    ensures OrderRow(t, id, o) && (Agrees(s, o) ==> Agrees(t, o))
  {
  }

  lemma OrdersCarry(s: State, t: State)
    requires Keeps(s, t) && OrdersInv(s)
    ensures forall id :: id in s.orders ==> OrderRow(t, id, s.orders[id]) && Agrees(t, s.orders[id])
  {
  }

  lemma TxCarries(s: State, t: State, u: Tx)
    requires Keeps(s, t) && TxInv(s, u) && OrdersInv(s) && Undisturbed(s, t, u)
    ensures TxInv(t, u)
  {
  }

  lemma ActsCarry(s: State, t: State)
    requires Keeps(s, t) && forall a :: 0 <= a < |s.acts| ==> ActInv(s, s.acts[a])
    ensures forall a :: 0 <= a < |s.acts| ==> ActInv(t, s.acts[a])
  {
  }

  lemma SyncsCarry(s: State, t: State)
    requires Keeps(s, t) && forall y :: 0 <= y < |s.syncs| ==> SyncInv(s, s.syncs[y])
    ensures forall y :: 0 <= y < |s.syncs| ==> SyncInv(t, s.syncs[y])
  {
  }

  // Existing orders keep their listing, so an open transaction holds the rows it held.
  ghost predicate SameListings(s: State, t: State) {
    forall id :: id in s.orders ==> id in t.orders && t.orders[id].listing == s.orders[id].listing
  }

  lemma HoldsCarries(s: State, t: State, u: Tx)
    requires SameListings(s, t) && TxInv(s, u)
    ensures forall l: nat :: HoldsGoods(t, u, l) == HoldsGoods(s, u, l)
  {
  }

  lemma ApartCarries(s: State, t: State, u: Tx, v: Tx)
    requires t.orders == s.orders && Apart(s, u, v)
    ensures Apart(t, u, v) && Apart(t, v, u)
  {
    forall l: nat | HoldsGoods(t, v, l) ensures !HoldsGoods(t, u, l) {
      assert HoldsGoods(s, v, l);
      if HoldsGoods(s, u, l) {}
    }
    forall l: nat ensures HoldsGoods(t, u, l) == HoldsGoods(s, u, l) && HoldsGoods(t, v, l) == HoldsGoods(s, v, l) {}
  }

  lemma LocksCarry(s: State, t: State)
    requires SameListings(s, t) && LocksInv(s) && t.txs == s.txs && forall i :: 0 <= i < |s.txs| ==> TxInv(s, s.txs[i])
    ensures LocksInv(t)
  {
    forall i, j | 0 <= i < j < |s.txs| ensures Apart(t, t.txs[i], t.txs[j]) {
      assert Apart(s, s.txs[i], s.txs[j]);
      HoldsCarries(s, t, s.txs[i]);
      HoldsCarries(s, t, s.txs[j]);
    }
  }

  // The same, when transaction i changes to one that stays apart from the others.
  lemma LocksReplace(s: State, t: State, i: nat)
    requires SameListings(s, t) && LocksInv(s) && forall k :: 0 <= k < |s.txs| ==> TxInv(s, s.txs[k])
    requires i < |s.txs| == |t.txs| && forall k :: 0 <= k < |s.txs| && k != i ==> t.txs[k] == s.txs[k]
    requires forall k :: 0 <= k < |s.txs| && k != i ==> Apart(t, t.txs[i], t.txs[k])
    ensures LocksInv(t)
  {
    forall k, j | 0 <= k < j < |s.txs| ensures Apart(t, t.txs[k], t.txs[j]) {
      if k == i {
        assert Apart(t, t.txs[i], t.txs[j]);
      } else if j == i {
        assert Apart(t, t.txs[i], t.txs[k]);
      } else {
        assert Apart(s, s.txs[k], s.txs[j]);
        HoldsCarries(s, t, s.txs[k]);
        HoldsCarries(s, t, s.txs[j]);
      }
    }
  }

  // A transaction that ends lets go of everything.
  lemma EndStaysApart(s: State, t: State, i: nat)
    requires i < |t.txs| && t.txs[i] == Over
    ensures forall k :: 0 <= k < |t.txs| && k != i ==> Apart(t, t.txs[i], t.txs[k])
  {
  }

  // A step that writes neither orders nor bills nor stock, only what is in flight.
  ghost predicate SameTables(s: State, t: State) {
    t.goods == s.goods && t.orders == s.orders && t.ledger == s.ledger && t.bills == s.bills && s.clock <= t.clock
      && s.nextOrder <= t.nextOrder
  }

  lemma SameTablesKeeps(s: State, t: State)
    requires SameTables(s, t) && OrdersInv(s) && BillsInv(s) && LedgerInv(s)
    ensures Keeps(s, t) && OrdersInv(t) && BillsInv(t) && LedgerInv(t) && SameListings(s, t)
    ensures forall u :: TxInv(s, u) ==> Undisturbed(s, t, u)
  {
  }

  // ------------------------------------------------------------------ the seller's steps

  // A step that writes the row of one listing nobody holds.
  ghost predicate WritesGoods(s: State, t: State, l: nat) {
    && l < |s.goods| == |t.goods| && GoodsFree(s, l) && t.goods[l].seller == s.goods[l].seller
    && (forall k :: 0 <= k < |s.goods| && k != l ==> t.goods[k] == s.goods[k])
    && t.orders == s.orders && t.bills == s.bills && s.clock <= t.clock && t.nextOrder == s.nextOrder
    && t.txs == s.txs && t.acts == s.acts && t.syncs == s.syncs
  }

  lemma WritesGoodsKeeps(s: State, t: State, l: nat)
    requires Inv(s) && WritesGoods(s, t, l) && LedgerInv(t)
    ensures Inv(t)
  {
    assert Keeps(s, t);
    OrdersCarry(s, t);
    ActsCarry(s, t);
    SyncsCarry(s, t);
    LocksCarry(s, t);
    forall i | 0 <= i < |t.txs| ensures TxInv(t, t.txs[i]) {
      assert !HoldsGoods(s, s.txs[i], l);
      TxCarries(s, t, s.txs[i]);
    }
  }

  lemma AdjustKeeps(s: State, caller: int, l: nat, stock: int, version: nat)
    requires Inv(s)
    ensures Inv(DoAdjust(s, caller, l, stock, version))
  {
    var t := DoAdjust(s, caller, l, stock, version);
    if t != s {
      AddEntry(s.ledger, t.ledger[|s.ledger|]);
      WritesGoodsKeeps(s, t, l);
    }
  }

  lemma SetPriceKeeps(s: State, caller: int, l: nat, price: int, version: nat)
    requires Inv(s)
    ensures Inv(DoSetPrice(s, caller, l, price, version))
  {
    var t := DoSetPrice(s, caller, l, price, version);
    if t != s { WritesGoodsKeeps(s, t, l); }
  }

  lemma CloseGoodsKeeps(s: State, caller: int, l: nat, version: nat)
    requires Inv(s)
    ensures Inv(DoCloseGoods(s, caller, l, version))
  {
    var t := DoCloseGoods(s, caller, l, version);
    if t != s { WritesGoodsKeeps(s, t, l); }
  }

  lemma PublishKeeps(s: State, seller: int, price: int, stock: int)
    requires Inv(s)
    ensures Inv(DoPublish(s, seller, price, stock))
  {
    var t := DoPublish(s, seller, price, stock);
    if t != s {
      assert Keeps(s, t);
      AddEntry(s.ledger, t.ledger[|s.ledger|]);
      OrdersCarry(s, t);
      ActsCarry(s, t);
      SyncsCarry(s, t);
      LocksCarry(s, t);
      forall i | 0 <= i < |t.txs| ensures TxInv(t, t.txs[i]) { TxCarries(s, t, s.txs[i]); }
    }
  }

  // ------------------------------------------------------------------ steps of the open transactions

  // A transaction begins, holding only rows that were free.
  lemma BeginKeeps(s: State, t: State)
    requires Inv(s) && SameTables(s, t) && t.clock == s.clock && t.nextOrder == s.nextOrder && t.acts == s.acts
    requires t.syncs == s.syncs
    requires |t.txs| == |s.txs| + 1 && t.txs[..|s.txs|] == s.txs && TxInv(t, t.txs[|s.txs|])
    requires forall i :: 0 <= i < |s.txs| ==> Apart(t, s.txs[i], t.txs[|s.txs|])
    ensures Inv(t)
  {
    SameTablesKeeps(s, t);
    ActsCarry(s, t);
    SyncsCarry(s, t);
    forall i | 0 <= i < |t.txs| ensures TxInv(t, t.txs[i]) {
      if i < |s.txs| { assert t.txs[i] == s.txs[i]; TxCarries(s, t, s.txs[i]); }
    }
    forall i, j | 0 <= i < j < |t.txs| ensures Apart(t, t.txs[i], t.txs[j]) {
      assert t.txs[i] == s.txs[i];
      if j < |s.txs| { assert t.txs[j] == s.txs[j]; ApartCarries(s, t, s.txs[i], s.txs[j]); }
    }
  }

  lemma BeginsKeep(s: State, step: Step)
    requires Inv(s) && (step.BeginCreate? || step.BeginCancel? || step.BeginComplete?)
    ensures Inv(Next(s, step))
  {
    var t := Next(s, step);
    if t != s {
      if !step.BeginCreate? {
        assert OrderRow(s, step.order, s.orders[step.order]) && Agrees(s, s.orders[step.order]);
        assert GoodsFree(s, s.orders[step.order].listing);
      }
      BeginKeeps(s, t);
    }
  }

  // A transaction moves on without writing a table.
  lemma MoveKeeps(s: State, t: State, i: nat)
    requires Inv(s) && SameTables(s, t) && i < |s.txs| == |t.txs| && t.acts == s.acts && t.syncs == s.syncs
    requires forall k :: 0 <= k < |s.txs| && k != i ==> t.txs[k] == s.txs[k]
    requires TxInv(t, t.txs[i]) && forall k :: 0 <= k < |s.txs| && k != i ==> Apart(t, t.txs[i], t.txs[k])
    ensures Inv(t)
  {
    SameTablesKeeps(s, t);
    ActsCarry(s, t);
    SyncsCarry(s, t);
    LocksReplace(s, t, i);
    forall k | 0 <= k < |t.txs| ensures TxInv(t, t.txs[k]) {
      if k != i { TxCarries(s, t, s.txs[k]); }
    }
  }

  lemma OverKeeps(s: State, i: nat)
    requires Inv(s) && i < |s.txs|
    ensures Inv(SetTx(s, i, Over))
  {
    var t := SetTx(s, i, Over);
    EndStaysApart(s, t, i);
    MoveKeeps(s, t, i);
  }

  lemma ReadTxBillKeeps(s: State, i: nat)
    requires Inv(s)
    ensures Inv(DoReadTxBill(s, i))
  {
    var t := DoReadTxBill(s, i);
    if t != s {
      if t.txs[i] == Over {
        OverKeeps(s, i);
      } else {
        SameHolder(s, t, i);
        MoveKeeps(s, t, i);
      }
    }
  }

  // A cancelling or completing transaction holds its order and listing to the end.
  lemma SameHolder(s: State, t: State, i: nat)
    requires LocksInv(s) && t.orders == s.orders && i < |s.txs| == |t.txs|
    requires forall k :: 0 <= k < |s.txs| && k != i ==> t.txs[k] == s.txs[k]
    requires (s.txs[i].CancelTx? && t.txs[i].CancelTx?) || (s.txs[i].CompleteTx? && t.txs[i].CompleteTx?)
    requires t.txs[i].order == s.txs[i].order
    ensures forall k :: 0 <= k < |s.txs| && k != i ==> Apart(t, t.txs[i], t.txs[k])
  {
    forall k | 0 <= k < |s.txs| && k != i ensures Apart(t, t.txs[i], t.txs[k]) {
      if k < i { ApartCarries(s, t, s.txs[k], s.txs[i]); } else { ApartCarries(s, t, s.txs[i], s.txs[k]); }
      forall l: nat ensures HoldsGoods(t, t.txs[i], l) == HoldsGoods(t, s.txs[i], l) {}
    }
  }

  lemma TakeItemKeeps(s: State, i: nat)
    requires Inv(s)
    ensures Inv(DoTakeItem(s, i))
  {
    var t := DoTakeItem(s, i);
    if t != s {
      if t.txs[i] == Over {
        OverKeeps(s, i);
      } else {
        TakenItem(s, i);
        TakenApart(s, i);
        MoveKeeps(s, t, i);
      }
    }
  }

  ghost predicate Takes(s: State, i: nat) {
    && i < |s.txs| && s.txs[i].CreateTx? && s.txs[i].asking == None && s.txs[i].todo != [] && TxInv(s, s.txs[i])
    && GoodsFreeFor(s, i, s.txs[i].todo[0].listing) && Buyable(s, s.txs[i].stocks, s.txs[i].todo[0])
  }

  lemma TakenItem(s: State, i: nat)
    requires Takes(s, i) && OrdersInv(s) && BillsInv(s)
    ensures TxInv(DoTakeItem(s, i), DoTakeItem(s, i).txs[i]) && SameTables(s, DoTakeItem(s, i))
  {
    var t, u := DoTakeItem(s, i), s.txs[i];
    var v, id := t.txs[i], s.nextOrder;
    AddEntry(u.entries, v.entries[|u.entries|]);
    assert NoBillFor(t, id);
    forall k | k in v.made ensures MadeRow(t, v, k) {
      if k != id { assert MadeRow(s, u, k); }
    }
    assert StocksInv(t, v);
  }

  lemma TakenApart(s: State, i: nat)
    requires Takes(s, i) && LocksInv(s) && forall k :: 0 <= k < |s.txs| ==> TxInv(s, s.txs[k])
    ensures forall k :: 0 <= k < |s.txs| && k != i ==>
              Apart(DoTakeItem(s, i), DoTakeItem(s, i).txs[i], DoTakeItem(s, i).txs[k])
  {
    var t := DoTakeItem(s, i);
    var l := s.txs[i].todo[0].listing;
    forall k | 0 <= k < |s.txs| && k != i ensures Apart(t, t.txs[i], t.txs[k]) {
      if k < i { ApartCarries(s, t, s.txs[k], s.txs[i]); } else { ApartCarries(s, t, s.txs[i], s.txs[k]); }
      assert !HoldsGoods(s, s.txs[k], l) && t.txs[k] == s.txs[k];
      forall m: nat ensures HoldsGoods(t, t.txs[i], m) ==> m == l || HoldsGoods(t, s.txs[i], m) {}
      if s.txs[k].CreateTx? {
        forall id | id in s.txs[k].made ensures id < s.nextOrder { assert MadeRow(s, s.txs[k], id); }
      }
    }
  }

  // A step that writes bills and at most one open transaction.
  lemma BillsStepKeeps(s: State, t: State, i: nat)
    requires Inv(s) && Keeps(s, t) && BillsInv(t)
    requires t.goods == s.goods && t.orders == s.orders && t.ledger == s.ledger && t.acts == s.acts
    requires t.syncs == s.syncs
    requires i < |s.txs| == |t.txs| && forall k :: 0 <= k < |s.txs| && k != i ==>
              t.txs[k] == s.txs[k] && Undisturbed(s, t, s.txs[k])
    requires TxInv(t, t.txs[i]) && forall k :: 0 <= k < |s.txs| && k != i ==> Apart(t, t.txs[i], t.txs[k])
    ensures Inv(t)
  {
    OrdersCarry(s, t);
    ActsCarry(s, t);
    SyncsCarry(s, t);
    LocksReplace(s, t, i);
    forall k | 0 <= k < |t.txs| ensures TxInv(t, t.txs[k]) {
      if k != i { TxCarries(s, t, s.txs[k]); }
    }
  }

  ghost predicate Asks(s: State, i: nat) {
    i < |s.txs| && s.txs[i].CreateTx? && s.txs[i].asking.Some? && TxInv(s, s.txs[i])
  }

  lemma AskBillKeeps(s: State, i: nat)
    requires Inv(s)
    ensures Inv(DoAskBill(s, i))
  {
    var t := DoAskBill(s, i);
    if t != s {
      AskedFrame(s, i);
      AskedBills(s, i);
      AskedApart(s, i);
      if t.txs[i] != Over { AskedTx(s, i); }
      BillsStepKeeps(s, t, i);
    }
  }

  lemma AskedFrame(s: State, i: nat)
    requires DoAskBill(s, i) != s
    ensures var t := DoAskBill(s, i);
            && t.goods == s.goods && t.orders == s.orders && t.ledger == s.ledger && t.acts == s.acts
            && t.syncs == s.syncs
            && i < |s.txs| == |t.txs| && s.txs[i].CreateTx? && s.txs[i].asking.Some?
            && forall k :: 0 <= k < |s.txs| && k != i ==> t.txs[k] == s.txs[k]
  {
  }

  lemma AskedBills(s: State, i: nat)
    requires Asks(s, i) && OrdersInv(s) && BillsInv(s)
    ensures Keeps(s, DoAskBill(s, i)) && BillsInv(DoAskBill(s, i))
    ensures forall id :: id != s.txs[i].asking.value && NoBillFor(s, id) ==> NoBillFor(DoAskBill(s, i), id)
  {
    var id := s.txs[i].asking.value;
    assert MadeRow(s, s.txs[i], id);
    assert FindLive(s.bills, SpotOrderSource(id), s.txs[i].made[id].purchaser) == None;
  }

  lemma AskedTx(s: State, i: nat)
    requires Asks(s, i) && OrdersInv(s) && BillsInv(s) && DoAskBill(s, i).txs[i] != Over
    ensures TxInv(DoAskBill(s, i), DoAskBill(s, i).txs[i])
  {
    var t, u := DoAskBill(s, i), s.txs[i];
    var id := u.asking.value;
    assert MadeRow(s, u, id);
    assert FindLive(s.bills, SpotOrderSource(id), u.made[id].purchaser) == None;
    forall k | k in t.txs[i].made ensures MadeRow(t, t.txs[i], k) {
      assert MadeRow(s, u, k);
    }
  }

  lemma AskedApart(s: State, i: nat)
    requires Asks(s, i) && LocksInv(s) && forall k :: 0 <= k < |s.txs| ==> TxInv(s, s.txs[k])
    requires forall id :: id != s.txs[i].asking.value && NoBillFor(s, id) ==> NoBillFor(DoAskBill(s, i), id)
    ensures forall k :: 0 <= k < |s.txs| && k != i ==>
              Apart(DoAskBill(s, i), DoAskBill(s, i).txs[i], s.txs[k]) && Undisturbed(s, DoAskBill(s, i), s.txs[k])
  {
    var t := DoAskBill(s, i);
    forall k | 0 <= k < |s.txs| && k != i ensures Apart(t, t.txs[i], s.txs[k]) && Undisturbed(s, t, s.txs[k]) {
      if k < i { ApartCarries(s, t, s.txs[k], s.txs[i]); } else { ApartCarries(s, t, s.txs[i], s.txs[k]); }
      forall m: nat ensures HoldsGoods(t, t.txs[i], m) ==> HoldsGoods(t, s.txs[i], m) {}
      if s.txs[k].CreateTx? {
        assert s.txs[i].asking.value in s.txs[i].made.Keys;
        forall id | id in s.txs[k].made ensures id !in t.orders { assert MadeRow(s, s.txs[k], id); }
      }
    }
  }

  // Bill rows written in place keep their source, so nobody's order gains or loses a bill.
  lemma InPlaceUndisturbed(s: State, t: State, u: Tx)
    requires TxInv(s, u) && t.goods == s.goods && t.orders == s.orders && BillsGrow(s.bills, t.bills, s.clock)
    requires |t.bills| == |s.bills|
    ensures Undisturbed(s, t, u)
  {
  }

  lemma CloseTxBillKeeps(s: State, i: nat)
    requires Inv(s)
    ensures Inv(DoCloseTxBill(s, i))
  {
    var t := DoCloseTxBill(s, i);
    if t != s {
      if t.txs[i] == Over {
        OverKeeps(s, i);
      } else {
        ClosedBills(s, i);
        SameHolder(s, t, i);
        forall k | 0 <= k < |s.txs| && k != i ensures Undisturbed(s, t, s.txs[k]) {
          InPlaceUndisturbed(s, t, s.txs[k]);
        }
        BillsStepKeeps(s, t, i);
      }
    }
  }

  lemma ClosedBills(s: State, i: nat)
    requires Inv(s) && i < |s.txs| && s.txs[i].CancelTx? && DoCloseTxBill(s, i) != s
    requires DoCloseTxBill(s, i).txs[i] != Over
    ensures Keeps(s, DoCloseTxBill(s, i)) && BillsInv(DoCloseTxBill(s, i)) && |DoCloseTxBill(s, i).bills| == |s.bills|
    ensures TxInv(DoCloseTxBill(s, i), DoCloseTxBill(s, i).txs[i])
  {
    var t, order := DoCloseTxBill(s, i), s.txs[i].order;
    assert TxInv(s, s.txs[i]);
    var o := s.orders[order];
    assert OrderRow(s, order, o) && Agrees(s, o);
    var b := s.bills[o.bill.value];
    assert Concerns(b, SpotOrderSource(order), Some(o.purchaser));
    assert b.status != Completed;
    assert t.bills[o.bill.value].status == Closed;
  }

  // ------------------------------------------------------------------ commits

  // The tables after a commit, given that every table invariant and every other transaction holds.
  lemma CommitKeeps(s: State, t: State, i: nat)
    requires Inv(s) && i < |s.txs| == |t.txs| && t.txs[i] == Over && forall k :: 0 <= k < |s.txs| && k != i ==>
              t.txs[k] == s.txs[k]
    requires Keeps(s, t) && SameListings(s, t) && t.bills == s.bills && t.nextOrder == s.nextOrder && t.acts == s.acts
    requires t.syncs == s.syncs
    requires OrdersInv(t) && LedgerInv(t)
    requires forall k :: 0 <= k < |s.txs| && k != i ==> Undisturbed(s, t, s.txs[k])
    ensures Inv(t)
  {
    ActsCarry(s, t);
    SyncsCarry(s, t);
    EndStaysApart(s, t, i);
    LocksReplace(s, t, i);
    forall k | 0 <= k < |t.txs| ensures TxInv(t, t.txs[k]) {
      if k != i { TxCarries(s, t, s.txs[k]); }
    }
  }

  ghost predicate Creates(s: State, i: nat) {
    i < |s.txs| && s.txs[i].CreateTx? && s.txs[i].todo == [] && s.txs[i].asking == None && TxInv(s, s.txs[i])
  }

  lemma CommitCreateKeeps(s: State, i: nat)
    requires Inv(s) && i < |s.txs| && s.txs[i].CreateTx?
    ensures Inv(CommitCreate(s, i))
  {
    var t := CommitCreate(s, i);
    if t != s {
      CreatedOrders(s, i);
      CreatedLedger(s, i);
      CreatedOthers(s, i);
      CommitKeeps(s, t, i);
    }
  }

  lemma CreatedOrders(s: State, i: nat)
    requires Creates(s, i) && OrdersInv(s)
    ensures Keeps(s, CommitCreate(s, i)) && SameListings(s, CommitCreate(s, i)) && OrdersInv(CommitCreate(s, i))
  {
    var t, u := CommitCreate(s, i), s.txs[i];
    assert Keeps(s, t);
    forall id | id in u.made ensures id !in s.orders { assert MadeRow(s, u, id); }
    forall id | id in t.orders ensures OrderRow(t, id, t.orders[id]) && Agrees(t, t.orders[id]) {
      if id in u.made {
        assert MadeRow(s, u, id);
        RowCarries(s, t, id, u.made[id]);
      } else {
        assert OrderRow(s, id, s.orders[id]) && Agrees(s, s.orders[id]);
        RowCarries(s, t, id, s.orders[id]);
      }
    }
  }

  lemma CreatedLedger(s: State, i: nat)
    requires Creates(s, i) && LedgerInv(s)
    ensures LedgerInv(CommitCreate(s, i))
  {
    var t, u := CommitCreate(s, i), s.txs[i];
    forall l: nat ensures SumDeltas(t.ledger, l) == SumDeltas(s.ledger, l) + SumDeltas(u.entries, l) {
      SumAppend(s.ledger, u.entries, l);
    }
    forall reason, id: nat
      ensures CountFor(t.ledger, reason, id) == CountFor(s.ledger, reason, id) + CountFor(u.entries, reason, id)
    {
      CountAppend(s.ledger, u.entries, reason, id);
    }
    forall id | id in u.made ensures id !in s.orders { assert MadeRow(s, u, id); }
    forall l | 0 <= l < |t.goods| ensures t.goods[l].stock >= -1 && Max(t.goods[l].stock, 0) == SumDeltas(t.ledger, l) {
      if l in u.stocks {} else {}
    }
  }

  lemma CreatedOthers(s: State, i: nat)
    requires Creates(s, i) && LocksInv(s) && forall k :: 0 <= k < |s.txs| ==> TxInv(s, s.txs[k])
    ensures forall k :: 0 <= k < |s.txs| && k != i ==> Undisturbed(s, CommitCreate(s, i), s.txs[k])
  {
    var t, u := CommitCreate(s, i), s.txs[i];
    forall id | id in u.made ensures id !in s.orders { assert MadeRow(s, u, id); }
    forall k | 0 <= k < |s.txs| && k != i ensures Undisturbed(s, t, s.txs[k]) {
      var v := s.txs[k];
      if k < i { ApartCarries(s, s, v, u); } else { ApartCarries(s, s, u, v); }
      if v.CreateTx? {
        forall l | l in v.stocks && l < |s.goods| ensures t.goods[l].stock == s.goods[l].stock {
          assert HoldsGoods(s, v, l);
          assert !HoldsGoods(s, u, l);
        }
        forall id | id in v.made ensures id !in t.orders {
          assert MadeRow(s, v, id);
          assert id in v.made.Keys && id !in u.made.Keys;
        }
      }
    }
  }

  ghost predicate Ends(s: State, i: nat) {
    && i < |s.txs| && (s.txs[i].CancelTx? || s.txs[i].CompleteTx?) && s.txs[i].stage == ToCommit && TxInv(s, s.txs[i])
    && OrderRow(s, s.txs[i].order, s.orders[s.txs[i].order]) && Agrees(s, s.orders[s.txs[i].order])
  }

  // Committing a cancellation or completion writes one order and at most its listing's stock,
  // both of which nobody else holds.
  lemma EndOthers(s: State, t: State, i: nat)
    requires Ends(s, i) && LocksInv(s) && forall k :: 0 <= k < |s.txs| ==> TxInv(s, s.txs[k])
    requires |t.goods| == |s.goods| && forall l :: 0 <= l < |s.goods| && l != s.orders[s.txs[i].order].listing ==>
              t.goods[l] == s.goods[l]
    requires t.bills == s.bills && t.orders.Keys == s.orders.Keys
    requires forall id :: id in s.orders && id != s.txs[i].order ==> t.orders[id] == s.orders[id]
    ensures forall k :: 0 <= k < |s.txs| && k != i ==> Undisturbed(s, t, s.txs[k])
  {
    var listing := s.orders[s.txs[i].order].listing;
    forall k | 0 <= k < |s.txs| && k != i ensures Undisturbed(s, t, s.txs[k]) {
      var v := s.txs[k];
      if k < i { ApartCarries(s, s, v, s.txs[i]); } else { ApartCarries(s, s, s.txs[i], v); }
      assert HoldsGoods(s, s.txs[i], listing);
      assert !HoldsGoods(s, v, listing);
      if v.CreateTx? {
        forall id | id in v.made ensures id !in t.orders { assert MadeRow(s, v, id); }
      }
    }
  }

  lemma CommitCancelKeeps(s: State, i: nat)
    requires Inv(s) && i < |s.txs| && s.txs[i].CancelTx?
    ensures Inv(CommitCancel(s, i))
  {
    var t := CommitCancel(s, i);
    if t != s {
      assert TxInv(s, s.txs[i]);
      assert OrderRow(s, s.txs[i].order, s.orders[s.txs[i].order]) && Agrees(s, s.orders[s.txs[i].order]);
      EndOthers(s, t, i);
      CancelledOrders(s, i);
      CancelledLedger(s, i);
      CommitKeeps(s, t, i);
    }
  }

  lemma CancelledOrders(s: State, i: nat)
    requires Ends(s, i) && s.txs[i].CancelTx? && OrdersInv(s)
    ensures Keeps(s, CommitCancel(s, i)) && SameListings(s, CommitCancel(s, i)) && OrdersInv(CommitCancel(s, i))
  {
    var t := CommitCancel(s, i);
    assert Keeps(s, t);
    forall id | id in t.orders ensures OrderRow(t, id, t.orders[id]) && Agrees(t, t.orders[id]) {
      RowCarries(s, t, id, s.orders[id]);
    }
  }

  lemma CancelledLedger(s: State, i: nat)
    requires Ends(s, i) && s.txs[i].CancelTx? && LedgerInv(s)
    ensures LedgerInv(CommitCancel(s, i))
  {
    var o := s.orders[s.txs[i].order];
    AddEntry(s.ledger, Entry(o.listing, o.quantity, OrderCancel, Some(s.txs[i].order)));
  }

  lemma CommitCompleteKeeps(s: State, i: nat)
    requires Inv(s) && i < |s.txs| && s.txs[i].CompleteTx?
    ensures Inv(CommitComplete(s, i))
  {
    var t := CommitComplete(s, i);
    if t != s {
      assert TxInv(s, s.txs[i]);
      assert OrderRow(s, s.txs[i].order, s.orders[s.txs[i].order]) && Agrees(s, s.orders[s.txs[i].order]);
      EndOthers(s, t, i);
      assert Keeps(s, t);
      forall id | id in t.orders ensures OrderRow(t, id, t.orders[id]) && Agrees(t, t.orders[id]) {
        RowCarries(s, t, id, s.orders[id]);
      }
      CommitKeeps(s, t, i);
    }
  }

  lemma CommitStepKeeps(s: State, i: nat)
    requires Inv(s)
    ensures Inv(DoCommit(s, i))
  {
    if i < |s.txs| {
      match s.txs[i]
      case CreateTx(_, _, _, _, _, _) => CommitCreateKeeps(s, i);
      case CancelTx(_, _) => CommitCancelKeeps(s, i);
      case CompleteTx(_, _) => CommitCompleteKeeps(s, i);
      case Over =>
    }
  }

  // ------------------------------------------------------------------ bills and reconciliation

  lemma ReadsKeep(s: State, t: State)
    requires Inv(s) && SameTables(s, t) && t.txs == s.txs && t.clock == s.clock && t.nextOrder == s.nextOrder
    requires forall a :: 0 <= a < |t.acts| ==> ActInv(t, t.acts[a])
    requires forall y :: 0 <= y < |t.syncs| ==> SyncInv(t, t.syncs[y])
    ensures Inv(t)
  {
    SameTablesKeeps(s, t);
    LocksCarry(s, t);
    forall k | 0 <= k < |t.txs| ensures TxInv(t, t.txs[k]) { TxCarries(s, t, s.txs[k]); }
  }

  lemma ReadStepsKeep(s: State, step: Step)
    requires Inv(s) && (step.ReadBill? || step.ReadOrder? || step.FetchBill?)
    ensures Inv(Next(s, step))
  {
    if step.ReadOrder? && step.order in s.orders { assert OrderRow(s, step.order, s.orders[step.order]); }
    ReadsKeep(s, Next(s, step));
  }

  lemma WriteBillKeeps(s: State, a: nat)
    requires Inv(s)
    ensures Inv(DoWriteBill(s, a))
  {
    var t := DoWriteBill(s, a);
    if t != s {
      WrittenBills(s, a);
      OrdersCarry(s, t);
      ActsCarry(s, t);
      SyncsCarry(s, t);
      LocksCarry(s, t);
      forall k | 0 <= k < |t.txs| ensures TxInv(t, t.txs[k]) {
        InPlaceUndisturbed(s, t, s.txs[k]);
        TxCarries(s, t, s.txs[k]);
      }
      forall k | 0 <= k < |t.acts| ensures ActInv(t, t.acts[k]) { assert ActInv(t, s.acts[k]); }
    }
  }

  lemma WrittenBills(s: State, a: nat)
    requires BillsInv(s) && a < |s.acts| && ActInv(s, s.acts[a])
    ensures Keeps(s, DoWriteBill(s, a)) && BillsInv(DoWriteBill(s, a)) && |DoWriteBill(s, a).bills| == |s.bills|
  {
  }

  // A step that writes nothing but bills.
  lemma BillsAloneKeep(s: State, t: State)
    requires Inv(s) && t == s.(bills := t.bills, clock := t.clock) && Keeps(s, t) && BillsInv(t)
    requires forall k :: 0 <= k < |s.txs| ==> Undisturbed(s, t, s.txs[k])
    ensures Inv(t)
  {
    OrdersCarry(s, t);
    ActsCarry(s, t);
    SyncsCarry(s, t);
    LocksCarry(s, t);
    forall k | 0 <= k < |t.txs| ensures TxInv(t, t.txs[k]) { TxCarries(s, t, s.txs[k]); }
  }

  lemma LateCreateKeeps(s: State, order: nat, payer: int, payee: int, amount: int)
    requires Inv(s)
    ensures Inv(DoLateCreate(s, order, payer, payee, amount))
  {
    var t := DoLateCreate(s, order, payer, payee, amount);
    if t != s {
      LateCreatedBills(s, order, payer, payee, amount);
      forall k | 0 <= k < |s.txs| ensures Undisturbed(s, t, s.txs[k]) {
        if s.txs[k].CreateTx? {
          assert TxInv(s, s.txs[k]);
          forall id | id in s.txs[k].made ensures id !in t.orders { assert MadeRow(s, s.txs[k], id); }
        }
      }
      BillsAloneKeep(s, t);
    }
  }

  lemma LateCreatedBills(s: State, order: nat, payer: int, payee: int, amount: int)
    requires BillsInv(s) && DoLateCreate(s, order, payer, payee, amount) != s
    ensures var t := DoLateCreate(s, order, payer, payee, amount);
            && Keeps(s, t) && BillsInv(t) && forall id :: id != order && NoBillFor(s, id) ==> NoBillFor(t, id)
  {
  }

  lemma LateCancelKeeps(s: State, order: nat)
    requires Inv(s)
    ensures Inv(DoLateCancel(s, order))
  {
    var t := DoLateCancel(s, order);
    if t != s {
      LateClosedBills(s, order);
      forall k | 0 <= k < |s.txs| ensures Undisturbed(s, t, s.txs[k]) { InPlaceUndisturbed(s, t, s.txs[k]); }
      BillsAloneKeep(s, t);
    }
  }

  lemma LateClosedBills(s: State, order: nat)
    requires BillsInv(s) && DoLateCancel(s, order) != s
    ensures var t := DoLateCancel(s, order); Keeps(s, t) && BillsInv(t) && |t.bills| == |s.bills|
  {
  }

  lemma MarkPaidKeeps(s: State, y: nat)
    requires Inv(s)
    ensures Inv(DoMarkPaid(s, y))
  {
    var t := DoMarkPaid(s, y);
    if t != s {
      var order := s.syncs[y].order;
      assert SyncInv(s, s.syncs[y]) && OrderRow(s, order, s.orders[order]) && Agrees(s, s.orders[order]);
      assert Keeps(s, t);
      ActsCarry(s, t);
      SyncsCarry(s, t);
      LocksCarry(s, t);
      forall id | id in t.orders ensures OrderRow(t, id, t.orders[id]) && Agrees(t, t.orders[id]) {
        RowCarries(s, t, id, s.orders[id]);
      }
      PaidUndisturbed(s, y);
      forall k | 0 <= k < |t.txs| ensures TxInv(t, t.txs[k]) { TxCarries(s, t, s.txs[k]); }
    }
  }

  lemma PaidUndisturbed(s: State, y: nat)
    requires DoMarkPaid(s, y) != s && forall k :: 0 <= k < |s.txs| ==> TxInv(s, s.txs[k])
    ensures forall k :: 0 <= k < |s.txs| ==> Undisturbed(s, DoMarkPaid(s, y), s.txs[k])
  {
  }

  lemma TxStepKeeps(s: State, step: Step)
    requires Inv(s)
    requires step.TakeItem? || step.AskBill? || step.ReadTxBill? || step.CloseTxBill? || step.Commit? || step.Rollback?
    ensures Inv(Next(s, step))
  {
    match step
    case TakeItem(i) => TakeItemKeeps(s, i);
    case AskBill(i) => AskBillKeeps(s, i);
    case ReadTxBill(i) => ReadTxBillKeeps(s, i);
    case CloseTxBill(i) => CloseTxBillKeeps(s, i);
    case Commit(i) => CommitStepKeeps(s, i);
    case Rollback(i) => if i < |s.txs| { OverKeeps(s, i); }
  }

  lemma StepKeeps(s: State, step: Step)
    requires Inv(s)
    ensures Inv(Next(s, step))
  {
    match step
    case PublishGoods(seller, price, stock) => PublishKeeps(s, seller, price, stock);
    case AdjustStock(caller, listing, stock, version) => AdjustKeeps(s, caller, listing, stock, version);
    case SetPrice(caller, listing, price, version) => SetPriceKeeps(s, caller, listing, price, version);
    case CloseGoods(caller, listing, version) => CloseGoodsKeeps(s, caller, listing, version);
    case BeginCreate(_, _) => BeginsKeep(s, step);
    case BeginCancel(_, _, _) => BeginsKeep(s, step);
    case BeginComplete(_, _, _) => BeginsKeep(s, step);
    case TakeItem(i) => TxStepKeeps(s, step);
    case AskBill(i) => TxStepKeeps(s, step);
    case ReadTxBill(i) => TxStepKeeps(s, step);
    case CloseTxBill(i) => TxStepKeeps(s, step);
    case Commit(i) => TxStepKeeps(s, step);
    case Rollback(i) => TxStepKeeps(s, step);
    case ReadBill(_, _) => ReadStepsKeep(s, step);
    case WriteBill(a) => WriteBillKeeps(s, a);
    case LateCreate(order, payer, payee, amount) => LateCreateKeeps(s, order, payer, payee, amount);
    case LateCancel(order) => LateCancelKeeps(s, order);
    case ReadOrder(_) => ReadStepsKeep(s, step);
    case FetchBill(_) => ReadStepsKeep(s, step);
    case MarkPaid(y) => MarkPaidKeeps(s, y);
  }

  lemma {:induction false} RunsKeep(s: State, trace: seq<Step>)
    requires Inv(s)
    ensures Inv(Runs(s, trace))
    decreases |trace|
  {
    if trace != [] {
      StepKeeps(s, trace[0]);
      RunsKeep(Next(s, trace[0]), trace[1..]);
    }
  }
}
