// Spot orders: listings with stock, a stock ledger and orders in spotservice, the orders'
// bills in paymentservice. A local transaction holds the rows it locked while it calls the
// other service, so its steps interleave with everything that does not need those rows.
module SpotOrders {
  import opened Common
  import opened PaymentBills

  const MAX_STOCK: int := 999

  // stock is -1 while the listing is delisted.
  datatype Goods = Goods(seller: int, price: int, stock: int, closed: bool, version: nat)

  datatype OrderStatus = PendingPayment | Paid | OrderCompleted | Cancelled

  datatype Order = Order(
    purchaser: int, seller: int, listing: nat, quantity: int, unitPrice: int, total: int, status: OrderStatus,
    bill: Option<nat>, version: nat)

  datatype Reason = PublishEntry | OrderLock | OrderCancel | ManualAdjust

  datatype Entry = Entry(listing: nat, delta: int, reason: Reason, order: Option<nat>)

  // One line of a purchase. sameSecond is the outcome of comparing updated_at by the second.
  datatype Item = Item(listing: nat, quantity: int, sameSecond: bool)

  datatype Stage = ToRead | ToClose | ToCommit

  // An open transaction: what it would write is kept apart until it commits.
  datatype Tx =
    | CreateTx(purchaser: int, todo: seq<Item>, made: map<nat, Order>, stocks: map<nat, int>, entries: seq<Entry>,
        asking: Option<nat>)
    | CancelTx(order: nat, stage: Stage)
    | CompleteTx(order: nat, stage: Stage)
    | Over

  // A payer or payee request that has read its bill.
  datatype Act = Act(op: Op, bill: nat, seen: Bill, over: bool)

  // A reconciliation that has read an order, and perhaps its bill.
  datatype Sync = Sync(order: nat, bill: nat, total: int, seen: Option<Bill>)

  datatype State = State(
    goods: seq<Goods>, orders: map<nat, Order>, nextOrder: nat, ledger: seq<Entry>,
    bills: seq<Bill>, clock: nat, txs: seq<Tx>, acts: seq<Act>, syncs: seq<Sync>)

  datatype Step =
    // the seller
    | PublishGoods(seller: int, price: int, stock: int)
    | AdjustStock(caller: int, listing: nat, stock: int, version: nat)
    | SetPrice(caller: int, listing: nat, price: int, version: nat)
    | CloseGoods(caller: int, listing: nat, version: nat)
    // the purchaser
    | BeginCreate(purchaser: int, items: seq<Item>)
    | BeginCancel(user: int, order: nat, version: nat)
    | BeginComplete(user: int, order: nat, version: nat)
    // the open transactions
    | TakeItem(tx: nat) | AskBill(tx: nat) | ReadTxBill(tx: nat) | CloseTxBill(tx: nat)
    | Commit(tx: nat) | Rollback(tx: nat)
    // paymentservice
    | ReadBill(op: Op, bill: nat) | WriteBill(act: nat)
    // calls given up by a transaction that was rolled back, carried out after all
    | LateCreate(order: nat, payer: int, payee: int, amount: int) | LateCancel(order: nat)
    // reconciliation
    | ReadOrder(order: nat) | FetchBill(sync: nat) | MarkPaid(sync: nat)

  // ------------------------------------------------------------------ row locks

  predicate HoldsGoods(s: State, t: Tx, listing: nat) {
    match t
    case CreateTx(_, _, _, stocks, _, _) => listing in stocks
    case CancelTx(order, _) => order in s.orders && s.orders[order].listing == listing
    case CompleteTx(order, _) => order in s.orders && s.orders[order].listing == listing
    case Over => false
  }

  predicate HoldsOrder(t: Tx, order: nat) {
    match t
    case CancelTx(o, _) => o == order
    case CompleteTx(o, _) => o == order
    case _ => false
  }

  predicate GoodsFree(s: State, listing: nat) {
    forall i :: 0 <= i < |s.txs| ==> !HoldsGoods(s, s.txs[i], listing)
  }

  predicate GoodsFreeFor(s: State, tx: nat, listing: nat) {
    forall i :: 0 <= i < |s.txs| && i != tx ==> !HoldsGoods(s, s.txs[i], listing)
  }

  predicate OrderFree(s: State, order: nat) {
    forall i :: 0 <= i < |s.txs| ==> !HoldsOrder(s.txs[i], order)
  }

  // ------------------------------------------------------------------ the seller

  function DoPublish(s: State, seller: int, price: int, stock: int): State {
    if seller <= 0 || price <= 0 || stock <= 0 || stock > MAX_STOCK then s
    else s.(goods := s.goods + [Goods(seller, price, stock, false, s.clock)], clock := s.clock + 1,
            ledger := s.ledger + [Entry(|s.goods|, stock, PublishEntry, None)])
  }

  predicate Editable(s: State, caller: int, listing: nat, version: nat) {
    && listing < |s.goods| && GoodsFree(s, listing)
    && s.goods[listing].seller == caller && !s.goods[listing].closed && s.goods[listing].version == version
  }

  function DoAdjust(s: State, caller: int, listing: nat, stock: int, version: nat): State {
    if stock < -1 || stock > MAX_STOCK || !Editable(s, caller, listing, version) then s
    else if s.goods[listing].stock == -1 && stock == 0 then s
    else
      var g := s.goods[listing];
      s.(goods := s.goods[listing := g.(stock := stock, version := s.clock)], clock := s.clock + 1,
         ledger := s.ledger + [Entry(listing, Max(stock, 0) - Max(g.stock, 0), ManualAdjust, None)])
  }

  function DoSetPrice(s: State, caller: int, listing: nat, price: int, version: nat): State {
    if price <= 0 || !Editable(s, caller, listing, version) then s
    else s.(goods := s.goods[listing := s.goods[listing].(price := price, version := s.clock)], clock := s.clock + 1)
  }

  function DoCloseGoods(s: State, caller: int, listing: nat, version: nat): State {
    if !Editable(s, caller, listing, version) then s
    else s.(goods := s.goods[listing := s.goods[listing].(closed := true, version := s.clock)], clock := s.clock + 1)
  }

  // ------------------------------------------------------------------ creating orders

  function SetTx(s: State, tx: nat, t: Tx): State
    requires tx < |s.txs|
  {
    s.(txs := s.txs[tx := t])
  }

  function DoBeginCreate(s: State, purchaser: int, items: seq<Item>): State {
    if purchaser <= 0 || items == [] then s
    else s.(txs := s.txs + [CreateTx(purchaser, items, map[], map[], [], None)])
  }

  // The stock the transaction sees: its own uncommitted write, or the committed one.
  function SeenStock(s: State, stocks: map<nat, int>, listing: nat): int
    requires listing < |s.goods|
  {
    if listing in stocks then stocks[listing] else s.goods[listing].stock
  }

  predicate Buyable(s: State, stocks: map<nat, int>, item: Item) {
    && item.quantity > 0 && item.listing < |s.goods|
    && !s.goods[item.listing].closed && SeenStock(s, stocks, item.listing) >= 0 && item.sameSecond
    && SeenStock(s, stocks, item.listing) >= item.quantity
    && s.goods[item.listing].price * item.quantity <= INT32_MAX
  }

  function NewOrder(s: State, purchaser: int, item: Item): Order
    requires item.listing < |s.goods|
  {
    var g := s.goods[item.listing];
    Order(purchaser, g.seller, item.listing, item.quantity, g.price, g.price * item.quantity,
          if purchaser == g.seller then OrderCompleted else PendingPayment, None, s.clock)
  }

  // One item: lock the listing, check it, take the stock, insert the order and its ledger entry.
  function DoTakeItem(s: State, tx: nat): State {
    if tx >= |s.txs| || !s.txs[tx].CreateTx? || s.txs[tx].asking.Some? || s.txs[tx].todo == [] then s
    else
      var t := s.txs[tx];
      var item := t.todo[0];
      if !GoodsFreeFor(s, tx, item.listing) then s
      else if !Buyable(s, t.stocks, item) then SetTx(s, tx, Over)
      else
        var id := s.nextOrder;
        var order := NewOrder(s, t.purchaser, item);
        SetTx(s, tx, CreateTx(t.purchaser, t.todo[1..], t.made[id := order],
                              t.stocks[item.listing := SeenStock(s, t.stocks, item.listing) - item.quantity],
                              t.entries + [Entry(item.listing, -item.quantity, OrderLock, Some(id))],
                              if order.status == PendingPayment then Some(id) else None))
        .(nextOrder := id + 1, clock := s.clock + 1)
  }

  // The remote CreateBillForOrder and the local attach that follows it.
  function DoAskBill(s: State, tx: nat): State {
    if tx >= |s.txs| || !s.txs[tx].CreateTx? || s.txs[tx].asking.None? || s.txs[tx].asking.value !in s.txs[tx].made
    then s
    else
      var t := s.txs[tx];
      var id := t.asking.value;
      var o := t.made[id];
      var answer := CreateForOrder(s.bills, SpotOrderSource(id), o.purchaser, o.seller, o.total, s.clock);
      var asked := s.(bills := answer.1, clock := s.clock + 1);
      if answer.0.None? then SetTx(asked, tx, Over)
      else SetTx(asked, tx,
          CreateTx(t.purchaser, t.todo, t.made[id := o.(bill := answer.0, version := s.clock)],
                   t.stocks, t.entries, None))
  }

  function WithStocks(goods: seq<Goods>, stocks: map<nat, int>, now: nat): (r: seq<Goods>)
    ensures |r| == |goods|
    ensures forall i :: 0 <= i < |goods| ==>
              r[i] == if i in stocks then goods[i].(stock := stocks[i], version := now) else goods[i]
  {
    seq(|goods|,
        i requires 0 <= i < |goods| => if i in stocks then goods[i].(stock := stocks[i], version := now) else goods[i])
  }

  function CommitCreate(s: State, tx: nat): State
    requires tx < |s.txs| && s.txs[tx].CreateTx?
  {
    var t := s.txs[tx];
    if t.todo != [] || t.asking.Some? then s
    else SetTx(s, tx, Over).(goods := WithStocks(s.goods, t.stocks, s.clock), orders := s.orders + t.made,
                             ledger := s.ledger + t.entries, clock := s.clock + 1)
  }

  // ------------------------------------------------------------------ cancelling and completing

  predicate MayTouch(s: State, user: int, order: nat, version: nat) {
    && order in s.orders && OrderFree(s, order) && GoodsFree(s, s.orders[order].listing)
    && s.orders[order].purchaser == user && s.orders[order].version == version
  }

  function DoBeginCancel(s: State, user: int, order: nat, version: nat): State {
    if !MayTouch(s, user, order, version) || s.orders[order].status != PendingPayment then s
    else s.(txs := s.txs + [CancelTx(order, if s.orders[order].bill == None then ToCommit else ToRead)])
  }

  function DoBeginComplete(s: State, user: int, order: nat, version: nat): State {
    if !MayTouch(s, user, order, version) then s
    else if s.orders[order].status != PendingPayment && s.orders[order].status != Paid then s
    else s.(txs := s.txs + [CompleteTx(order, ToRead)])
  }

  // validateSpotOrderBill.
  predicate BillMatches(b: Bill, order: nat, total: int) {
    b.source == SpotOrderSource(order) && b.amountCents == total
  }

  // The transaction reads its order's bill from paymentservice.
  function DoReadTxBill(s: State, tx: nat): State {
    if tx >= |s.txs| then s
    else
      match s.txs[tx]
      case CancelTx(order, ToRead) =>
        if order !in s.orders then s
        else
          var o := s.orders[order];
          if o.bill.None? || o.bill.value >= |s.bills| || !BillMatches(s.bills[o.bill.value], order, o.total)
             || s.bills[o.bill.value].status == Completed
          then SetTx(s, tx, Over)
          else SetTx(s, tx, CancelTx(order, ToClose))
      case CompleteTx(order, ToRead) =>
        if order !in s.orders then s
        else
          var o := s.orders[order];
          if o.bill.None? || o.bill.value >= |s.bills| || !BillMatches(s.bills[o.bill.value], order, o.total)
             || s.bills[o.bill.value].status != Completed
          then SetTx(s, tx, Over)
          else SetTx(s, tx, CompleteTx(order, ToCommit))
      case _ => s
  }

  // The remote CancelBillBySource.
  function DoCloseTxBill(s: State, tx: nat): State {
    if tx >= |s.txs| || !s.txs[tx].CancelTx? || s.txs[tx].stage != ToClose || s.txs[tx].order !in s.orders then s
    else
      var order := s.txs[tx].order;
      var closed := CancelForOrder(s.bills, SpotOrderSource(order), s.orders[order].purchaser, s.clock);
      if closed.None? then SetTx(s, tx, Over)
      else SetTx(s, tx, CancelTx(order, ToCommit)).(bills := closed.value, clock := s.clock + 1)
  }

  // The stock goes back unless the listing has been delisted meanwhile.
  function CommitCancel(s: State, tx: nat): State
    requires tx < |s.txs| && s.txs[tx].CancelTx?
  {
    var order := s.txs[tx].order;
    if s.txs[tx].stage != ToCommit || order !in s.orders || s.orders[order].listing >= |s.goods| then s
    else
      var o := s.orders[order];
      var g := s.goods[o.listing];
      var cancelled := SetTx(s, tx, Over).(orders := s.orders[order := o.(status := Cancelled, version := s.clock)],
          clock := s.clock + 1);
      if g.stock < 0 then cancelled
      else cancelled.(goods := s.goods[o.listing := g.(stock := g.stock + o.quantity, version := s.clock)],
                      ledger := s.ledger + [Entry(o.listing, o.quantity, OrderCancel, Some(order))])
  }

  function CommitComplete(s: State, tx: nat): State
    requires tx < |s.txs| && s.txs[tx].CompleteTx?
  {
    var order := s.txs[tx].order;
    if s.txs[tx].stage != ToCommit || order !in s.orders then s
    else
      var completed := s.orders[order].(status := OrderCompleted, version := s.clock);
      SetTx(s, tx, Over).(orders := s.orders[order := completed], clock := s.clock + 1)
  }

  function DoCommit(s: State, tx: nat): State {
    if tx >= |s.txs| then s
    else
      match s.txs[tx]
      case CreateTx(_, _, _, _, _, _) => CommitCreate(s, tx)
      case CancelTx(_, _) => CommitCancel(s, tx)
      case CompleteTx(_, _) => CommitComplete(s, tx)
      case Over => s
  }

  // ------------------------------------------------------------------ bills and reconciliation

  function DoReadBill(s: State, op: Op, bill: nat): State {
    if bill < |s.bills| then s.(acts := s.acts + [Act(op, bill, s.bills[bill], false)]) else s
  }

  function DoWriteBill(s: State, a: nat): State {
    if a >= |s.acts| || s.acts[a].over || s.acts[a].bill >= |s.bills| then s
    else
      var act := s.acts[a];
      var over := s.(acts := s.acts[a := act.(over := true)]);
      if act.seen.status != act.op.From() then over
      else over.(bills := GuardedUpdate(s.bills, act.bill, act.seen.updatedAt, act.op.To(), s.clock),
          clock := s.clock + 1)
  }

  // No order and no open transaction has the id: it was given out to a purchase that was rolled back.
  predicate Abandoned(s: State, order: nat) {
    && order < s.nextOrder && order !in s.orders
    && forall i :: 0 <= i < |s.txs| && s.txs[i].CreateTx? ==> order !in s.txs[i].made
  }

  // A rolled back purchase asked for at most one bill of each id, so one that is there already was that call.
  function DoLateCreate(s: State, order: nat, payer: int, payee: int, amount: int): State {
    if !Abandoned(s, order) || exists b :: 0 <= b < |s.bills| && s.bills[b].source == SpotOrderSource(order) then s
    else s.(bills := CreateForOrder(s.bills, SpotOrderSource(order), payer, payee, amount, s.clock).1,
        clock := s.clock + 1)
  }

  // Which cancellations were rolled back is not kept: the call may arrive for any order, at any time.
  function DoLateCancel(s: State, order: nat): State {
    if order !in s.orders then s
    else
      var closed := CancelForOrder(s.bills, SpotOrderSource(order), s.orders[order].purchaser, s.clock);
      if closed.None? then s else s.(bills := closed.value, clock := s.clock + 1)
  }

  function DoReadOrder(s: State, order: nat): State {
    if order in s.orders && s.orders[order].status == PendingPayment && s.orders[order].bill.Some?
    then s.(syncs := s.syncs + [Sync(order, s.orders[order].bill.value, s.orders[order].total, None)])
    else s
  }

  function DoFetchBill(s: State, y: nat): State {
    if y >= |s.syncs| || s.syncs[y].bill >= |s.bills| then s
    else s.(syncs := s.syncs[y := s.syncs[y].(seen := Some(s.bills[s.syncs[y].bill]))])
  }

  // UPDATE ... SET status='paid' WHERE id AND payment_bill_id AND status='pending_payment'. It
  // waits for a transaction that holds the row.
  function DoMarkPaid(s: State, y: nat): State {
    if y >= |s.syncs| || s.syncs[y].seen.None? then s
    else
      var sync := s.syncs[y];
      if !BillMatches(sync.seen.value, sync.order, sync.total) || sync.seen.value.status != Completed then s
      else if sync.order !in s.orders || !OrderFree(s, sync.order) then s
      else
        var o := s.orders[sync.order];
        if o.bill != Some(sync.bill) || o.status != PendingPayment then s
        else s.(orders := s.orders[sync.order := o.(status := Paid, version := s.clock)], clock := s.clock + 1)
  }

  // ------------------------------------------------------------------ runs

  function Next(s: State, step: Step): State {
    match step
    case PublishGoods(seller, price, stock) => DoPublish(s, seller, price, stock)
    case AdjustStock(caller, listing, stock, version) => DoAdjust(s, caller, listing, stock, version)
    case SetPrice(caller, listing, price, version) => DoSetPrice(s, caller, listing, price, version)
    case CloseGoods(caller, listing, version) => DoCloseGoods(s, caller, listing, version)
    case BeginCreate(purchaser, items) => DoBeginCreate(s, purchaser, items)
    case BeginCancel(user, order, version) => DoBeginCancel(s, user, order, version)
    case BeginComplete(user, order, version) => DoBeginComplete(s, user, order, version)
    case TakeItem(tx) => DoTakeItem(s, tx)
    case AskBill(tx) => DoAskBill(s, tx)
    case ReadTxBill(tx) => DoReadTxBill(s, tx)
    case CloseTxBill(tx) => DoCloseTxBill(s, tx)
    case Commit(tx) => DoCommit(s, tx)
    case Rollback(tx) => if tx < |s.txs| then SetTx(s, tx, Over) else s
    case ReadBill(op, bill) => DoReadBill(s, op, bill)
    case WriteBill(a) => DoWriteBill(s, a)
    case LateCreate(order, payer, payee, amount) => DoLateCreate(s, order, payer, payee, amount)
    case LateCancel(order) => DoLateCancel(s, order)
    case ReadOrder(order) => DoReadOrder(s, order)
    case FetchBill(y) => DoFetchBill(s, y)
    case MarkPaid(y) => DoMarkPaid(s, y)
  }

  const EMPTY := State([], map[], 0, [], [], 0, [], [], [])

  function Runs(s: State, trace: seq<Step>): State
    decreases |trace|
  {
    if trace == [] then s else Runs(Next(s, trace[0]), trace[1..])
  }
}
