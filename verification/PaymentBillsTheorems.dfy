// The bill table under any sequence of requests: creates, cancellations and writes by users who read a row at
// any earlier time. What holds of it however the requests of all services interleave.
module PaymentBillsTheorems {
  import opened Common
  import opened PaymentBills

  // A row as a user saw it.
  datatype Sight = Sight(bill: nat, seen: Bill)

  datatype Table = Table(bills: seq<Bill>, clock: nat, sights: seq<Sight>)

  datatype Request =
    | Create(source: Source, payer: int, payee: int, amount: int)
    | CancelPocket(pocketId: int) | CancelOrder(orderId: int, payer: int) | CancelTask(taskId: int)
    | Look(bill: nat) | Write(sight: nat, op: Op)

  const NO_BILLS := Table([], 0, [])

  // The id a create call answers, if it succeeds.
  function Answer(t: Table, r: Request): Option<nat> {
    if !r.Create? || r.source.NoSource? then None
    else if r.source.WestPocketSource? then
      var reply := CreateOnce(t.bills, r.source, r.payer, r.payee, r.amount, t.clock).0;
      if reply.Created? then Some(reply.billId) else None
    else CreateForOrder(t.bills, r.source, r.payer, r.payee, r.amount, t.clock).0
  }

  // The rows a request leaves.
  function Rows(t: Table, r: Request): seq<Bill> {
    match r
    case Create(source, payer, payee, amount) =>
      if source.NoSource? then t.bills
      else if source.WestPocketSource? then CreateOnce(t.bills, source, payer, payee, amount, t.clock).1
      else CreateForOrder(t.bills, source, payer, payee, amount, t.clock).1
    case CancelPocket(pocketId) => CancelIfUnpaid(t.bills, WestPocketSource(pocketId), t.clock).1
    case CancelOrder(orderId, payer) =>
      var after := CancelForOrder(t.bills, SpotOrderSource(orderId), payer, t.clock);
      if after.Some? then after.value else t.bills
    case CancelTask(taskId) => CloseBills(t.bills, ErrandTaskSource(taskId), None, t.clock)
    case Look(bill) => t.bills
    case Write(k, op) =>
      if k >= |t.sights| || t.sights[k].bill >= |t.bills| || t.sights[k].seen.status != op.From() then t.bills
      else GuardedUpdate(t.bills, t.sights[k].bill, t.sights[k].seen.updatedAt, op.To(), t.clock)
  }

  function Serve(t: Table, r: Request): Table {
    Table(Rows(t, r), t.clock + 1,
          if r.Look? && r.bill < |t.bills| then t.sights + [Sight(r.bill, t.bills[r.bill])] else t.sights)
  }

  function ServeAll(t: Table, requests: seq<Request>): Table
    decreases |requests|
  {
    if requests == [] then t else ServeAll(Serve(t, requests[0]), requests[1..])
  }

  // ------------------------------------------------------------------ the invariant

  predicate SameDebt(a: Bill, b: Bill) {
    a.source == b.source && a.payerId == b.payerId
  }

  ghost predicate SightOk(t: Table, v: Sight) {
    && v.bill < |t.bills| && v.seen.updatedAt <= t.bills[v.bill].updatedAt
    && (v.seen.updatedAt == t.bills[v.bill].updatedAt ==> v.seen == t.bills[v.bill])
  }

  // At most one live bill for a debt, and for a pocket's debt at most one bill ever.
  ghost predicate OneBillEach(bills: seq<Bill>) {
    forall a, b :: 0 <= a < b < |bills| && SameDebt(bills[a], bills[b]) ==>
      !bills[a].source.WestPocketSource? && (bills[a].status == Closed || bills[b].status == Closed)
  }

  ghost predicate TableInv(t: Table) {
    && OneBillEach(t.bills)
    && (forall b :: 0 <= b < |t.bills| ==> t.bills[b].updatedAt < t.clock)
    && (forall k :: 0 <= k < |t.sights| ==> SightOk(t, t.sights[k]))
  }

  // ------------------------------------------------------------------ one request

  // A new row is the only one of its debt, or the only live one where the debt is not a pocket's.
  lemma AppendOk(bills: seq<Bill>, b: Bill)
    requires OneBillEach(bills)
    requires forall a :: 0 <= a < |bills| && SameDebt(bills[a], b) ==>
              !b.source.WestPocketSource? && bills[a].status == Closed
    ensures OneBillEach(bills + [b])
  {
  }

  lemma RowsGrow(t: Table, r: Request)
    requires TableInv(t)
    ensures BillsGrow(t.bills, Rows(t, r), t.clock)
    ensures forall b :: 0 <= b < |Rows(t, r)| ==> Rows(t, r)[b].updatedAt <= t.clock
  {
    match r
    case Write(k, op) =>
      if k < |t.sights| && t.sights[k].bill < |t.bills| && t.sights[k].seen.status == op.From() {
        assert SightOk(t, t.sights[k]);
      }
    case _ =>
  }

  lemma GrowKeepsDebts(before: seq<Bill>, after: seq<Bill>, clock: nat)
    requires OneBillEach(before) && BillsGrow(before, after, clock) && |after| == |before|
    ensures OneBillEach(after)
  {
    forall a, b | 0 <= a < b < |after| && SameDebt(after[a], after[b])
      ensures !after[a].source.WestPocketSource? && (after[a].status == Closed || after[b].status == Closed)
    {
      assert BillGrows(before[a], after[a], clock) && BillGrows(before[b], after[b], clock);
      assert SameDebt(before[a], before[b]);
    }
  }

  lemma CreateKeepsDebts(t: Table, r: Request)
    requires OneBillEach(t.bills) && r.Create?
    ensures OneBillEach(Rows(t, r))
  {
    var b := Bill(r.source, r.payer, r.payee, r.amount, Unpaid, t.clock);
    if Rows(t, r) != t.bills {
      assert Rows(t, r) == t.bills + [b];
      forall a | 0 <= a < |t.bills| && SameDebt(t.bills[a], b)
        ensures !b.source.WestPocketSource? && t.bills[a].status == Closed
      {
        assert Concerns(t.bills[a], r.source, Some(r.payer));
      }
      AppendOk(t.bills, b);
    }
  }

  lemma ServeKeeps(t: Table, r: Request)
    requires TableInv(t)
    ensures TableInv(Serve(t, r))
  {
    var v := Serve(t, r);
    RowsGrow(t, r);
    if r.Create? { CreateKeepsDebts(t, r); } else { GrowKeepsDebts(t.bills, v.bills, t.clock); }
    forall k | 0 <= k < |v.sights| ensures SightOk(v, v.sights[k]) {
      if k < |t.sights| {
        assert SightOk(t, t.sights[k]);
        assert BillGrows(t.bills[t.sights[k].bill], v.bills[t.sights[k].bill], t.clock);
      }
    }
  }

  // ------------------------------------------------------------------ every sequence

  lemma {:induction false} ServeAllKeeps(t: Table, requests: seq<Request>)
    requires TableInv(t)
    ensures TableInv(ServeAll(t, requests))
    decreases |requests|
  {
    if requests != [] {
      ServeKeeps(t, requests[0]);
      ServeAllKeeps(Serve(t, requests[0]), requests[1..]);
    }
  }

  // However creates are repeated, retried or raced: a debt never has two live bills, and a pocket's debt never
  // has two bills at all.
  lemma NeverTwoBills(requests: seq<Request>, a: nat, b: nat)
    requires var t := ServeAll(NO_BILLS, requests);
             a < |t.bills| && b < |t.bills| && a != b && SameDebt(t.bills[a], t.bills[b])
    ensures var t := ServeAll(NO_BILLS, requests);
            !t.bills[a].source.WestPocketSource? && (t.bills[a].status == Closed || t.bills[b].status == Closed)
  {
    ServeAllKeeps(NO_BILLS, requests);
    var t := ServeAll(NO_BILLS, requests);
    if a < b { assert SameDebt(t.bills[a], t.bills[b]); } else { assert SameDebt(t.bills[b], t.bills[a]); }
  }

  // What any sequence leaves of a row: its columns, and all of it once it is completed or closed; and its
  // version is the same only if the row is.
  ghost predicate Outlives(b: Bill, after: Bill) {
    && after == b.(status := after.status, updatedAt := after.updatedAt)
    && b.updatedAt <= after.updatedAt && (after.updatedAt == b.updatedAt ==> after == b)
    && (b.status == Completed || b.status == Closed ==> after == b)
  }

  lemma {:induction false} RowOutlives(t: Table, requests: seq<Request>, b: nat)
    requires TableInv(t) && b < |t.bills|
    ensures b < |ServeAll(t, requests).bills| && Outlives(t.bills[b], ServeAll(t, requests).bills[b])
    decreases |requests|
  {
    if requests != [] {
      var v := Serve(t, requests[0]);
      RowsGrow(t, requests[0]);
      assert BillGrows(t.bills[b], v.bills[b], t.clock);
      ServeKeeps(t, requests[0]);
      RowOutlives(v, requests[1..], b);
    }
  }

  // Once the bill of a pocket's member is closed, no sequence of requests gives the member a live one.
  lemma ClosedForGood(t: Table, requests: seq<Request>, b: nat)
    requires TableInv(t) && b < |t.bills| && t.bills[b].source.WestPocketSource? && t.bills[b].status == Closed
    ensures FindLive(ServeAll(t, requests).bills, t.bills[b].source, t.bills[b].payerId).None?
  {
    var v := ServeAll(t, requests);
    RowOutlives(t, requests, b);
    ServeAllKeeps(t, requests);
    var found := FindLive(v.bills, t.bills[b].source, t.bills[b].payerId);
    if found.Some? && found.value < b { assert SameDebt(v.bills[found.value], v.bills[b]); }
    if found.Some? && b < found.value { assert SameDebt(v.bills[b], v.bills[found.value]); }
  }

  // A create call repeated any number of requests later answers the first bill again and adds no row, as long
  // as that bill is not closed. Once it is closed, a pocket's create fails and adds no row.
  lemma RepeatedCreate(t: Table, r: Request, requests: seq<Request>)
    requires TableInv(t) && Answer(t, r).Some?
    ensures var id, v := Answer(t, r).value, ServeAll(Serve(t, r), requests);
            && id < |v.bills| && v.bills[id].source == r.source && v.bills[id].payerId == r.payer
            && v.bills[id].payeeId == r.payee && v.bills[id].amountCents == r.amount
            && (v.bills[id].status != Closed ==> Answer(v, r) == Some(id) && Rows(v, r) == v.bills)
            && (v.bills[id].status == Closed && r.source.WestPocketSource? ==>
                  Answer(v, r) == None && Rows(v, r) == v.bills)
  {
    var id, v := Answer(t, r).value, ServeAll(Serve(t, r), requests);
    FirstAnswer(t, r);
    ServeKeeps(t, r);
    RowOutlives(Serve(t, r), requests, id);
    ServeAllKeeps(Serve(t, r), requests);
    SecondAnswer(v, r, id);
  }

  // A row that stands in the way of a second one: any of the same pocket and payer, and a live one of an order.
  predicate InTheWay(b: Bill, source: Source, payer: int) {
    b.source == source && b.payerId == payer && (source.WestPocketSource? || b.status != Closed)
  }

  // What a create call does and answers: it is refused for an order without two different users or with a negative
  // amount; a row that stands in the way is its answer if it is live and says the same, and otherwise it fails; and
  // if there is none, exactly the unpaid bill asked for is added.
  lemma CreateIff(t: Table, source: Source, payer: int, payee: int, amount: int)
    requires TableInv(t) && !source.NoSource?
    ensures var r := Create(source, payer, payee, amount);
            var after, answer := Serve(t, r).bills, Answer(t, r);
            if !source.WestPocketSource? && (payer <= 0 || payee <= 0 || amount < 0 || payer == payee)
            then after == t.bills && answer == None
            else
              && (forall b :: 0 <= b < |t.bills| && InTheWay(t.bills[b], source, payer) ==>
                    && after == t.bills
                    && answer == if t.bills[b].status != Closed && t.bills[b].payeeId == payee
                                    && t.bills[b].amountCents == amount then Some(b) else None)
              && ((forall b :: 0 <= b < |t.bills| ==> !InTheWay(t.bills[b], source, payer)) ==>
                    && answer == Some(|t.bills|)
                    && after == t.bills + [Bill(source, payer, payee, amount, Unpaid, t.clock)])
  {
    forall a, b | 0 <= a < b < |t.bills| && InTheWay(t.bills[a], source, payer)
      ensures !InTheWay(t.bills[b], source, payer)
    {
      assert SameDebt(t.bills[a], t.bills[b]) || !InTheWay(t.bills[b], source, payer);
    }
  }

  // Cancelling a task closes its bills that are not completed, and touches no other.
  lemma CancelTaskCloses(t: Table, taskId: int)
    ensures var after := Serve(t, CancelTask(taskId)).bills;
            && |after| == |t.bills|
            && forall b :: 0 <= b < |t.bills| ==>
                 var bill := t.bills[b];
                 after[b] == if bill.source == ErrandTaskSource(taskId) && bill.status in {Unpaid, Submitted}
                             then bill.(status := Closed, updatedAt := t.clock) else bill
  {
  }

  lemma FirstAnswer(t: Table, r: Request)
    requires Answer(t, r).Some?
    ensures var id, v := Answer(t, r).value, Serve(t, r);
            && id < |v.bills| && v.bills[id].source == r.source && v.bills[id].payerId == r.payer
            && v.bills[id].payeeId == r.payee && v.bills[id].amountCents == r.amount
            && !r.source.NoSource? && (!r.source.WestPocketSource? ==>
                  r.payer > 0 && r.payee > 0 && r.amount >= 0 && r.payer != r.payee)
  {
  }

  lemma SecondAnswer(v: Table, r: Request, id: nat)
    requires TableInv(v) && r.Create? && id < |v.bills| && v.bills[id].source == r.source
    requires v.bills[id].payerId == r.payer
    requires v.bills[id].payeeId == r.payee && v.bills[id].amountCents == r.amount
    requires !r.source.NoSource?
    requires (!r.source.WestPocketSource? ==> r.payer > 0 && r.payee > 0 && r.amount >= 0 && r.payer != r.payee)
    ensures v.bills[id].status != Closed ==> Answer(v, r) == Some(id) && Rows(v, r) == v.bills
    ensures v.bills[id].status == Closed && r.source.WestPocketSource? ==> Answer(v, r) == None && Rows(v, r) == v.bills
  {
    var found := if r.source.WestPocketSource? then FindBill(v.bills, r.source, r.payer)
    else FindLive(v.bills, r.source, r.payer);
    assert Concerns(v.bills[id], r.source, Some(r.payer));
    if found.Some? && found.value < id { assert SameDebt(v.bills[found.value], v.bills[id]); }
    if found.Some? && id < found.value { assert SameDebt(v.bills[id], v.bills[found.value]); }
  }

  // A user who read a row before somebody else wrote or closed it never writes it, whatever happens in between.
  lemma StaleNeverWrites(t: Table, requests: seq<Request>, k: nat, op: Op)
    requires TableInv(t) && k < |t.sights| && t.sights[k].seen.updatedAt < t.bills[t.sights[k].bill].updatedAt
    ensures Rows(ServeAll(t, requests), Write(k, op)) == ServeAll(t, requests).bills
  {
    var v := ServeAll(t, requests);
    assert SightOk(t, t.sights[k]);
    RowOutlives(t, requests, t.sights[k].bill);
    SightsStay(t, requests, k);
    StaleWrite(v, k, op);
  }

  lemma StaleWrite(v: Table, k: nat, op: Op)
    requires k < |v.sights| && v.sights[k].bill < |v.bills|
    requires v.bills[v.sights[k].bill].updatedAt != v.sights[k].seen.updatedAt
    ensures Rows(v, Write(k, op)) == v.bills
  {
  }

  lemma {:induction false} SightsStay(t: Table, requests: seq<Request>, k: nat)
    requires k < |t.sights|
    ensures k < |ServeAll(t, requests).sights| && ServeAll(t, requests).sights[k] == t.sights[k]
    decreases |requests|
  {
    if requests != [] {
      SightsStay(Serve(t, requests[0]), requests[1..], k);
    }
  }

  // ------------------------------------------------------------------ cancelling

  // Two tables that differ only by rows of one source and payer.
  ghost predicate OnlyTouches(before: seq<Bill>, after: seq<Bill>, source: Source, payer: Option<int>) {
    |after| == |before|
    && forall i :: 0 <= i < |before| && !Concerns(before[i], source, payer) ==> after[i] == before[i]
  }

  // Cancelling an order's bill is refused exactly when its payment was confirmed; otherwise the payer is left
  // without a live bill for the order, and a second cancellation changes nothing more.
  lemma CancelForOrderIff(bills: seq<Bill>, source: Source, payer: int, now: nat, later: nat)
    ensures CancelForOrder(bills, source, payer, now).None? <==>
      exists i :: 0 <= i < |bills| && Concerns(bills[i], source, Some(payer)) && bills[i].status == Completed
    ensures CancelForOrder(bills, source, payer, now).Some? ==>
      var after := CancelForOrder(bills, source, payer, now).value;
      && OnlyTouches(bills, after, source, Some(payer))
      && FindLive(after, source, payer).None?
      && CancelForOrder(after, source, payer, later) == Some(after)
  {
    if CancelForOrder(bills, source, payer, now).Some? {
      var after := CancelForOrder(bills, source, payer, now).value;
      forall i | 0 <= i < |after| && Concerns(after[i], source, Some(payer)) ensures after[i].status == Closed {
        assert Concerns(bills[i], source, Some(payer));
      }
      assert CloseBills(after, source, Some(payer), later) == after;
    }
  }

  // Cancelling a pocket is refused exactly when somebody has paid, and then no row changes. Otherwise it closes
  // every bill of the pocket and no other, and over every sequence of requests those bills stay closed and
  // their payers without a live one.
  lemma CancelPocketIff(t: Table, pocketId: int, requests: seq<Request>, b: nat)
    requires TableInv(t) && b < |t.bills|
    ensures var source, after := WestPocketSource(pocketId), Serve(t, CancelPocket(pocketId));
            var started := exists i :: 0 <= i < |t.bills| && t.bills[i].source == source
                                       && t.bills[i].status in {Submitted, Completed};
            && (started ==> after.bills == t.bills)
            && (!started ==>
                  && OnlyTouches(t.bills, after.bills, source, None)
                  && (t.bills[b].source == source ==>
                        after.bills[b].status == Closed
                        && b < |ServeAll(after, requests).bills| && ServeAll(after, requests).bills[b] == after.bills[b]
                        && FindLive(ServeAll(after, requests).bills, source, t.bills[b].payerId).None?))
  {
    var source, after := WestPocketSource(pocketId), Serve(t, CancelPocket(pocketId));
    if !PaymentStarted(t.bills, source) && t.bills[b].source == source {
      assert Concerns(t.bills[b], source, None);
      ServeKeeps(t, CancelPocket(pocketId));
      RowOutlives(after, requests, b);
      ClosedForGood(after, requests, b);
    }
  }

  // ------------------------------------------------------------------ who moves a bill

  predicate WritesBill(t: Table, r: Request, b: nat, op: Op) {
    r.Write? && r.sight < |t.sights| && t.sights[r.sight].bill == b && r.op == op
  }

  predicate Cancels(r: Request) {
    r.CancelPocket? || r.CancelOrder? || r.CancelTask?
  }

  // A bill is submitted only by its payment, completed only by its confirmation and sent back only by that request;
  // it is closed only by a cancellation. No other request, such as adding a serial number, changes its status.
  lemma OnlyItsRequestMoves(t: Table, r: Request, b: nat)
    requires TableInv(t) && b < |t.bills|
    ensures b < |Serve(t, r).bills|
    ensures match (t.bills[b].status, Serve(t, r).bills[b].status)
            case (Unpaid, Submitted) => WritesBill(t, r, b, Pay)
            case (Submitted, Completed) => WritesBill(t, r, b, Confirm)
            case (Submitted, Unpaid) => WritesBill(t, r, b, SendBack)
            case (Unpaid, Closed) => Cancels(r)
            case (Submitted, Closed) => Cancels(r)
            case (from, to) => from == to
  {
    RowsGrow(t, r);
  }

  // A user who has just read the row and finds the status the request is for writes it: paying submits, confirming
  // completes, sending back reopens and a serial number leaves it submitted, each under a new version.
  lemma FreshWrite(t: Table, b: nat, op: Op)
    requires TableInv(t) && b < |t.bills|
    requires t.bills[b].status == if op.Pay? then Unpaid else Submitted
    ensures var v := ServeAll(t, [Look(b), Write(|t.sights|, op)]);
            && |v.bills| == |t.bills| && (forall c :: 0 <= c < |t.bills| && c != b ==> v.bills[c] == t.bills[c])
            && v.bills[b] == t.bills[b].(status := v.bills[b].status, updatedAt := v.bills[b].updatedAt)
            && v.bills[b].updatedAt > t.bills[b].updatedAt
            && v.bills[b].status == match op case Pay => Submitted case Confirm => Completed
                                             case SendBack => Unpaid case AddSerial => Submitted
  {
    var look, write := Look(b), Write(|t.sights|, op);
    assert [look, write][1..] == [write] && [write][1..] == [];
    assert ServeAll(Serve(t, look), [write]) == Serve(Serve(t, look), write);
    var u := Serve(t, look);
    assert u.bills == t.bills && u.sights[|t.sights|] == Sight(b, t.bills[b]);
    FreshRow(u, |t.sights|, b, op);
  }

  lemma FreshRow(u: Table, k: nat, b: nat, op: Op)
    requires b < |u.bills| && k < |u.sights| && u.sights[k] == Sight(b, u.bills[b])
    requires u.bills[b].status == if op.Pay? then Unpaid else Submitted
    ensures Rows(u, Write(k, op)) == u.bills[b := u.bills[b].(
              status := match op case Pay => Submitted case Confirm => Completed case SendBack => Unpaid
                                 case AddSerial => Submitted,
              updatedAt := u.clock)]
  {
  }
}
