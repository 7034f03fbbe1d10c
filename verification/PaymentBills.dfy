// The payment_bill table of paymentservice. Rows are never deleted, so a bill's id is its
// position. updatedAt stands for the updated_at column: every write takes a fresh value.
module PaymentBills {
  import opened Common

  datatype Source =
    | NoSource | WestPocketSource(pocketId: int) | SpotOrderSource(orderId: int) | ErrandTaskSource(taskId: int)

  datatype BillStatus = Unpaid | Submitted | Completed | Closed

  datatype Bill = Bill(source: Source, payerId: int, payeeId: int, amountCents: int, status: BillStatus, updatedAt: nat)

  // ------------------------------------------------------------------ queries and updates

  // The first bill of a source owed by a payer.
  function FindBill(bills: seq<Bill>, source: Source, payer: int): (r: Option<nat>)
    ensures r.Some? ==> r.value < |bills| && bills[r.value].source == source && bills[r.value].payerId == payer
    ensures r.None? ==> forall i :: 0 <= i < |bills| ==> !(bills[i].source == source && bills[i].payerId == payer)
  {
    if bills == [] then None
    else
      var last := |bills| - 1;
      var found := FindBill(bills[..last], source, payer);
      if found.Some? then found
      else if bills[last].source == source && bills[last].payerId == payer then Some(last)
      else None
  }

  // The bill one user sees for an order of the generic sources: closed bills do not count.
  predicate Open(b: Bill) {
    b.status == Unpaid || b.status == Submitted
  }

  predicate PaymentStarted(bills: seq<Bill>, source: Source) {
    exists i :: 0 <= i < |bills| && bills[i].source == source
      && (bills[i].status == Submitted || bills[i].status == Completed)
  }

  // The rows of a source, of one payer when a payer is given.
  predicate Concerns(b: Bill, source: Source, payer: Option<int>) {
    b.source == source && (payer.Some? ==> b.payerId == payer.value)
  }

  // UPDATE ... SET status='closed' WHERE source [AND payer] AND status IN ('unpaid','submitted').
  function CloseBills(bills: seq<Bill>, source: Source, payer: Option<int>, now: nat): (r: seq<Bill>)
    ensures |r| == |bills|
    ensures forall i :: 0 <= i < |bills| ==>
              r[i] == if Concerns(bills[i], source, payer) && Open(bills[i])
              then bills[i].(status := Closed, updatedAt := now) else bills[i]
  {
    seq(|bills|, i requires 0 <= i < |bills| =>
      if Concerns(bills[i], source, payer) && Open(bills[i]) then bills[i].(status := Closed, updatedAt := now)
      else bills[i])
  }

  // UPDATE ... WHERE id AND updated_at = expected AND status <> 'closed'.
  function GuardedUpdate(bills: seq<Bill>, id: nat, expected: nat, status: BillStatus, now: nat): seq<Bill>
    requires id < |bills|
  {
    if bills[id].updatedAt == expected && bills[id].status != Closed
    then bills[id := bills[id].(status := status, updatedAt := now)]
    else bills
  }

  // What paymentservice answers to a create or a cancel call.
  datatype Reply = Created(billId: nat, seen: Bill) | AllClosed | Refused | Failed

  // createWestPocketBill after its state check: the answer and the table it leaves.
  function CreateOnce(bills: seq<Bill>, source: Source, payer: int, payee: int, amount: int,
        now: nat): (Reply, seq<Bill>) {
    var existing := FindBill(bills, source, payer);
    if existing.Some? then
      var b := bills[existing.value];
      if b.payeeId == payee && b.amountCents == amount && b.status != Closed
      then (Created(existing.value, b), bills)
      else (Failed, bills)
    else
      var b := Bill(source, payer, payee, amount, Unpaid, now);
      (Created(|bills|, b), bills + [b])
  }

  // CancelWestPocketBillsIfUnpaid after its state check: every bill or none.
  function CancelIfUnpaid(bills: seq<Bill>, source: Source, now: nat): (Reply, seq<Bill>) {
    if PaymentStarted(bills, source) then (Refused, bills) else (AllClosed, CloseBills(bills, source, None, now))
  }

  // GetBillBySource: a closed bill does not count.
  function FindLive(bills: seq<Bill>, source: Source, payer: int): (r: Option<nat>)
    ensures r.Some? ==>
              r.value < |bills| && Concerns(bills[r.value], source, Some(payer)) && bills[r.value].status != Closed
    ensures r.None? ==> forall i :: 0 <= i < |bills| ==>
              !Concerns(bills[i], source, Some(payer)) || bills[i].status == Closed
  {
    if bills == [] then None
    else
      var last := |bills| - 1;
      var found := FindLive(bills[..last], source, payer);
      if found.Some? then found
      else if Concerns(bills[last], source, Some(payer)) && bills[last].status != Closed then Some(last)
      else None
  }

  // CreateBillForOrder: the id it answers, or none for an error, and the table it leaves.
  function CreateForOrder(bills: seq<Bill>, source: Source, payer: int, payee: int, amount: int,
        now: nat): (Option<nat>, seq<Bill>) {
    if payer <= 0 || payee <= 0 || amount < 0 || payer == payee then (None, bills)
    else
      var existing := FindLive(bills, source, payer);
      if existing.Some? then
        var b := bills[existing.value];
        (if b.payeeId == payee && b.amountCents == amount then existing else None, bills)
      else (Some(|bills|), bills + [Bill(source, payer, payee, amount, Unpaid, now)])
  }

  predicate AnyCompleted(bills: seq<Bill>, source: Source, payer: int) {
    exists i :: 0 <= i < |bills| && Concerns(bills[i], source, Some(payer)) && bills[i].status == Completed
  }

  // CancelBillBySource for a spot order: refused once the payment is confirmed.
  function CancelForOrder(bills: seq<Bill>, source: Source, payer: int, now: nat): Option<seq<Bill>> {
    if AnyCompleted(bills, source, payer) then None else Some(CloseBills(bills, source, Some(payer), now))
  }

  // Rows are only added. A written bill keeps its columns and takes a version nobody has seen;
  // a completed bill and a closed one are never written again.
  ghost predicate BillsGrow(before: seq<Bill>, after: seq<Bill>, clock: nat) {
    && |before| <= |after|
    && forall b :: 0 <= b < |before| ==> BillGrows(before[b], after[b], clock)
  }

  ghost predicate BillGrows(b: Bill, after: Bill, clock: nat) {
    || after == b
    || (&& after == b.(status := after.status, updatedAt := after.updatedAt)
        && clock <= after.updatedAt && b.status != Completed && b.status != Closed)
  }

  // What a user may do to a bill, as the status it needs and the status it leaves.
  datatype Op = Pay | Confirm | SendBack | AddSerial {
    function From(): BillStatus {
      match this
      case Pay => Unpaid
      case Confirm => Submitted
      case SendBack => Submitted
      case AddSerial => Submitted
    }

    function To(): BillStatus {
      match this
      case Pay => Submitted
      case Confirm => Completed
      case SendBack => Unpaid
      case AddSerial => Submitted
    }
  }
}
