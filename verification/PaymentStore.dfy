// The payment_bill table as paymentservice works on it: loops over locked rows and guarded
// updates, each proved against the table functions the protocol models are built from.
module PaymentStore {
  import opened Common
  import opened Split
  import opened PaymentBills
  import opened WestPocket

  class BillTable {
    var bills: seq<Bill>
    var clock: nat

    constructor ()
      ensures bills == [] && clock == 0
    {
      bills, clock := [], 0;
    }

    // GetWestPocketBill: the first row of a source owed by a payer.
    method Find(source: Source, payer: int) returns (id: Option<nat>)
      ensures id == FindBill(bills, source, payer)
    {
      id := None;
      var i := 0;
      while i < |bills| && id == None
        invariant 0 <= i <= |bills|
        invariant id == FindBill(bills[..i], source, payer)
      {
        assert bills[..i + 1][..i] == bills[..i];
        if bills[i].source == source && bills[i].payerId == payer {
          id := Some(i);
        }
        i := i + 1;
      }
      FoundEarly(bills, i, source, payer);
    }

    // createWestPocketBill: the state check, the search for an earlier bill and the insert
    // run under one source lock.
    method Create(pocket: Pocket, payer: int, payee: int, amount: int) returns (reply: Reply)
      modifies this
      ensures if BillAllowed(pocket, payer, payee, amount, Publishing)
              then (reply, bills) == CreateOnce(old(bills), WestPocketSource(pocket.id), payer, payee, amount,
                  old(clock))
              else reply == Failed && bills == old(bills)
      ensures clock == if |bills| == |old(bills)| then old(clock) else old(clock) + 1
    {
      var allowed := Validate(pocket, payer, payee, amount, Publishing);
      if !allowed { return Failed; }
      var existing := Find(WestPocketSource(pocket.id), payer);
      if existing.Some? {
        var b := bills[existing.value];
        if b.payeeId != payee || b.amountCents != amount || b.status == Closed { return Failed; }
        return Created(existing.value, b);
      }
      var b := Bill(WestPocketSource(pocket.id), payer, payee, amount, Unpaid, clock);
      reply := Created(|bills|, b);
      bills, clock := bills + [b], clock + 1;
    }

    // CancelWestPocketBillsIfUnpaid: the first row that is neither unpaid nor closed stops it.
    method CancelUnpaid(source: Source) returns (reply: Reply)
      modifies this
      ensures (reply, bills) == CancelIfUnpaid(old(bills), source, old(clock))
      ensures clock == if reply == Refused then old(clock) else old(clock) + 1
    {
      var i := 0;
      while i < |bills|
        invariant 0 <= i <= |bills| && bills == old(bills) && clock == old(clock)
        invariant !PaymentStarted(bills[..i], source)
      {
        if bills[i].source == source && bills[i].status != Unpaid && bills[i].status != Closed {
          assert PaymentStarted(bills, source);
          return Refused;
        }
        i := i + 1;
      }
      assert bills[..i] == bills;
      bills, clock := CloseBills(bills, source, None, clock), clock + 1;
      reply := AllClosed;
    }

    // UpdateBillStatus: the version and the closed status are part of the WHERE clause.
    method UpdateStatus(id: nat, expected: nat, status: BillStatus) returns (affected: bool)
      requires id < |bills|
      modifies this
      ensures bills == GuardedUpdate(old(bills), id, expected, status, old(clock)) && clock == old(clock) + 1
      ensures affected <==> old(bills)[id].updatedAt == expected && old(bills)[id].status != Closed
    {
      affected := bills[id].updatedAt == expected && bills[id].status != Closed;
      if affected {
        bills := bills[id := bills[id].(status := status, updatedAt := clock)];
      }
      clock := clock + 1;
    }
  }

  // validateWestPocketBill: the member loop stops at the first match.
  method Validate(pocket: Pocket, payer: int, payee: int, amount: int, status: PocketStatus) returns (ok: bool)
    ensures ok == BillAllowed(pocket, payer, payee, amount, status)
  {
    if pocket.status != status || pocket.ownerId != payee || payer == payee || amount <= 0 { return false; }
    for i := 0 to |pocket.members|
      invariant forall k :: 0 <= k < i ==>
                !(pocket.members[k].userId == payer && pocket.members[k].shareCents == amount)
    {
      var m := pocket.members[i];
      if m.userId == payer && m.shareCents == amount && m.userId != pocket.ownerId { return true; }
    }
    return false;
  }

  lemma {:induction false} FoundEarly(bills: seq<Bill>, i: nat, source: Source, payer: int)
    requires i <= |bills| && (i == |bills| || FindBill(bills[..i], source, payer).Some?)
    ensures FindBill(bills, source, payer) == FindBill(bills[..i], source, payer)
  {
    if i == |bills| {
      assert bills[..i] == bills;
    } else {
      var front := bills[..|bills| - 1];
      assert front[..i] == bills[..i];
      FoundEarly(front, i, source, payer);
    }
  }
}
