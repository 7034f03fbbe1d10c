// Row-level operations of spotservice: the stock of one listing together with its ledger, and
// the keyset scan that reconciles pending orders batch by batch.
module SpotOrderStore {
  import opened Common
  import opened PaymentBills
  import opened SpotOrders
  import opened SpotOrdersSafety

  // One listing and its ledger, updated together in a transaction.
  class Listing {
    var stock: int
    var closed: bool
    var ledger: seq<Entry>
    const id: nat

    ghost predicate Balanced()
      reads this
    {
      stock >= -1 && Max(stock, 0) == SumDeltas(ledger, id)
    }

    // CreateSpotGoodsTx.
    constructor (id: nat, stock: int)
      requires 0 < stock <= MAX_STOCK
      ensures Balanced() && this.id == id && this.stock == stock && !closed
      ensures ledger == [Entry(id, stock, PublishEntry, None)]
    {
      this.id, this.stock, closed := id, stock, false;
      ledger := [Entry(id, stock, PublishEntry, None)];
      new;
      AddEntry([], ledger[0]);
      assert [] + [ledger[0]] == ledger;
    }

    // UpdateSpotGoodsStock after its version check.
    method Adjust(newStock: int) returns (ok: bool)
      requires Balanced()
      modifies this
      ensures Balanced()
      ensures ok <==> -1 <= newStock <= MAX_STOCK && !old(closed) && !(old(stock) == -1 && newStock == 0)
      ensures closed == old(closed) && stock == (if ok then newStock else old(stock))
      ensures ledger
                == old(ledger) + if ok then [Entry(id, Max(newStock, 0) - Max(old(stock), 0), ManualAdjust, None)]
                else []
    {
      if newStock < -1 || newStock > MAX_STOCK || closed || (stock == -1 && newStock == 0) { return false; }
      var e := Entry(id, Max(newStock, 0) - Max(stock, 0), ManualAdjust, None);
      AddEntry(ledger, e);
      stock, ledger := newStock, ledger + [e];
      ok := true;
    }

    // decreaseStockForCreateSpotOrder and insertOrderLockLedger.
    method Take(quantity: int, order: nat) returns (ok: bool)
      requires Balanced() && quantity > 0
      modifies this
      ensures Balanced()
      ensures ok <==> !old(closed) && old(stock) >= quantity
      ensures closed == old(closed) && stock == (if ok then old(stock) - quantity else old(stock))
      ensures ledger == old(ledger) + if ok then [Entry(id, -quantity, OrderLock, Some(order))] else []
    {
      if closed || stock < 0 || stock < quantity { return false; }
      AddEntry(ledger, Entry(id, -quantity, OrderLock, Some(order)));
      stock, ledger := stock - quantity, ledger + [Entry(id, -quantity, OrderLock, Some(order))];
      ok := true;
    }

    // releaseSpotOrderStock: a delisted listing takes nothing back and writes no entry.
    method Release(quantity: int, order: nat)
      requires Balanced() && quantity > 0
      modifies this
      ensures Balanced()
      ensures closed == old(closed) && stock == (if old(stock) < 0 then old(stock) else old(stock) + quantity)
      ensures ledger == old(ledger) + if old(stock) < 0 then [] else [Entry(id, quantity, OrderCancel, Some(order))]
    {
      if stock < 0 { return; }
      AddEntry(ledger, Entry(id, quantity, OrderCancel, Some(order)));
      stock, ledger := stock + quantity, ledger + [Entry(id, quantity, OrderCancel, Some(order))];
    }
  }

  // ------------------------------------------------------------------ the keyset scan

  datatype Row = Row(id: nat, order: Order)

  ghost predicate Keyed(rows: seq<Row>) {
    && (forall k :: 0 <= k < |rows| ==> rows[k].id > 0)
    && (forall j: nat, k: nat :: InOrder(rows, j, k))
  }

  ghost predicate InOrder(rows: seq<Row>, j: nat, k: nat) {
    j < k < |rows| ==> rows[j].id < rows[k].id
  }

  predicate Due(r: Row) {
    r.order.status == PendingPayment && r.order.bill.Some?
  }

  // The bill came back and is this order's.
  predicate Known(r: Row, bills: map<nat, Bill>) {
    r.order.bill.Some? && r.order.bill.value in bills && BillMatches(bills[r.order.bill.value], r.id, r.order.total)
  }

  function Synced(r: Row, bills: map<nat, Bill>, now: nat): Row {
    if Due(r) && Known(r, bills) && bills[r.order.bill.value].status == Completed
    then Row(r.id, r.order.(status := Paid, version := now))
    else r
  }

  ghost predicate Rising(found: seq<nat>) {
    forall j: nat, k: nat :: Below(found, j, k)
  }

  ghost predicate Below(found: seq<nat>, j: nat, k: nat) {
    j < k < |found| ==> found[j] < found[k]
  }

  // The first due rows after an id, limit of them or all there are.
  ghost predicate Listed(rows: seq<Row>, found: seq<nat>, after: nat, limit: nat) {
    && (forall p :: p in found ==> p < |rows| && Due(rows[p]) && rows[p].id > after)
    && Rising(found)
    && (forall p: nat :: p < |rows| && Due(rows[p]) && rows[p].id > after ==>
          p in found || (limit <= |found| && 0 < |found| && found[|found| - 1] < p))
  }

  class OrderTable {
    var rows: seq<Row>

    // ListPendingSpotOrderPayments: the first due rows after an id, in id order.
    method ListPending(after: nat, limit: nat) returns (found: seq<nat>)
      requires limit > 0
      ensures |found| <= limit && Listed(rows, found, after, limit)
    {
      found := [];
      var i := 0;
      while i < |rows| && |found| < limit
        invariant 0 <= i <= |rows| && |found| <= limit
        invariant forall j :: 0 <= j < |found| ==> found[j] < i && Due(rows[found[j]]) && rows[found[j]].id > after
        invariant Rising(found)
        invariant forall p: nat :: p < i && Due(rows[p]) && rows[p].id > after ==> p in found
      {
        if Due(rows[i]) && rows[i].id > after {
          StillRising(found, i);
          found := found + [i];
        }
        i := i + 1;
      }
    }

    // syncPendingSpotOrderPayments. Rows leave the pending set while it is scanned, so the scan goes by id: every
    // due row is looked at once, none is skipped, and it stops at the first order whose bill is missing or not
    // its own. fetched(n) is what paymentservice returns for batch n; a due row belongs to the batch its place
    // among the due rows falls into.
    method SyncPending(fetched: nat -> map<nat, Bill>, batch: nat, now: nat) returns (ok: bool)
      requires Keyed(rows) && batch > 0
      modifies this
      ensures |rows| == |old(rows)| && Keyed(rows)
      ensures ok <==> forall k: nat :: k < |old(rows)| && Due(old(rows)[k]) ==>
        Known(old(rows)[k], fetched(BatchOf(old(rows), k, batch)))
      ensures ok ==> forall k: nat :: k < |rows| ==>
        rows[k] == Synced(old(rows)[k], fetched(BatchOf(old(rows), k, batch)), now)
      ensures forall k: nat :: k < |rows| ==>
        rows[k] == old(rows)[k] || rows[k] == Synced(old(rows)[k], fetched(BatchOf(old(rows), k, batch)), now)
    {
      ghost var want := (k: nat) => fetched(BatchOf(old(rows), k, batch));
      ok := Scan(fetched, batch, now, want);
      StillKeyed(old(rows), rows, ok, want, now);
    }

    // The scan itself; want gives each row what is fetched in the batch it falls into.
    method Scan(fetched: nat -> map<nat, Bill>, batch: nat, now: nat, ghost want: nat -> map<nat, Bill>)
      returns (ok: bool)
      requires Keyed(rows) && batch > 0 && Planned(rows, fetched, batch, want)
      modifies this
      ensures Outcome(old(rows), rows, ok, want, now)
    {
      ghost var start := rows;
      var after, seen, n := 0, 0, 0;
      while true
        invariant Reconciled(start, rows, seen, want, now) && CutAt(rows, after, seen)
        invariant BatchStarts(start, seen, n, batch)
        decreases |rows| - seen
      {
        var found := ListPending(after, batch);
        FoundBatch(start, rows, found, after, seen, n, fetched, batch, want, now);
        if found == [] { return true; }
        ok := SyncBatch(found, seen, fetched(n), want, now, start);
        if !ok { return false; }
        var last := found[|found| - 1];
        NextCut(start, rows, last, want, now);
        after, seen := rows[last].id, last + 1;
        if |found| < batch {
          AllReconciled(start, rows, seen, want, now);
          return true;
        }
        n := n + 1;
      }
    }

    // One batch: everything up to its last row is reconciled afterwards.
    method SyncBatch(
        found: seq<nat>, seen: nat, bills: map<nat, Bill>, ghost want: nat -> map<nat, Bill>, now: nat,
        ghost start: seq<Row>)
      returns (ok: bool)
      requires Reconciled(start, rows, seen, want, now)
      requires InBatch(start, found, seen, bills, want)
      modifies this
      ensures ok ==> found[|found| - 1] < |rows| && Reconciled(start, rows, found[|found| - 1] + 1, want, now)
      ensures !ok ==> Outcome(start, rows, false, want, now)
    {
      var i := 0;
      while i < |found|
        invariant 0 <= i <= |found|
        invariant Reconciled(start, rows, if i == 0 then seen else found[i - 1] + 1, want, now)
      {
        var p := found[i];
        assert p in found;
        NextFound(found, i, seen, start);
        if !Known(rows[p], bills) { return false; }
        rows := rows[p := Synced(rows[p], bills, now)];
        i := i + 1;
      }
      ok := true;
    }
  }

  // How many of the first k rows are due.
  function DueBefore(rows: seq<Row>, k: nat): nat {
    if k == 0 then 0 else DueBefore(rows, k - 1) + if k <= |rows| && Due(rows[k - 1]) then 1 else 0
  }

  function BatchOf(rows: seq<Row>, k: nat, batch: nat): nat
    requires batch > 0
  {
    DueBefore(rows, k) / batch
  }

  // What is fetched in the batch each row falls into.
  ghost predicate Planned(rows: seq<Row>, fetched: nat -> map<nat, Bill>, batch: nat, want: nat -> map<nat, Bill>)
    requires batch > 0
  {
    forall k: nat {:trigger BatchOf(rows, k, batch)} :: want(k) == fetched(BatchOf(rows, k, batch))
  }

  // All reconciled, or stopped at a due row whose bill is not known; no row is anything else.
  ghost predicate Outcome(start: seq<Row>, rows: seq<Row>, ok: bool, want: nat -> map<nat, Bill>, now: nat) {
    && |rows| == |start|
    && (ok ==> Reconciled(start, rows, |rows|, want, now))
    && (!ok ==> exists k: nat :: k < |start| && Due(start[k]) && !Known(start[k], want(k)))
    && (forall k: nat :: k < |rows| ==> rows[k] == start[k] || rows[k] == Synced(start[k], want(k), now))
  }

  // Exactly the first seen rows have ids up to after.
  ghost predicate CutAt(rows: seq<Row>, after: nat, seen: nat) {
    seen <= |rows| && forall k :: 0 <= k < |rows| ==> (rows[k].id <= after <==> k < seen)
  }

  // Exactly n batches of due rows come before this one.
  ghost predicate BatchStarts(rows: seq<Row>, seen: nat, n: nat, batch: nat) {
    DueBefore(rows, seen) == Rows(n, batch)
  }

  // What n full batches hold.
  function Rows(n: nat, batch: nat): nat {
    if n == 0 then 0 else Rows(n - 1, batch) + batch
  }

  lemma {:induction false} RowsAreProduct(n: nat, batch: nat)
    ensures Rows(n, batch) == n * batch
  {
    if n > 0 {
      RowsAreProduct(n - 1, batch);
      assert n * batch == (n - 1) * batch + batch;
    }
  }

  // The due rows from seen up to the last one found.
  ghost predicate Finds(rows: seq<Row>, found: seq<nat>, seen: nat) {
    && (forall p :: p in found ==> seen <= p < |rows| && Due(rows[p]))
    && Rising(found)
    && (found != [] ==> forall p: nat :: seen <= p <= found[|found| - 1] && p < |rows| && Due(rows[p]) ==> p in found)
  }

  // The next finds, all served by the same fetch.
  ghost predicate InBatch(rows: seq<Row>, found: seq<nat>, seen: nat, bills: map<nat, Bill>,
        want: nat -> map<nat, Bill>) {
    found != [] && Finds(rows, found, seen) && forall i :: 0 <= i < |found| ==> want(found[i]) == bills
  }

  lemma StillRising(found: seq<nat>, p: nat)
    requires Rising(found) && forall q :: q in found ==> q < p
    ensures Rising(found + [p])
  {
    forall j: nat, k: nat ensures Below(found + [p], j, k) {
      assert Below(found, j, k) && (j < |found| ==> found[j] in found);
    }
  }

  lemma {:induction false} NothingDue(rows: seq<Row>, from: nat, to: nat)
    requires from <= to <= |rows| && forall p: nat :: from <= p < to ==> !Due(rows[p])
    ensures DueBefore(rows, to) == DueBefore(rows, from)
  {
    if from < to {
      NothingDue(rows, from, to - 1);
    }
  }

  // The i-th row found has i due rows more before it than the batch.
  lemma {:induction false} FoundPlace(rows: seq<Row>, found: seq<nat>, seen: nat, i: nat)
    requires Finds(rows, found, seen) && i < |found|
    ensures found[i] < |rows| && DueBefore(rows, found[i]) == DueBefore(rows, seen) + i
    ensures DueBefore(rows, found[i] + 1) == DueBefore(rows, seen) + i + 1
  {
    assert found[i] in found;
    NextFound(found, i, seen, rows);
    if i == 0 {
      NothingDue(rows, seen, found[0]);
    } else {
      FoundPlace(rows, found, seen, i - 1);
      NothingDue(rows, found[i - 1] + 1, found[i]);
    }
  }

  lemma QuotientIs(m: nat, n: nat, batch: nat, i: nat)
    requires i < batch && m == n * batch + i
    ensures m / batch == n
  {
    var q := m / batch;
    assert m == q * batch + m % batch;
    assert (q - n) * batch == i - m % batch;
    Between(q - n, batch, i - m % batch);
  }

  // A multiple of batch that is smaller than it either way is none of it.
  lemma Between(d: int, batch: int, x: int)
    requires batch > 0 && d * batch == x && -batch < x < batch
    ensures d == 0
  {
  }

  // Everything found is served by the current fetch, and a full batch ends where the next one starts.
  lemma InOneBatch(
      rows: seq<Row>, found: seq<nat>, seen: nat, n: nat, fetched: nat -> map<nat, Bill>, batch: nat,
      want: nat -> map<nat, Bill>)
    requires Finds(rows, found, seen) && batch > 0 && BatchStarts(rows, seen, n, batch) && 0 < |found| <= batch
    requires Planned(rows, fetched, batch, want)
    ensures forall i :: 0 <= i < |found| ==> want(found[i]) == fetched(n)
    ensures |found| == batch ==> BatchStarts(rows, found[|found| - 1] + 1, n + 1, batch)
  {
    RowsAreProduct(n, batch);
    forall i | 0 <= i < |found| ensures want(found[i]) == fetched(n) {
      FoundPlace(rows, found, seen, i);
      QuotientIs(DueBefore(rows, found[i]), n, batch, i);
      assert BatchOf(rows, found[i], batch) == n;
    }
    FoundPlace(rows, found, seen, |found| - 1);
  }

  // The first n rows are reconciled with what was fetched for them, the others untouched.
  ghost predicate Reconciled(start: seq<Row>, rows: seq<Row>, n: nat, want: nat -> map<nat, Bill>, now: nat) {
    && n <= |rows| == |start|
    && (forall k: nat :: k < n ==>
          rows[k] == Synced(start[k], want(k), now) && (Due(start[k]) ==> Known(start[k], want(k))))
    && (forall k :: n <= k < |rows| ==> rows[k] == start[k])
  }

  // What is listed after the cut are the next finds; when there are fewer than asked for, nothing due is left.
  lemma ListedFinds(
      start: seq<Row>, rows: seq<Row>, found: seq<nat>, after: nat, seen: nat, limit: nat, want: nat -> map<nat, Bill>,
      now: nat)
    requires Reconciled(start, rows, seen, want, now) && CutAt(rows, after, seen)
    requires limit > 0 && |found| <= limit && Listed(rows, found, after, limit)
    ensures Finds(start, found, seen)
    ensures found == [] ==> Outcome(start, rows, true, want, now)
    ensures 0 < |found| < limit ==> NoneDue(start, found[|found| - 1] + 1)
  {
    assert forall i :: 0 <= i < |found| ==> found[i] in found;
    forall i: nat | i < |found| ensures found[i] <= found[|found| - 1] {
      assert Below(found, i, |found| - 1);
    }
  }

  ghost predicate NoneDue(rows: seq<Row>, from: nat) {
    forall k :: from <= k < |rows| ==> !Due(rows[k])
  }

  lemma AllReconciled(start: seq<Row>, rows: seq<Row>, n: nat, want: nat -> map<nat, Bill>, now: nat)
    requires Reconciled(start, rows, n, want, now) && NoneDue(start, n)
    ensures Outcome(start, rows, true, want, now)
  {
  }

  lemma StillKeyed(start: seq<Row>, rows: seq<Row>, ok: bool, want: nat -> map<nat, Bill>, now: nat)
    requires Keyed(start) && Outcome(start, rows, ok, want, now)
    ensures Keyed(rows)
  {
    forall j: nat, k: nat ensures InOrder(rows, j, k) {
      assert InOrder(start, j, k);
    }
  }

  lemma NextCut(start: seq<Row>, rows: seq<Row>, last: nat, want: nat -> map<nat, Bill>, now: nat)
    requires Keyed(start) && last < |rows| && Reconciled(start, rows, last + 1, want, now)
    ensures CutAt(rows, rows[last].id, last + 1)
  {
    forall k: nat | k < |rows| ensures rows[k].id <= rows[last].id <==> k < last + 1 {
      assert InOrder(start, k, last) && InOrder(start, last, k);
    }
  }

  // What is listed after the cut is the current batch, and a full one ends where the next one starts.
  lemma FoundBatch(
      start: seq<Row>, rows: seq<Row>, found: seq<nat>, after: nat, seen: nat, n: nat, fetched: nat -> map<nat, Bill>,
      batch: nat, want: nat -> map<nat, Bill>, now: nat)
    requires Reconciled(start, rows, seen, want, now) && CutAt(rows, after, seen)
    requires batch > 0 && BatchStarts(start, seen, n, batch) && Planned(start, fetched, batch, want)
    requires |found| <= batch && Listed(rows, found, after, batch)
    ensures found == [] ==> Outcome(start, rows, true, want, now)
    ensures found != [] ==> InBatch(start, found, seen, fetched(n), want) && seen <= found[|found| - 1]
    ensures 0 < |found| < batch ==> NoneDue(start, found[|found| - 1] + 1)
    ensures |found| == batch ==> BatchStarts(start, found[|found| - 1] + 1, n + 1, batch)
  {
    ListedFinds(start, rows, found, after, seen, batch, want, now);
    if found != [] {
      InOneBatch(start, found, seen, n, fetched, batch, want);
      assert found[|found| - 1] in found;
    }
  }

  // Between two consecutive finds nothing is due.
  lemma NextFound(found: seq<nat>, i: nat, seen: nat, start: seq<Row>)
    requires i < |found| && Rising(found)
    requires forall p :: p in found ==> seen <= p < |start|
    requires forall p: nat :: seen <= p <= found[|found| - 1] && p < |start| && Due(start[p]) ==> p in found
    ensures (if i == 0 then seen else found[i - 1] + 1) <= found[i] < |start|
    ensures forall p: nat :: (if i == 0 then seen else found[i - 1] + 1) <= p < found[i] ==>
              p < |start| && !Due(start[p])
  {
    assert found[i] in found && Below(found, i, |found| - 1) && (i > 0 ==> Below(found, i - 1, i));
    forall p: nat | (if i == 0 then seen else found[i - 1] + 1) <= p < found[i] ensures p < |start| && !Due(start[p]) {
      forall j: nat | j < |found| ensures found[j] != p {
        assert Below(found, i, j) && Below(found, j, i) && (i > 0 ==> Below(found, j, i - 1));
      }
      assert i > 0 ==> found[i - 1] in found;
    }
  }
}
