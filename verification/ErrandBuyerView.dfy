// The buyer's view of one demand: a line per item with the packaging share on the first, and running
// totals that count as final only once every item is decided. It is the third computation of a bill.
module ErrandBuyerView {
  import opened Common
  import opened ErrandBilling
  import opened ErrandBillingSums
  import opened ErrandCollectingView
  import opened ErrandBillingTheorems

  datatype Item = Item(id: int, product: int, quantity: Int32, estimated: Int32, fee: Int32)

  // What is known about the demand's items: the distributed quantity of each assigned item and the price
  // paid for each product on the task's shopping list, where already recorded.
  datatype Progress = Progress(dealt: map<int, Option<Int32>>, priced: map<int, Option<Int32>>)

  datatype BuyerTotals = BuyerTotals(subtotals: seq<int>, origin: int, actual: Option<int>, service: int)

  predicate Distributed(i: Item, pr: Progress) {
    i.id in pr.dealt && pr.dealt[i.id].Some?
  }

  predicate Priced(i: Item, pr: Progress) {
    i.product in pr.priced && pr.priced[i.product].Some?
  }

  // The distributed quantity and the price paid, or the requested and estimated ones until they are known.
  function ShownQuantity(i: Item, pr: Progress): Int32 {
    if Distributed(i, pr) then pr.dealt[i.id].value else i.quantity
  }

  function ShownPrice(i: Item, pr: Progress): Int32 {
    if Priced(i, pr) then pr.priced[i.product].value else i.estimated
  }

  predicate Final(i: Item, pr: Progress) {
    Distributed(i, pr) && (ShownQuantity(i, pr) > 0 ==> Priced(i, pr))
  }

  predicate AllFinal(items: seq<Item>, pr: Progress) {
    forall k :: 0 <= k < |items| ==> Final(items[k], pr)
  }

  function Product(i: Item, pr: Progress): int {
    ShownPrice(i, pr) * ShownQuantity(i, pr)
  }

  function Service(i: Item, pr: Progress): int {
    i.fee * ShownQuantity(i, pr)
  }

  function Subtotal(i: Item, pr: Progress, packaging: int): int {
    Product(i, pr) + Service(i, pr) + packaging
  }

  // The packaging share is added once, on the first item.
  function Subtotals(items: seq<Item>, pr: Progress, share: nat): seq<int> {
    seq(|items|, k requires 0 <= k < |items| => Subtotal(items[k], pr, if k == 0 then share else 0))
  }

  function OriginSum(items: seq<Item>): int {
    if items == [] then 0
    else
      var last := items[|items| - 1];
      OriginSum(items[..|items| - 1]) + last.estimated * last.quantity
  }

  function ProductTotal(items: seq<Item>, pr: Progress): int {
    if items == [] then 0 else ProductTotal(items[..|items| - 1], pr) + Product(items[|items| - 1], pr)
  }

  function ServiceTotal(items: seq<Item>, pr: Progress): int {
    if items == [] then 0 else ServiceTotal(items[..|items| - 1], pr) + Service(items[|items| - 1], pr)
  }

  predicate SubtotalsFit(items: seq<Item>, pr: Progress, share: nat) {
    forall k :: 0 <= k < |items| ==> Fits32(Subtotals(items, pr, share)[k])
  }

  predicate Ready(items: seq<Item>, pr: Progress) {
    items != [] && AllFinal(items, pr)
  }

  function BuyerSpec(items: seq<Item>, pr: Progress, share: nat): Result<BuyerTotals, Overflow> {
    var origin, product, service :=
      Wrap64(OriginSum(items)), Wrap64(ProductTotal(items, pr)), Wrap64(ServiceTotal(items, pr));
    if !SubtotalsFit(items, pr, share) || !Fits32(origin) || !Fits32(service)
       || (Ready(items, pr) && !Fits32(product)) then
      Err(AmountExceedsInt32)
    else
      Ok(BuyerTotals(Subtotals(items, pr, share), origin, if Ready(items, pr) then Some(product) else None, service))
  }

  // ------------------------------------------------------------------ the loops

  lemma TotalsSnoc(items: seq<Item>, i: Item, pr: Progress)
    ensures Wrap64(Wrap64(OriginSum(items)) + i.estimated * i.quantity) == Wrap64(OriginSum(items + [i]))
    ensures Wrap64(Wrap64(ProductTotal(items, pr)) + Product(i, pr)) == Wrap64(ProductTotal(items + [i], pr))
    ensures Wrap64(Wrap64(ServiceTotal(items, pr)) + Service(i, pr)) == Wrap64(ServiceTotal(items + [i], pr))
  {
    assert (items + [i])[..|items|] == items;
    WrapAdds(OriginSum(items), i.estimated * i.quantity);
    WrapAdds(ProductTotal(items, pr), Product(i, pr));
    WrapAdds(ServiceTotal(items, pr), Service(i, pr));
  }

  // One item of the loop: what is shown for it and whether the totals can still be final.
  method ShowItem(i: Item, pr: Progress) returns (product: int, service: int, final: bool)
    ensures product == Product(i, pr) && service == Service(i, pr)
    ensures final <==> Final(i, pr)
  {
    final := true;
    var quantity: int := i.quantity;
    if i.id in pr.dealt && pr.dealt[i.id].Some? {
      quantity := pr.dealt[i.id].value;
    } else {
      final := false;
    }
    var price: int := i.estimated;
    if i.product in pr.priced && pr.priced[i.product].Some? {
      price := pr.priced[i.product].value;
    } else if quantity > 0 {
      final := false;
    }
    product, service := price * quantity, i.fee * quantity;
  }

  // The running totals after some items.
  ghost predicate Running(items: seq<Item>, pr: Progress, origin: int, actual: int, service: int) {
    && origin == Wrap64(OriginSum(items))
    && actual == Wrap64(ProductTotal(items, pr))
    && service == Wrap64(ServiceTotal(items, pr))
  }

  method AddItem(ghost items: seq<Item>, i: Item, pr: Progress, origin: int, actual: int, service: int)
    returns (subtotal: int, final: bool, origin': int, actual': int, service': int)
    requires Running(items, pr, origin, actual, service)
    ensures subtotal == Product(i, pr) + Service(i, pr)
    ensures final <==> Final(i, pr)
    ensures Running(items + [i], pr, origin', actual', service')
  {
    var product, fee;
    product, fee, final := ShowItem(i, pr);
    TotalsSnoc(items, i, pr);
    subtotal := product + fee;
    origin', actual', service' := Wrap64(origin + i.estimated * i.quantity), Wrap64(actual + product),
        Wrap64(service + fee);
  }

  // buildProductItems.
  method BuildProductItems(items: seq<Item>, pr: Progress, share: nat) returns (r: Result<BuyerTotals, Overflow>)
    ensures r == BuyerSpec(items, pr, share)
  {
    var subtotals: seq<int> := [];
    var ready, packagingApplied := |items| > 0, false;
    var origin, actual, service := 0, 0, 0;
    for k := 0 to |items|
      invariant |subtotals| == k
      invariant forall j :: 0 <= j < k ==> subtotals[j] == Subtotals(items, pr, share)[j] && Fits32(subtotals[j])
      invariant ready <==> |items| > 0 && forall j :: 0 <= j < k ==> Final(items[j], pr)
      invariant packagingApplied <==> k > 0 && share > 0
      invariant Running(items[..k], pr, origin, actual, service)
    {
      var subtotal, final;
      subtotal, final, origin, actual, service := AddItem(items[..k], items[k], pr, origin, actual, service);
      assert items[..k + 1] == items[..k] + [items[k]];
      ready := ready && final;
      if !packagingApplied && share > 0 {
        subtotal, packagingApplied := subtotal + share, true;
      }
      assert subtotal == Subtotals(items, pr, share)[k];
      if !Fits32(subtotal) { return Err(AmountExceedsInt32); }
      subtotals := subtotals + [subtotal];
    }
    assert items[..|items|] == items && subtotals == Subtotals(items, pr, share);
    if !Fits32(origin) || !Fits32(service) || (ready && !Fits32(actual)) { return Err(AmountExceedsInt32); }
    r := Ok(BuyerTotals(subtotals, origin, if ready then Some(actual) else None, service));
  }

  // loadBuyerPackagingShareCents: the share is charged only to a buyer who has something to pay for.
  function ShareOf(fee: Int32, rows: seq<Row>, buyer: int): Result<nat, Overflow> {
    if fee <= 0 || !Appears(rows, buyer) then Ok(0)
    else if !Fits32(|Payers(rows)|) then Err(ValueExceedsInt32)
    else
      assert CeilDivide(fee, |Payers(rows)|) >= 0 by { ShareFits(fee, |Payers(rows)|); }
      Ok(CeilDivide(fee, |Payers(rows)|))
  }

  method LoadShare(fee: Int32, rows: seq<Row>, buyer: int) returns (r: Result<nat, Overflow>)
    ensures r == ShareOf(fee, rows, buyer)
  {
    if fee <= 0 { return Ok(0); }
    var ids: set<int>, billable := {}, false;
    for k := 0 to |rows|
      invariant forall p :: p in ids <==> p in Payers(rows[..k])
      invariant |ids| == |Payers(rows[..k])|
      invariant billable <==> Appears(rows[..k], buyer)
    {
      assert rows[..k + 1] == rows[..k] + [rows[k]];
      OfPayerSnoc(rows[..k], rows[k]);
      PayersExact(rows[..k]);
      PayersExact(rows[..k + 1]);
      ids := ids + {rows[k].payer};
      if rows[k].payer == buyer { billable := true; }
    }
    assert rows[..|rows|] == rows;
    if !billable { return Ok(0); }
    if !Fits32(|ids|) { return Err(ValueExceedsInt32); }
    ShareFits(fee, |ids|);
    r := Ok(CeilDivide(fee, |ids|));
  }

  // ------------------------------------------------------------------ the buyer's bill

  // The rows the bill queries return for the demand: one for each item of which something was distributed.
  function RowsOf(items: seq<Item>, pr: Progress, buyer: int, captain: int, fee: Int32): seq<Row> {
    if items == [] then []
    else
      var i := items[|items| - 1];
      RowsOf(items[..|items| - 1], pr, buyer, captain, fee) +
      if Distributed(i, pr) && pr.dealt[i.id].value > 0 then
        [Row(buyer, captain, fee, if Priced(i, pr) then pr.priced[i.product].value else 0, pr.dealt[i.id], i.fee)]
      else []
  }

  predicate ValidItems(items: seq<Item>, pr: Progress) {
    forall k :: 0 <= k < |items| ==> 0 <= items[k].estimated && 0 <= items[k].quantity && 0 <= items[k].fee
                                     && 0 <= ShownQuantity(items[k], pr) && 0 <= ShownPrice(items[k], pr)
  }

  function Sum(s: seq<int>): int {
    if s == [] then 0 else Sum(s[..|s| - 1]) + s[|s| - 1]
  }

  lemma {:induction false} RowsAreTheItems(items: seq<Item>, pr: Progress, buyer: int, captain: int, fee: Int32)
    requires AllFinal(items, pr) && ValidItems(items, pr)
    ensures Owed(RowsOf(items, pr, buyer, captain, fee), buyer) == ProductTotal(items, pr) + ServiceTotal(items, pr)
  {
    if items != [] {
      var front, i := items[..|items| - 1], items[|items| - 1];
      RowsAreTheItems(front, pr, buyer, captain, fee);
      var rest := RowsOf(front, pr, buyer, captain, fee);
      if pr.dealt[i.id].value > 0 {
        var row := Row(buyer, captain, fee, pr.priced[i.product].value, pr.dealt[i.id], i.fee);
        OwedSnoc(rest, row);
      } else {
        assert RowsOf(items, pr, buyer, captain, fee) == rest;
      }
    }
  }

  lemma {:induction false} OwedOwnRows(rows: seq<Row>, payer: int)
    ensures Owed(OfPayer(rows, payer), payer) == Owed(rows, payer)
  {
    if rows != [] {
      var front, last := rows[..|rows| - 1], rows[|rows| - 1];
      OwedOwnRows(front, payer);
      if last.payer == payer {
        OwedSnoc(OfPayer(front, payer), last);
      } else {
        assert OfPayer(rows, payer) == OfPayer(front, payer);
      }
    }
  }

  lemma {:induction false} SubtotalsSum(items: seq<Item>, pr: Progress, share: nat)
    ensures Sum(Subtotals(items, pr, share))
         == ProductTotal(items, pr) + ServiceTotal(items, pr) + if items == [] then 0 else share
  {
    if items != [] {
      var front := items[..|items| - 1];
      SubtotalsSum(front, pr, share);
      assert Subtotals(items, pr, share)[..|front|] == Subtotals(front, pr, share);
    }
  }

  // The buyer has one demand in the task: the payer's rows are the demand's own.
  predicate OneDemand(rows: seq<Row>, items: seq<Item>, pr: Progress, buyer: int, captain: int, fee: Int32) {
    && multiset(OfPayer(rows, buyer)) == multiset(RowsOf(items, pr, buyer, captain, fee))
    && (forall k :: 0 <= k < |rows| ==> rows[k].packaging == fee)
  }

  lemma ItemsAreOwed(rows: seq<Row>, items: seq<Item>, pr: Progress, buyer: int, captain: int, fee: Int32)
    requires OneDemand(rows, items, pr, buyer, captain, fee) && AllFinal(items, pr) && ValidItems(items, pr)
    ensures Owed(rows, buyer) == ProductTotal(items, pr) + ServiceTotal(items, pr)
  {
    OwedOwnRows(rows, buyer);
    OwedOfPermutation(OfPayer(rows, buyer), RowsOf(items, pr, buyer, captain, fee), buyer);
    RowsAreTheItems(items, pr, buyer, captain, fee);
  }

  lemma ChargedShare(rows: seq<Row>, fee: Int32, buyer: int)
    requires forall k :: 0 <= k < |rows| ==> rows[k].packaging == fee
    requires Appears(rows, buyer) && Fits32(|Payers(rows)|)
    ensures ShareOf(fee, rows, buyer) == Ok(Share(rows))
  {
  }

  // Once a buyer's only demand in a task is fully distributed, the lines the buyer sees sum to the bill.
  lemma SubtotalsSumToTheBill(rows: seq<Row>, items: seq<Item>, pr: Progress, buyer: int, captain: int, fee: Int32)
    requires OneDemand(rows, items, pr, buyer, captain, fee) && AllFinal(items, pr) && ValidItems(items, pr)
    requires Appears(rows, buyer) && Fits32(|Payers(rows)|)
    ensures ShareOf(fee, rows, buyer).Ok?
    ensures Sum(Subtotals(items, pr, ShareOf(fee, rows, buyer).value)) == Total(rows, buyer)
  {
    ItemsAreOwed(rows, items, pr, buyer, captain, fee);
    ChargedShare(rows, fee, buyer);
    var share := ShareOf(fee, rows, buyer).value;
    SubtotalsSum(items, pr, share);
    BilledItemsExist(rows, items, pr, buyer, captain, fee);
  }

  lemma BilledItemsExist(rows: seq<Row>, items: seq<Item>, pr: Progress, buyer: int, captain: int, fee: Int32)
    requires OneDemand(rows, items, pr, buyer, captain, fee) && Appears(rows, buyer)
    ensures items != []
  {
    PayersExact(rows);
    HasRows(rows, buyer);
    assert OfPayer(rows, buyer)[0] in multiset(RowsOf(items, pr, buyer, captain, fee));
  }

  // A buyer with nothing to pay is charged no packaging, so the lines sum to nothing.
  lemma NoBillNoSubtotals(rows: seq<Row>, items: seq<Item>, pr: Progress, buyer: int, captain: int, fee: Int32)
    requires OneDemand(rows, items, pr, buyer, captain, fee) && AllFinal(items, pr) && ValidItems(items, pr)
    requires !Appears(rows, buyer)
    ensures ShareOf(fee, rows, buyer) == Ok(0)
    ensures Sum(Subtotals(items, pr, 0)) == 0
  {
    ItemsAreOwed(rows, items, pr, buyer, captain, fee);
    PayersExact(rows);
    NothingOwed(rows, buyer);
    SubtotalsSum(items, pr, 0);
  }

  // ------------------------------------------------------------------ column by column

  lemma {:induction false} ColumnsWithout(rows: seq<Row>, k: nat)
    requires k < |rows|
    ensures ProductSum(rows) == ProductSum(rows[..k] + rows[k + 1..]) + ProductAmount(rows[k])
    ensures ServiceSum(rows) == ServiceSum(rows[..k] + rows[k + 1..]) + ServiceAmount(rows[k])
  {
    var n := |rows| - 1;
    var rest := rows[..k] + rows[k + 1..];
    if k == n {
      assert rest == rows[..n];
    } else {
      ColumnsWithout(rows[..n], k);
      assert rest == (rows[..n][..k] + rows[..n][k + 1..]) + [rows[n]];
      SumsSnoc(rows[..n][..k] + rows[..n][k + 1..], rows[n]);
    }
  }

  lemma {:induction false} ColumnsOfPermutation(a: seq<Row>, b: seq<Row>)
    requires multiset(a) == multiset(b)
    ensures ProductSum(a) == ProductSum(b) && ServiceSum(a) == ServiceSum(b)
  {
    if a == [] {
      assert |multiset(b)| == 0;
    } else {
      var front, last := a[..|a| - 1], a[|a| - 1];
      assert a == front + [last];
      assert last in multiset(b);
      var k :| 0 <= k < |b| && b[k] == last;
      assert front == a[..|a| - 1] + a[|a|..];
      Without(a, |a| - 1);
      Without(b, k);
      ColumnsOfPermutation(front, b[..k] + b[k + 1..]);
      ColumnsWithout(b, k);
    }
  }

  lemma {:induction false} ColumnsOfItems(items: seq<Item>, pr: Progress, buyer: int, captain: int, fee: Int32)
    requires AllFinal(items, pr) && ValidItems(items, pr)
    ensures ProductSum(RowsOf(items, pr, buyer, captain, fee)) == ProductTotal(items, pr)
    ensures ServiceSum(RowsOf(items, pr, buyer, captain, fee)) == ServiceTotal(items, pr)
  {
    if items != [] {
      var front, i := items[..|items| - 1], items[|items| - 1];
      ColumnsOfItems(front, pr, buyer, captain, fee);
      var rest := RowsOf(front, pr, buyer, captain, fee);
      if pr.dealt[i.id].value > 0 {
        var row := Row(buyer, captain, fee, pr.priced[i.product].value, pr.dealt[i.id], i.fee);
        SumsSnoc(rest, row);
      } else {
        assert RowsOf(items, pr, buyer, captain, fee) == rest;
      }
    }
  }

  // Once everything is decided the buyer sees what the captain sees, column by column: the goods are the goods and
  // the fees are the fees.
  lemma ColumnsMatchTheCaptains(rows: seq<Row>, items: seq<Item>, pr: Progress, buyer: int, captain: int, fee: Int32,
        share: nat, k: nat)
    requires OneDemand(rows, items, pr, buyer, captain, fee) && AllFinal(items, pr) && ValidItems(items, pr)
    requires BuyerSpec(items, pr, share).Ok? && CollectingSpec(fee, rows).Ok?
    requires k < |CollectingSpec(fee, rows).value| && CollectingSpec(fee, rows).value[k].payer == buyer
    ensures var shown, view := BuyerSpec(items, pr, share).value, CollectingSpec(fee, rows).value[k];
            shown.actual == Some(view.product) && shown.service == view.service
  {
    PayersExact(rows);
    BilledItemsExist(rows, items, pr, buyer, captain, fee);
    ColumnsOfPermutation(OfPayer(rows, buyer), RowsOf(items, pr, buyer, captain, fee));
    ColumnsOfItems(items, pr, buyer, captain, fee);
  }

  lemma {:induction false} ItemsBelowTotals(items: seq<Item>, pr: Progress)
    requires ValidItems(items, pr)
    ensures 0 <= OriginSum(items) && 0 <= ProductTotal(items, pr) && 0 <= ServiceTotal(items, pr)
    ensures forall k :: 0 <= k < |items| ==> 0 <= Product(items[k], pr) + Service(items[k], pr)
                                             <= ProductTotal(items, pr) + ServiceTotal(items, pr)
  {
    if items != [] {
      var front, last := items[..|items| - 1], items[|items| - 1];
      ItemsBelowTotals(front, pr);
      NonNegativeProducts(last, pr);
      forall k | 0 <= k < |items|
        ensures 0 <= Product(items[k], pr) + Service(items[k], pr) <= ProductTotal(items, pr) + ServiceTotal(items, pr)
      {
        if k < |front| { assert front[k] == items[k]; }
      }
    }
  }

  lemma NonNegativeProducts(i: Item, pr: Progress)
    requires 0 <= i.estimated && 0 <= i.quantity && 0 <= i.fee && 0 <= ShownQuantity(i, pr) && 0 <= ShownPrice(i, pr)
    ensures 0 <= Product(i, pr) && 0 <= Service(i, pr) && 0 <= i.estimated * i.quantity
  {
  }

  // If the bill is an int32, and what was first asked for is, the view succeeds and its final totals add
  // up to the bill.
  lemma TotalsMatchTheBill(rows: seq<Row>, items: seq<Item>, pr: Progress, buyer: int, captain: int, fee: Int32)
    requires OneDemand(rows, items, pr, buyer, captain, fee) && AllFinal(items, pr) && ValidItems(items, pr)
    requires Appears(rows, buyer) && Fits32(|Payers(rows)|)
    requires Total(rows, buyer) <= INT32_MAX && OriginSum(items) <= INT32_MAX
    ensures BuyerSpec(items, pr, Share(rows)).Ok?
    ensures var v := BuyerSpec(items, pr, Share(rows)).value;
            v.actual.Some? && v.actual.value + v.service + Share(rows) == Total(rows, buyer)
  {
    ItemsAreOwed(rows, items, pr, buyer, captain, fee);
    BilledItemsExist(rows, items, pr, buyer, captain, fee);
    ShareFits(fee, |Payers(rows)|);
    SmallTotalsSucceed(items, pr, Share(rows));
  }

  lemma SmallTotalsSucceed(items: seq<Item>, pr: Progress, share: nat)
    requires AllFinal(items, pr) && ValidItems(items, pr) && items != []
    requires ProductTotal(items, pr) + ServiceTotal(items, pr) + share <= INT32_MAX && OriginSum(items) <= INT32_MAX
    ensures BuyerSpec(items, pr, share)
         == Ok(BuyerTotals(Subtotals(items, pr, share), OriginSum(items), Some(ProductTotal(items, pr)),
             ServiceTotal(items, pr)))
  {
    ItemsBelowTotals(items, pr);
    forall k | 0 <= k < |items| ensures Fits32(Subtotals(items, pr, share)[k]) {
      assert Product(items[k], pr) + Service(items[k], pr) <= ProductTotal(items, pr) + ServiceTotal(items, pr);
    }
  }

  // ------------------------------------------------------------------ what was asked for

  ghost predicate NothingKnown(items: seq<Item>, pr: Progress) {
    forall k :: 0 <= k < |items| ==> !Distributed(items[k], pr) && !Priced(items[k], pr)
  }

  lemma {:induction false} OriginIsFirst(items: seq<Item>, pr: Progress)
    requires NothingKnown(items, pr)
    ensures ProductTotal(items, pr) == OriginSum(items)
  {
    if items != [] {
      OriginIsFirst(items[..|items| - 1], pr);
    }
  }

  // The original total is what the lines say of the goods before anything is distributed or priced: the lines then
  // sum to it, the service fees and the share. It is the same figure at any later time.
  lemma OriginIsWhatWasAskedFor(items: seq<Item>, first: Progress, share: nat, later: Progress, laterShare: nat)
    requires NothingKnown(items, first) && items != []
    requires BuyerSpec(items, first, share).Ok? && BuyerSpec(items, later, laterShare).Ok?
    ensures var asked, now := BuyerSpec(items, first, share).value, BuyerSpec(items, later, laterShare).value;
            && now.origin == asked.origin && asked.actual.None?
            && Wrap64(Sum(asked.subtotals)) == Wrap64(asked.origin + asked.service + share)
  {
    OriginIsFirst(items, first);
    SubtotalsSum(items, first, share);
    WrapAdds(OriginSum(items), Wrap64(ServiceTotal(items, first)) + share);
    WrapAdds(ServiceTotal(items, first), OriginSum(items) + share);
  }
}
