// What the payers of an errand task owe. The bills are drafted from the distributed assignments with
// one running int64 total per payer; ErrandCollectingView and ErrandBuyerView compute the same figures the
// other two ways.
module ErrandBilling {
  import opened Common

  // One billable assignment. quantity is what was distributed.
  datatype Row = Row(payer: int, payee: int, packaging: Int32, price: Int32, quantity: Option<Int32>, fee: Int32)

  datatype BillDraft = BillDraft(payer: int, payee: int, amount: int)

  datatype Overflow = ValueExceedsInt32 | AmountExceedsInt32

  const TWO_TO_64 := 0x1_0000_0000_0000_0000

  predicate Fits32(x: int) {
    0 <= x <= INT32_MAX
  }

  function CeilDivide(value: int, divisor: int): int {
    if value <= 0 || divisor <= 0 then 0 else 1 + (value - 1) / divisor
  }

  function Quantity(r: Row): Int32 {
    if r.quantity.Some? then r.quantity.value else 0
  }

  function ProductAmount(r: Row): int {
    r.price * Quantity(r)
  }

  function ServiceAmount(r: Row): int {
    r.fee * Quantity(r)
  }

  function RowAmount(r: Row): int {
    ProductAmount(r) + ServiceAmount(r)
  }

  // The payers, in the order in which they first appear.
  function Payers(rows: seq<Row>): seq<int> {
    if rows == [] then []
    else
      var r := Payers(rows[..|rows| - 1]);
      var p := rows[|rows| - 1].payer;
      if p in r then r else r + [p]
  }

  // The plain sum a payer owes for goods and service.
  function Owed(rows: seq<Row>, payer: int): int {
    if rows == [] then 0
    else
      var last := rows[|rows| - 1];
      Owed(rows[..|rows| - 1], payer) + if last.payer == payer then RowAmount(last) else 0
  }

  function FirstPayee(rows: seq<Row>, payer: int): int {
    if rows == [] then 0
    else if payer in Payers(rows[..|rows| - 1]) then FirstPayee(rows[..|rows| - 1], payer)
    else rows[|rows| - 1].payee
  }

  function PackagingFee(rows: seq<Row>): Int32 {
    if rows == [] then 0 else rows[0].packaging
  }

  function Share(rows: seq<Row>): int {
    CeilDivide(PackagingFee(rows), |Payers(rows)|)
  }

  // What a payer owes in all, as a plain integer.
  function Total(rows: seq<Row>, payer: int): int {
    Owed(rows, payer) + Share(rows)
  }

  predicate Appears(rows: seq<Row>, payer: int) {
    exists k :: 0 <= k < |rows| && rows[k].payer == payer
  }

  predicate Distinct(ps: seq<int>) {
    forall i, j :: 0 <= i < j < |ps| ==> ps[i] != ps[j]
  }

  // ------------------------------------------------------------------ the bills

  predicate DraftsFit(rows: seq<Row>) {
    forall p :: p in Payers(rows) ==> Fits32(Wrap64(Total(rows, p)))
  }

  function Draft(rows: seq<Row>, payer: int): BillDraft {
    BillDraft(payer, FirstPayee(rows, payer), Wrap64(Total(rows, payer)))
  }

  // One draft per payer, for the int64 reading of the payer's total.
  function DraftsSpec(rows: seq<Row>): Result<seq<BillDraft>, Overflow> {
    var payers := Payers(rows);
    if !Fits32(|payers|) then Err(ValueExceedsInt32)
    else if !DraftsFit(rows) then Err(AmountExceedsInt32)
    else Ok(seq(|payers|, k requires 0 <= k < |payers| => Draft(rows, payers[k])))
  }

  // The running state of the grouping loop is exactly the sums over the rows read so far.
  ghost predicate Grouped(rows: seq<Row>, payers: seq<int>, amounts: map<int, int>, payees: map<int, int>) {
    && payers == Payers(rows)
    && (forall p :: p in payers ==> p in amounts && p in payees)
    && (forall p :: p in payers ==> amounts[p] == Wrap64(Owed(rows, p)))
    && (forall p :: p in payers ==> payees[p] == FirstPayee(rows, p))
  }

  // Reading one more row.
  method AddRow(ghost rows: seq<Row>, row: Row, payers: seq<int>, amounts: map<int, int>, payees: map<int, int>)
    returns (payers': seq<int>, amounts': map<int, int>, payees': map<int, int>)
    requires Grouped(rows, payers, amounts, payees)
    ensures Grouped(rows + [row], payers', amounts', payees')
  {
    payers', amounts', payees' := payers, amounts, payees;
    if row.payer !in payers {
      payers', amounts', payees' := payers + [row.payer], amounts[row.payer := 0], payees[row.payer := row.payee];
      NothingOwed(rows, row.payer);
    }
    var amount := Wrap64(amounts'[row.payer] + RowAmount(row));
    amounts' := amounts'[row.payer := amount];
    WrapAdds(Owed(rows, row.payer), RowAmount(row));
    OwedSnoc(rows, row);
  }

  // The figures after one more row.
  lemma OwedSnoc(rows: seq<Row>, row: Row)
    ensures Payers(rows + [row]) == if row.payer in Payers(rows) then Payers(rows) else Payers(rows) + [row.payer]
    ensures forall p :: Owed(rows + [row], p) == Owed(rows, p) + if row.payer == p then RowAmount(row) else 0
    ensures forall p :: FirstPayee(rows + [row], p) == if p in Payers(rows) then FirstPayee(rows, p) else row.payee
  {
  }

  lemma {:induction false} NothingOwed(rows: seq<Row>, payer: int)
    requires payer !in Payers(rows)
    ensures Owed(rows, payer) == 0
  {
    if rows != [] {
      NothingOwed(rows[..|rows| - 1], payer);
    }
  }

  // buildTaskPaymentBillDrafts: one accumulator per payer, kept in a map.
  method BuildDrafts(rows: seq<Row>) returns (r: Result<seq<BillDraft>, Overflow>)
    ensures r == DraftsSpec(rows)
  {
    var amounts: map<int, int>, payees: map<int, int>, payers: seq<int> := map[], map[], [];
    var packaging: Int32 := 0;
    for i := 0 to |rows|
      invariant packaging == PackagingFee(rows[..i])
      invariant Grouped(rows[..i], payers, amounts, payees)
    {
      if i == 0 { packaging := rows[i].packaging; }
      payers, amounts, payees := AddRow(rows[..i], rows[i], payers, amounts, payees);
      assert rows[..i] + [rows[i]] == rows[..i + 1];
    }
    assert rows[..|rows|] == rows;
    if !Fits32(|payers|) { return Err(ValueExceedsInt32); }
    var share := CeilDivide(packaging, |payers|);
    TotalsOfGroups(rows, payers, amounts, payees, share);
    r := EmitDrafts(payers, amounts, payees, share);
    assert r.Ok? <==> DraftsFit(rows);
    if r.Ok? { assert r.value == DraftsSpec(rows).value; }
  }

  method EmitDrafts(payers: seq<int>, amounts: map<int, int>, payees: map<int, int>, share: int)
    returns (r: Result<seq<BillDraft>, Overflow>)
    requires forall j :: 0 <= j < |payers| ==> payers[j] in amounts && payers[j] in payees
    ensures r.Ok? <==> forall j :: 0 <= j < |payers| ==> Fits32(Wrap64(amounts[payers[j]] + share))
    ensures r.Ok? ==> |r.value| == |payers|
    ensures r.Ok? ==> forall j :: 0 <= j < |payers| ==>
      r.value[j] == BillDraft(payers[j], payees[payers[j]], Wrap64(amounts[payers[j]] + share))
    ensures r.Err? ==> r.error == AmountExceedsInt32
  {
    var drafts: seq<BillDraft> := [];
    for k := 0 to |payers|
      invariant |drafts| == k
      invariant forall j :: 0 <= j < k ==> Fits32(Wrap64(amounts[payers[j]] + share))
      invariant forall j :: 0 <= j < k ==>
        drafts[j] == BillDraft(payers[j], payees[payers[j]], Wrap64(amounts[payers[j]] + share))
    {
      var payer := payers[k];
      var amount := Wrap64(amounts[payer] + share);
      if !Fits32(amount) { return Err(AmountExceedsInt32); }
      drafts := drafts + [BillDraft(payer, payees[payer], amount)];
    }
    r := Ok(drafts);
  }

  lemma TotalsOfGroups(rows: seq<Row>, payers: seq<int>, amounts: map<int, int>, payees: map<int, int>, share: int)
    requires Grouped(rows, payers, amounts, payees) && share == Share(rows)
    ensures forall j :: 0 <= j < |payers| ==> payers[j] in amounts && payers[j] in payees
    ensures forall j :: 0 <= j < |payers| ==> Wrap64(amounts[payers[j]] + share) == Wrap64(Total(rows, payers[j]))
    ensures forall j :: 0 <= j < |payers| ==> payees[payers[j]] == FirstPayee(rows, payers[j])
  {
    forall j | 0 <= j < |payers|
      ensures payers[j] in amounts && payers[j] in payees && payees[payers[j]] == FirstPayee(rows, payers[j])
      ensures Wrap64(amounts[payers[j]] + share) == Wrap64(Total(rows, payers[j]))
    {
      assert payers[j] in payers;
      WrapAdds(Owed(rows, payers[j]), share);
    }
  }

  lemma WrapAdds(a: int, b: int)
    ensures Wrap64(Wrap64(a) + b) == Wrap64(a + b)
  {
  }
}
