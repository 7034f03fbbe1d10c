// The captain's view of a task that collects payments: every payer with the payer's rows, the sums over
// them, and int32 checks on each figure along the way.
module ErrandCollectingView {
  import opened Common
  import opened ErrandBilling

  datatype Line = Line(product: int, service: int, packaging: int, subtotal: int)

  datatype PayerView = PayerView(payer: int, lines: seq<Line>, product: int, service: int, packaging: int, total: int)

  // The rows of one payer, in order.
  function OfPayer(rows: seq<Row>, payer: int): seq<Row> {
    if rows == [] then []
    else
      var last := rows[|rows| - 1];
      OfPayer(rows[..|rows| - 1], payer) + if last.payer == payer then [last] else []
  }

  function ProductSum(rows: seq<Row>): int {
    if rows == [] then 0 else ProductSum(rows[..|rows| - 1]) + ProductAmount(rows[|rows| - 1])
  }

  function ServiceSum(rows: seq<Row>): int {
    if rows == [] then 0 else ServiceSum(rows[..|rows| - 1]) + ServiceAmount(rows[|rows| - 1])
  }

  // The packaging share is shown on the first row of a payer only. Nothing wraps within a row: two products
  // of int32 values and an int32 value fit into an int64, unless price, fee and quantity are all -2^31.
  function LineOf(row: Row, first: bool, share: int): Line {
    var packaging := if first then share else 0;
    Line(ProductAmount(row), ServiceAmount(row), packaging, ProductAmount(row) + ServiceAmount(row) + packaging)
  }

  predicate LineFits(l: Line) {
    Fits32(l.product) && Fits32(l.service) && Fits32(l.packaging) && Fits32(l.subtotal)
  }

  predicate LinesFit(group: seq<Row>, share: int) {
    forall i :: 0 <= i < |group| ==> LineFits(LineOf(group[i], i == 0, share))
  }

  function Lines(group: seq<Row>, share: int): seq<Line> {
    seq(|group|, i requires 0 <= i < |group| => LineOf(group[i], i == 0, share))
  }

  predicate SumsFit(group: seq<Row>, share: int) {
    && Fits32(Wrap64(ProductSum(group)))
    && Fits32(Wrap64(ServiceSum(group)))
    && Fits32(share)
    && Fits32(Wrap64(ProductSum(group)) + Wrap64(ServiceSum(group)) + share)
  }

  predicate ViewFits(group: seq<Row>, share: int) {
    LinesFit(group, share) && SumsFit(group, share)
  }

  function ViewOf(payer: int, group: seq<Row>, share: int): PayerView {
    var product, service := Wrap64(ProductSum(group)), Wrap64(ServiceSum(group));
    PayerView(payer, Lines(group, share), product, service, share, product + service + share)
  }

  predicate AllViewsFit(fee: Int32, rows: seq<Row>) {
    forall p :: p in Payers(rows) ==> ViewFits(OfPayer(rows, p), CeilDivide(fee, |Payers(rows)|))
  }

  function CollectingSpec(fee: Int32, rows: seq<Row>): Result<seq<PayerView>, Overflow> {
    var payers := Payers(rows);
    if !Fits32(|payers|) then Err(ValueExceedsInt32)
    else if !AllViewsFit(fee, rows) then Err(AmountExceedsInt32)
    else Ok(seq(|payers|, k requires 0 <= k < |payers| =>
      ViewOf(payers[k], OfPayer(rows, payers[k]), CeilDivide(fee, |payers|))))
  }

  // ------------------------------------------------------------------ the loops

  ghost predicate GroupedRows(rows: seq<Row>, payers: seq<int>, groups: map<int, seq<Row>>) {
    && payers == Payers(rows)
    && (forall k :: 0 <= k < |payers| ==> payers[k] in groups)
    && (forall k :: 0 <= k < |payers| ==> groups[payers[k]] == OfPayer(rows, payers[k]))
  }

  method GroupRows(rows: seq<Row>) returns (payers: seq<int>, groups: map<int, seq<Row>>)
    ensures GroupedRows(rows, payers, groups)
  {
    payers, groups := [], map[];
    for i := 0 to |rows|
      invariant GroupedRows(rows[..i], payers, groups)
    {
      var row := rows[i];
      OfPayerSnoc(rows[..i], row);
      if row.payer !in payers {
        NoRows(rows[..i], row.payer);
        payers, groups := payers + [row.payer], groups[row.payer := []];
      }
      groups := groups[row.payer := groups[row.payer] + [row]];
      assert rows[..i + 1] == rows[..i] + [row];
    }
    assert rows[..|rows|] == rows;
  }

  lemma OfPayerSnoc(rows: seq<Row>, row: Row)
    ensures Payers(rows + [row]) == if row.payer in Payers(rows) then Payers(rows) else Payers(rows) + [row.payer]
    ensures forall p :: OfPayer(rows + [row], p) == OfPayer(rows, p) + if row.payer == p then [row] else []
  {
  }

  lemma {:induction false} NoRows(rows: seq<Row>, payer: int)
    requires payer !in Payers(rows)
    ensures OfPayer(rows, payer) == []
  {
    if rows != [] {
      NoRows(rows[..|rows| - 1], payer);
    }
  }

  // The running totals of one payer's group, kept in int64.
  method SumGroup(group: seq<Row>, share: int)
    returns (fits: bool, lines: seq<Line>, product: int, service: int, packaging: int)
    requires 0 <= share <= INT32_MAX
    ensures fits <==> LinesFit(group, share)
    ensures fits ==> lines == Lines(group, share)
    ensures fits ==> product == Wrap64(ProductSum(group)) && service == Wrap64(ServiceSum(group))
    ensures fits ==> packaging == if group == [] then 0 else share
  {
    lines, product, service, packaging := [], 0, 0, 0;
    for i := 0 to |group|
      invariant LinesFit(group[..i], share) && lines == Lines(group[..i], share)
      invariant product == Wrap64(ProductSum(group[..i])) && service == Wrap64(ServiceSum(group[..i]))
      invariant packaging == if i == 0 then 0 else share
    {
      var line := LineOf(group[i], i == 0, share);
      SumsSnoc(group[..i], group[i]);
      assert group[..i + 1] == group[..i] + [group[i]];
      product, service, packaging := Wrap64(product + line.product), Wrap64(service + line.service),
          packaging + line.packaging;
      if !LineFits(line) { return false, [], 0, 0, 0; }
      lines := lines + [line];
    }
    assert group[..|group|] == group;
    fits := true;
  }

  lemma SumsSnoc(rows: seq<Row>, row: Row)
    ensures ProductSum(rows + [row]) == ProductSum(rows) + ProductAmount(row)
    ensures ServiceSum(rows + [row]) == ServiceSum(rows) + ServiceAmount(row)
    ensures Wrap64(Wrap64(ProductSum(rows)) + ProductAmount(row)) == Wrap64(ProductSum(rows + [row]))
    ensures Wrap64(Wrap64(ServiceSum(rows)) + ServiceAmount(row)) == Wrap64(ServiceSum(rows + [row]))
  {
    assert (rows + [row])[..|rows|] == rows;
    WrapAdds(ProductSum(rows), ProductAmount(row));
    WrapAdds(ServiceSum(rows), ServiceAmount(row));
  }

  method BuildView(payer: int, group: seq<Row>, share: int) returns (r: Option<PayerView>)
    requires group != [] && Fits32(share)
    ensures r == if ViewFits(group, share) then Some(ViewOf(payer, group, share)) else None
  {
    var fits, lines, product, service, packaging := SumGroup(group, share);
    var total := product + service + packaging;
    if !fits || !Fits32(product) || !Fits32(service) || !Fits32(packaging) || !Fits32(Wrap64(total)) { return None; }
    r := Some(PayerView(payer, lines, product, service, packaging, total));
  }

  // buildCollectingPaymentBills.
  method BuildCollecting(fee: Int32, rows: seq<Row>) returns (r: Result<seq<PayerView>, Overflow>)
    ensures r == CollectingSpec(fee, rows)
  {
    var payers, groups := GroupRows(rows);
    if !Fits32(|payers|) { return Err(ValueExceedsInt32); }
    var share := CeilDivide(fee, |payers|);
    ShareFits(fee, |payers|);
    var views: seq<PayerView> := [];
    for k := 0 to |payers|
      invariant |views| == k
      invariant forall j :: 0 <= j < k ==> ViewFits(OfPayer(rows, payers[j]), share)
      invariant forall j :: 0 <= j < k ==> views[j] == ViewOf(payers[j], OfPayer(rows, payers[j]), share)
    {
      var payer := payers[k];
      assert payer in payers;
      HasRows(rows, payer);
      var view := BuildView(payer, groups[payer], share);
      if view.None? { return Err(AmountExceedsInt32); }
      views := views + [view.value];
    }
    AllOf(fee, rows, payers);
    assert views == CollectingSpec(fee, rows).value;
    r := Ok(views);
  }

  lemma AllOf(fee: Int32, rows: seq<Row>, payers: seq<int>)
    requires payers == Payers(rows)
    requires forall j :: 0 <= j < |payers| ==> ViewFits(OfPayer(rows, payers[j]), CeilDivide(fee, |payers|))
    ensures AllViewsFit(fee, rows)
  {
  }

  lemma {:induction false} HasRows(rows: seq<Row>, payer: int)
    requires payer in Payers(rows)
    ensures OfPayer(rows, payer) != []
  {
    if rows[|rows| - 1].payer != payer {
      HasRows(rows[..|rows| - 1], payer);
    }
  }

  lemma ShareFits(fee: Int32, n: nat)
    ensures Fits32(CeilDivide(fee, n))
  {
  }
}
