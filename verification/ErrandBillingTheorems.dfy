// The bills and the captain's view agree: the same payers, the same totals, and failure for the same
// inputs, except when a payer's total leaves int64.
module ErrandBillingTheorems {
  import opened Common
  import opened ErrandBilling
  import opened ErrandBillingSums
  import opened ErrandCollectingView

  predicate NonNegative(rows: seq<Row>) {
    forall k :: 0 <= k < |rows| ==> 0 <= rows[k].price && 0 <= Quantity(rows[k]) && 0 <= rows[k].fee
  }

  // The two queries read the same assignments of one task: both sorted by payer, in any order within a
  // payer, with the task's packaging fee on every row.
  predicate SameTask(fee: Int32, drafts: seq<Row>, view: seq<Row>) {
    && multiset(drafts) == multiset(view)
    && SortedByPayer(drafts) && SortedByPayer(view)
    && (forall k :: 0 <= k < |drafts| ==> drafts[k].packaging == fee)
  }

  // ------------------------------------------------------------------ one payer's group

  lemma {:induction false} GroupIsOwed(rows: seq<Row>, payer: int)
    ensures ProductSum(OfPayer(rows, payer)) + ServiceSum(OfPayer(rows, payer)) == Owed(rows, payer)
  {
    if rows != [] {
      var front, last := rows[..|rows| - 1], rows[|rows| - 1];
      GroupIsOwed(front, payer);
      if last.payer == payer {
        SumsSnoc(OfPayer(front, payer), last);
      } else {
        assert OfPayer(rows, payer) == OfPayer(front, payer);
      }
    }
  }

  lemma {:induction false} GroupIsPart(rows: seq<Row>, payer: int)
    requires NonNegative(rows)
    ensures NonNegative(OfPayer(rows, payer)) && |OfPayer(rows, payer)| <= |rows|
  {
    if rows != [] {
      GroupIsPart(rows[..|rows| - 1], payer);
    }
  }

  lemma AmountsNonNegative(r: Row)
    requires 0 <= r.price && 0 <= Quantity(r) && 0 <= r.fee
    ensures 0 <= ProductAmount(r) && 0 <= ServiceAmount(r)
  {
  }

  // Every row's figures are bounded by the sums.
  lemma {:induction false} RowsBelowSums(g: seq<Row>)
    requires NonNegative(g)
    ensures 0 <= ProductSum(g) && 0 <= ServiceSum(g)
    ensures forall k :: 0 <= k < |g| ==>
              0 <= ProductAmount(g[k]) <= ProductSum(g) && 0 <= ServiceAmount(g[k]) <= ServiceSum(g)
  {
    if g != [] {
      var front := g[..|g| - 1];
      RowsBelowSums(front);
      AmountsNonNegative(g[|g| - 1]);
      forall k | 0 <= k < |g|
        ensures 0 <= ProductAmount(g[k]) <= ProductSum(g) && 0 <= ServiceAmount(g[k]) <= ServiceSum(g)
      {
        if k < |front| { assert front[k] == g[k]; }
      }
    }
  }

  // Rows that passed their own checks cannot make the sums leave int64.
  lemma {:induction false} SumsBelowRows(g: seq<Row>)
    requires forall k :: 0 <= k < |g| ==> Fits32(ProductAmount(g[k])) && Fits32(ServiceAmount(g[k]))
    ensures 0 <= ProductSum(g) <= |g| * INT32_MAX && 0 <= ServiceSum(g) <= |g| * INT32_MAX
  {
    if g != [] {
      SumsBelowRows(g[..|g| - 1]);
    }
  }

  // The view of a payer is accepted exactly when what the payer owes in all is an int32.
  lemma GroupFitsIff(g: seq<Row>, share: int)
    requires NonNegative(g) && g != [] && |g| <= 0x1_0000_0000 && 0 <= share
    ensures ViewFits(g, share) <==> ProductSum(g) + ServiceSum(g) + share <= INT32_MAX
  {
    RowsBelowSums(g);
    if ViewFits(g, share) {
      forall k | 0 <= k < |g| ensures Fits32(ProductAmount(g[k])) && Fits32(ServiceAmount(g[k])) {
        assert LineFits(LineOf(g[k], k == 0, share));
      }
      SumsBelowRows(g);
      assert |g| * INT32_MAX <= 0x1_0000_0000 * INT32_MAX;
    }
    if ProductSum(g) + ServiceSum(g) + share <= INT32_MAX {
      forall k | 0 <= k < |g| ensures LineFits(LineOf(g[k], k == 0, share)) {
        assert 0 <= ProductAmount(g[k]) <= ProductSum(g) && 0 <= ServiceAmount(g[k]) <= ServiceSum(g);
      }
    }
  }

  // ------------------------------------------------------------------ both computations, for one list

  predicate TotalsFit(fee: Int32, rows: seq<Row>) {
    forall p :: p in Payers(rows) ==> Owed(rows, p) + CeilDivide(fee, |Payers(rows)|) <= INT32_MAX
  }

  lemma CollectingOkIff(fee: Int32, rows: seq<Row>)
    requires NonNegative(rows) && |rows| <= 0x1_0000_0000
    ensures AllViewsFit(fee, rows) <==> TotalsFit(fee, rows)
  {
    var share := CeilDivide(fee, |Payers(rows)|);
    ShareFits(fee, |Payers(rows)|);
    forall p | p in Payers(rows)
      ensures ViewFits(OfPayer(rows, p), share) <==> Owed(rows, p) + share <= INT32_MAX
    {
      GroupIsOwed(rows, p);
      GroupIsPart(rows, p);
      HasRows(rows, p);
      GroupFitsIff(OfPayer(rows, p), share);
    }
  }

  lemma TotalsNonNegative(rows: seq<Row>, p: int)
    requires NonNegative(rows)
    ensures 0 <= Total(rows, p)
  {
    GroupIsOwed(rows, p);
    GroupIsPart(rows, p);
    RowsBelowSums(OfPayer(rows, p));
    ShareFits(PackagingFee(rows), |Payers(rows)|);
  }

  // A non-negative total passes the int32 check of the bills exactly when its remainder modulo 2^64 does.
  lemma DraftFitsIff(total: int)
    requires 0 <= total
    ensures Fits32(Wrap64(total)) <==> total % TWO_TO_64 <= INT32_MAX
    ensures total % TWO_TO_64 <= INT32_MAX && INT32_MAX < total ==> TWO_TO_64 <= total
  {
  }

  // ------------------------------------------------------------------ the agreement

  // Same payers and same totals, whatever the order of the rows within a payer; and when both succeed,
  // both say the plain total.
  lemma DraftsMatchCollecting(fee: Int32, drafts: seq<Row>, view: seq<Row>)
    requires SameTask(fee, drafts, view) && NonNegative(drafts) && NonNegative(view) && |view| <= 0x1_0000_0000
    ensures DraftsSpec(drafts).Ok? && CollectingSpec(fee, view).Ok? ==>
      var bills, views := DraftsSpec(drafts).value, CollectingSpec(fee, view).value;
      && |bills| == |views|
      && forall k :: 0 <= k < |bills| ==> bills[k].payer == views[k].payer
                                          && bills[k].amount == views[k].total == Total(drafts, bills[k].payer)
  {
    SameTotals(fee, drafts, view);
    CollectingOkIff(fee, view);
    if DraftsSpec(drafts).Ok? && CollectingSpec(fee, view).Ok? {
      var bills, views := DraftsSpec(drafts).value, CollectingSpec(fee, view).value;
      forall k | 0 <= k < |bills|
        ensures bills[k].payer == views[k].payer
        ensures bills[k].amount == views[k].total == Total(drafts, bills[k].payer)
      {
        var p := Payers(view)[k];
        assert p in Payers(view);
        ViewTotal(fee, view, p);
        TotalsNonNegative(drafts, p);
      }
    }
  }

  lemma SameTotals(fee: Int32, drafts: seq<Row>, view: seq<Row>)
    requires SameTask(fee, drafts, view)
    ensures Payers(drafts) == Payers(view)
    ensures forall p :: p in Payers(view) ==> Total(drafts, p) == Owed(view, p) + CeilDivide(fee, |Payers(view)|)
  {
    OrderWithinPayerIsImmaterial(drafts, view);
  }

  lemma ViewTotal(fee: Int32, rows: seq<Row>, p: int)
    requires NonNegative(rows) && |rows| <= 0x1_0000_0000
    requires p in Payers(rows) && TotalsFit(fee, rows)
    ensures var share := CeilDivide(fee, |Payers(rows)|);
            ViewOf(p, OfPayer(rows, p), share).total == Owed(rows, p) + share
  {
    GroupIsOwed(rows, p);
    GroupIsPart(rows, p);
    RowsBelowSums(OfPayer(rows, p));
    ShareFits(fee, |Payers(rows)|);
  }

  // The view fails exactly when some payer owes more than an int32 holds; the bills then fail too,
  // unless every total is small modulo 2^64. So the two disagree exactly when the running int64 totals
  // have wrapped all the way round.
  lemma FailuresAgreeIff(fee: Int32, drafts: seq<Row>, view: seq<Row>)
    requires SameTask(fee, drafts, view) && NonNegative(drafts) && NonNegative(view) && |view| <= 0x1_0000_0000
    ensures CollectingSpec(fee, view).Ok? ==> DraftsSpec(drafts).Ok?
    ensures DraftsSpec(drafts).Ok? != CollectingSpec(fee, view).Ok? <==>
      && Fits32(|Payers(drafts)|)
      && (forall p :: p in Payers(drafts) ==> Total(drafts, p) % TWO_TO_64 <= INT32_MAX)
      && (exists p :: p in Payers(drafts) && TWO_TO_64 <= Total(drafts, p))
    ensures DraftsSpec(drafts).Err? && CollectingSpec(fee, view).Err? ==>
              DraftsSpec(drafts) == Err(CollectingSpec(fee, view).error)
  {
    SameTotals(fee, drafts, view);
    CollectingOkIff(fee, view);
    forall p | p in Payers(drafts)
      ensures Fits32(Wrap64(Total(drafts, p))) <==> Total(drafts, p) % TWO_TO_64 <= INT32_MAX
      ensures Total(drafts, p) <= INT32_MAX ==> Total(drafts, p) % TWO_TO_64 <= INT32_MAX
      ensures Total(drafts, p) % TWO_TO_64 <= INT32_MAX && INT32_MAX < Total(drafts, p) ==>
                TWO_TO_64 <= Total(drafts, p)
    {
      TotalsNonNegative(drafts, p);
      DraftFitsIff(Total(drafts, p));
    }
  }

  // ------------------------------------------------------------------ the wrap is reachable

  const M: Int32 := 0x7FFF_FFFF
  const HUGE := Row(1, 2, 0, M, Some(M), M)
  const LARGE := Row(1, 2, 0, 8, Some(M), 0)
  const SMALL := Row(1, 2, 0, 1, Some(10), 0)
  const WRAPPING := [HUGE, HUGE, LARGE, SMALL]

  lemma WrappingTotal()
    ensures Payers(WRAPPING) == [1] && FirstPayee(WRAPPING, 1) == 2
    ensures Owed(WRAPPING, 1) == TWO_TO_64 + 6
  {
    var r1, r2, r3 := [HUGE], [HUGE, HUGE], [HUGE, HUGE, LARGE];
    OwedSnoc([], HUGE);
    OwedSnoc(r1, HUGE);
    OwedSnoc(r2, LARGE);
    OwedSnoc(r3, SMALL);
    assert [] + [HUGE] == r1 && r1 + [HUGE] == r2 && r2 + [LARGE] == r3 && r3 + [SMALL] == WRAPPING;
  }

  lemma WrappedDrafts()
    ensures DraftsSpec(WRAPPING) == Ok([BillDraft(1, 2, 6)])
  {
    WrappingTotal();
    assert Wrap64(Total(WRAPPING, 1)) == 6;
    assert DraftsFit(WRAPPING);
    assert DraftsSpec(WRAPPING).value == [BillDraft(1, 2, 6)];
  }

  lemma WrappedView()
    ensures NonNegative(WRAPPING) && CollectingSpec(0, WRAPPING) == Err(AmountExceedsInt32)
  {
    WrappingTotal();
    CollectingOkIff(0, WRAPPING);
    assert 1 in Payers(WRAPPING);
  }

  // Four int32 rows of one payer that are billed six cents while the captain's view refuses them.
  lemma WrappedBill()
    ensures SameTask(0, WRAPPING, WRAPPING) && NonNegative(WRAPPING)
    ensures DraftsSpec(WRAPPING) == Ok([BillDraft(1, 2, 6)])
    ensures CollectingSpec(0, WRAPPING) == Err(AmountExceedsInt32)
  {
    WrappedDrafts();
    WrappedView();
  }

  // ------------------------------------------------------------------ the columns of the captain's view

  function SumProducts(lines: seq<Line>): int {
    if lines == [] then 0 else SumProducts(lines[..|lines| - 1]) + lines[|lines| - 1].product
  }

  function SumServices(lines: seq<Line>): int {
    if lines == [] then 0 else SumServices(lines[..|lines| - 1]) + lines[|lines| - 1].service
  }

  lemma {:induction false} ColumnsSum(group: seq<Row>, share: int)
    ensures SumProducts(Lines(group, share)) == ProductSum(group)
    ensures SumServices(Lines(group, share)) == ServiceSum(group)
  {
    if group != [] {
      var n := |group| - 1;
      assert Lines(group, share)[..n] == Lines(group[..n], share);
      ColumnsSum(group[..n], share);
    }
  }

  // The figures of one line: goods at the price paid, the service fee per unit, and the share of the packaging on
  // the first line alone.
  ghost predicate LineFor(l: Line, r: Row, packaging: int) {
    var quantity := if r.quantity.Some? then r.quantity.value else 0;
    && l.product == r.price * quantity && l.service == r.fee * quantity && l.packaging == packaging
    && l.subtotal == l.product + l.service + l.packaging
  }

  // Every column of an accepted view adds up, for itself: goods with goods and fees with fees, and the total is
  // the three columns together.
  lemma ColumnsAddUp(fee: Int32, rows: seq<Row>, k: nat)
    requires CollectingSpec(fee, rows).Ok? && k < |CollectingSpec(fee, rows).value|
    ensures var v := CollectingSpec(fee, rows).value[k];
            var group := OfPayer(rows, v.payer);
            && |v.lines| == |group|
            && (forall i :: 0 <= i < |group| ==> LineFor(v.lines[i], group[i], if i == 0 then v.packaging else 0))
            && v.product == Wrap64(SumProducts(v.lines)) && v.service == Wrap64(SumServices(v.lines))
            && v.packaging == CeilDivide(fee, |Payers(rows)|)
            && v.total == v.product + v.service + v.packaging
  {
    var v := CollectingSpec(fee, rows).value[k];
    ColumnsSum(OfPayer(rows, v.payer), v.packaging);
  }
}
