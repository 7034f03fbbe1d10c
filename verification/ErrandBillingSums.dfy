// Facts about what the payers owe that do not depend on how it is computed: each payer appears once,
// the figures do not depend on the order of the rows, and together they come to the whole task.
module ErrandBillingSums {
  import opened Common
  import opened ErrandBilling

  predicate SortedByPayer(rows: seq<Row>) {
    forall i, j :: 0 <= i < j < |rows| ==> rows[i].payer <= rows[j].payer
  }

  predicate Increasing(ps: seq<int>) {
    forall i, j :: 0 <= i < j < |ps| ==> ps[i] < ps[j]
  }

  function AllRows(rows: seq<Row>): int {
    if rows == [] then 0 else AllRows(rows[..|rows| - 1]) + RowAmount(rows[|rows| - 1])
  }

  function OwedBy(rows: seq<Row>, ps: seq<int>): int {
    if ps == [] then 0 else OwedBy(rows, ps[..|ps| - 1]) + Owed(rows, ps[|ps| - 1])
  }

  function Billed(drafts: seq<BillDraft>): int {
    if drafts == [] then 0 else Billed(drafts[..|drafts| - 1]) + drafts[|drafts| - 1].amount
  }

  // ------------------------------------------------------------------ who pays

  lemma {:induction false} PayersExact(rows: seq<Row>)
    ensures Distinct(Payers(rows))
    ensures forall p :: p in Payers(rows) <==> Appears(rows, p)
  {
    if rows != [] {
      var front, last := rows[..|rows| - 1], rows[|rows| - 1];
      PayersExact(front);
      forall p ensures Appears(rows, p) <==> Appears(front, p) || p == last.payer {
        if Appears(front, p) {
          var k :| 0 <= k < |front| && front[k].payer == p;
          assert rows[k].payer == p;
        }
        if Appears(rows, p) && p != last.payer {
          var k :| 0 <= k < |rows| && rows[k].payer == p;
          assert front[k].payer == p;
        }
        if p == last.payer { assert rows[|rows| - 1].payer == p; }
      }
    }
  }

  lemma {:induction false} SortedPayersIncrease(rows: seq<Row>)
    requires SortedByPayer(rows)
    ensures Increasing(Payers(rows))
    ensures forall p :: p in Payers(rows) ==> p <= rows[|rows| - 1].payer
  {
    if rows != [] {
      var front, last := rows[..|rows| - 1], rows[|rows| - 1];
      SortedPayersIncrease(front);
      var r := Payers(front);
      if last.payer !in r {
        forall i | 0 <= i < |r| ensures r[i] < last.payer {
          assert r[i] in r;
          PayersExact(front);
        }
      }
    }
  }

  lemma {:induction false} IncreasingIsDetermined(a: seq<int>, b: seq<int>)
    requires Increasing(a) && Increasing(b)
    requires forall p :: p in a <==> p in b
    ensures a == b
  {
    assert (a == []) == (b == []) by {
      if a != [] { assert a[0] in a; }
      if b != [] { assert b[0] in b; }
    }
    if a != [] {
      var x, y := a[|a| - 1], b[|b| - 1];
      assert x in b && y in a;
      assert x == y;
      var a', b' := a[..|a| - 1], b[..|b| - 1];
      forall p ensures p in a' <==> p in b' {
        assert a == a' + [x] && b == b' + [y];
        assert x !in a' && y !in b';
        assert p in a <==> p in a' || p == x;
        assert p in b <==> p in b' || p == y;
      }
      IncreasingIsDetermined(a', b');
      assert a == a' + [x] && b == b' + [y];
    }
  }

  // ------------------------------------------------------------------ the order of the rows

  lemma {:induction false} OwedConcat(a: seq<Row>, b: seq<Row>, payer: int)
    ensures Owed(a + b, payer) == Owed(a, payer) + Owed(b, payer)
  {
    if b == [] {
      assert a + b == a;
    } else {
      var front, last := b[..|b| - 1], b[|b| - 1];
      OwedConcat(a, front, payer);
      assert b == front + [last] && a + b == (a + front) + [last];
      OwedSnoc(a + front, last);
      OwedSnoc(front, last);
    }
  }

  lemma Without(s: seq<Row>, k: nat)
    requires k < |s|
    ensures multiset(s[..k] + s[k + 1..]) == multiset(s) - multiset{s[k]}
  {
    assert s == s[..k] + [s[k]] + s[k + 1..];
  }

  lemma OwedWithout(s: seq<Row>, k: nat, payer: int)
    requires k < |s|
    ensures Owed(s, payer) == Owed(s[..k] + s[k + 1..], payer) + if s[k].payer == payer then RowAmount(s[k]) else 0
  {
    OwedConcat(s[..k], s[k + 1..], payer);
    OwedConcat(s[..k + 1], s[k + 1..], payer);
    OwedSnoc(s[..k], s[k]);
    assert s == s[..k + 1] + s[k + 1..] && s[..k + 1] == s[..k] + [s[k]];
  }

  lemma {:induction false} OwedOfPermutation(a: seq<Row>, b: seq<Row>, payer: int)
    requires multiset(a) == multiset(b)
    ensures Owed(a, payer) == Owed(b, payer)
  {
    if a == [] {
      assert |multiset(b)| == 0;
    } else {
      var front, last := a[..|a| - 1], a[|a| - 1];
      assert a == front + [last];
      assert last in multiset(b);
      var k :| 0 <= k < |b| && b[k] == last;
      var rest := b[..k] + b[k + 1..];
      assert front == a[..|a| - 1] + a[|a|..];
      Without(a, |a| - 1);
      Without(b, k);
      OwedOfPermutation(front, rest, payer);
      OwedWithout(b, k, payer);
      OwedSnoc(front, last);
    }
  }

  lemma SamePayers(a: seq<Row>, b: seq<Row>)
    requires multiset(a) == multiset(b)
    ensures forall p :: p in Payers(a) <==> p in Payers(b)
  {
    PayersExact(a);
    PayersExact(b);
    forall p ensures Appears(a, p) <==> Appears(b, p) {
      if Appears(a, p) { AppearsInPermutation(a, b, p); }
      if Appears(b, p) { AppearsInPermutation(b, a, p); }
    }
  }

  lemma AppearsInPermutation(a: seq<Row>, b: seq<Row>, p: int)
    requires multiset(a) == multiset(b) && Appears(a, p)
    ensures Appears(b, p)
  {
    var k :| 0 <= k < |a| && a[k].payer == p;
    assert a[k] in multiset(b);
  }

  // Reading the same rows sorted by payer gives the same payers in the same order and, for each, the
  // same sum, however the rows of one payer are ordered among themselves.
  lemma OrderWithinPayerIsImmaterial(a: seq<Row>, b: seq<Row>)
    requires multiset(a) == multiset(b) && SortedByPayer(a) && SortedByPayer(b)
    ensures Payers(a) == Payers(b)
    ensures forall p :: Owed(a, p) == Owed(b, p)
  {
    SamePayers(a, b);
    SortedPayersIncrease(a);
    SortedPayersIncrease(b);
    IncreasingIsDetermined(Payers(a), Payers(b));
    forall p ensures Owed(a, p) == Owed(b, p) {
      OwedOfPermutation(a, b, p);
    }
  }

  // ------------------------------------------------------------------ the whole task

  lemma {:induction false} OwedBySnoc(rows: seq<Row>, row: Row, ps: seq<int>)
    requires Distinct(ps)
    ensures OwedBy(rows + [row], ps) == OwedBy(rows, ps) + if row.payer in ps then RowAmount(row) else 0
  {
    if ps != [] {
      var front, last := ps[..|ps| - 1], ps[|ps| - 1];
      OwedBySnoc(rows, row, front);
      OwedSnoc(rows, row);
      assert ps == front + [last];
    }
  }

  // No row is billed twice and none is forgotten.
  lemma {:induction false} PayersOweEverything(rows: seq<Row>)
    ensures OwedBy(rows, Payers(rows)) == AllRows(rows)
  {
    if rows != [] {
      var front, last := rows[..|rows| - 1], rows[|rows| - 1];
      assert rows == front + [last];
      PayersOweEverything(front);
      PayersExact(front);
      OwedBySnoc(front, last, Payers(front));
      if last.payer !in Payers(front) {
        NothingOwed(front, last.payer);
        OwedSnoc(front, last);
        assert (Payers(front) + [last.payer])[..|Payers(front)|] == Payers(front);
      }
    }
  }

  lemma CeilDivideBounds(fee: int, n: int)
    requires 0 <= fee && 1 <= n
    ensures 0 <= CeilDivide(fee, n)
    ensures fee <= n * CeilDivide(fee, n) <= fee + n - 1
  {
    if fee > 0 {
      var q := (fee - 1) / n;
      assert fee - 1 == q * n + (fee - 1) % n;
      assert n * (1 + q) == q * n + n;
    }
  }

  lemma {:induction false} BilledIsOwed(rows: seq<Row>, drafts: seq<BillDraft>, ps: seq<int>)
    requires |drafts| == |ps|
    requires forall k :: 0 <= k < |ps| ==> drafts[k].amount == Total(rows, ps[k])
    ensures Billed(drafts) == OwedBy(rows, ps) + |ps| * Share(rows)
  {
    if ps != [] {
      var n := |ps| - 1;
      BilledIsOwed(rows, drafts[..n], ps[..n]);
      assert |ps| * Share(rows) == n * Share(rows) + Share(rows);
    }
  }

  // Together the bills collect every row exactly once, and the packaging fee with less than one extra
  // cent per payer.
  lemma BillsCoverTheTask(rows: seq<Row>)
    requires rows != [] && 0 <= PackagingFee(rows)
    requires DraftsSpec(rows).Ok?
    requires forall p :: p in Payers(rows) ==> Total(rows, p) <= INT64_MAX && -INT64_MAX <= Total(rows, p)
    ensures var n := |Payers(rows)|;
            var billed := Billed(DraftsSpec(rows).value);
            n >= 1 && AllRows(rows) + PackagingFee(rows) <= billed <= AllRows(rows) + PackagingFee(rows) + n - 1
  {
    var payers, drafts := Payers(rows), DraftsSpec(rows).value;
    PayersExact(rows);
    assert Appears(rows, rows[0].payer);
    assert rows[0].payer in payers;
    CeilDivideBounds(PackagingFee(rows), |payers|);
    PayersOweEverything(rows);
    BilledIsOwed(rows, drafts, payers);
  }
}
