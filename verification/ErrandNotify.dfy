// Who is told that the captain could not buy everything: what was bought of each item is handed out in
// the order of the requests until it runs out.
module ErrandNotify {
  import opened Common

  // One demand item of the task, with what was bought of the task item it belongs to.
  datatype Request = Request(taskItem: int, demandItem: int, required: nat, purchased: nat, reachable: bool)

  datatype Notice = Notice(demandItem: int, requested: nat, granted: nat)

  function Required(rows: seq<Request>): nat {
    if rows == [] then 0 else Required(rows[..|rows| - 1]) + rows[|rows| - 1].required
  }

  // What the k-th request of an item is told it gets: what the earlier ones leave, up to its own size.
  function Granted(rows: seq<Request>, k: nat): nat
    requires k < |rows|
  {
    Max(0, Min(rows[k].required, rows[0].purchased - Required(rows[..k])))
  }

  function GrantedSum(rows: seq<Request>, n: nat): nat
    requires n <= |rows|
  {
    if n == 0 then 0 else GrantedSum(rows, n - 1) + Granted(rows, n - 1)
  }

  predicate Told(rows: seq<Request>, k: nat)
    requires k < |rows|
  {
    Granted(rows, k) < rows[k].required && rows[k].reachable
  }

  // The notices of one item, in the order of the requests.
  function Notices(rows: seq<Request>, n: nat): seq<Notice>
    requires n <= |rows|
  {
    if n == 0 then []
    else
      var row := rows[n - 1];
      Notices(rows, n - 1) + if Told(rows, n - 1) then [Notice(row.demandItem, row.required, Granted(rows, n - 1))]
      else []
  }

  function OfItem(rows: seq<Request>, item: int): seq<Request> {
    if rows == [] then []
    else OfItem(rows[..|rows| - 1], item) + if rows[|rows| - 1].taskItem == item then [rows[|rows| - 1]] else []
  }

  ghost predicate AboutItem(rows: seq<Request>, item: int, n: Notice) {
    n in Notices(OfItem(rows, item), |OfItem(rows, item)|)
  }

  ghost predicate AnnouncedFor(rows: seq<Request>, items: seq<int>, n: Notice) {
    exists i :: i in items && AboutItem(rows, i, n)
  }

  ghost predicate Announced(rows: seq<Request>, n: Notice) {
    exists i :: AboutItem(rows, i, n)
  }

  // ------------------------------------------------------------------ the loops

  // One task item: the running remainder.
  method HandOut(rows: seq<Request>) returns (notices: seq<Notice>, remaining: nat)
    requires rows != []
    ensures notices == Notices(rows, |rows|)
    ensures remaining == Max(0, rows[0].purchased - Required(rows))
  {
    remaining, notices := rows[0].purchased, [];
    for k := 0 to |rows|
      invariant remaining == Max(0, rows[0].purchased - Required(rows[..k]))
      invariant notices == Notices(rows, k)
    {
      assert rows[..k + 1][..k] == rows[..k];
      var granted := Min(remaining, rows[k].required);
      remaining := remaining - granted;
      if granted != rows[k].required && rows[k].reachable {
        notices := notices + [Notice(rows[k].demandItem, rows[k].required, granted)];
      }
    }
    assert rows[..|rows|] == rows;
  }

  method GroupByItem(rows: seq<Request>) returns (items: seq<int>, groups: map<int, seq<Request>>)
    ensures forall i :: i in items ==> i in groups && groups[i] == OfItem(rows, i) && groups[i] != []
    ensures forall i :: i !in items ==> OfItem(rows, i) == []
  {
    items, groups := [], map[];
    for k := 0 to |rows|
      invariant forall i :: i in items <==> i in groups
      invariant forall i :: i in items ==> groups[i] == OfItem(rows[..k], i) && groups[i] != []
      invariant forall i :: i !in items ==> OfItem(rows[..k], i) == []
    {
      assert rows[..k + 1][..k] == rows[..k];
      var item := rows[k].taskItem;
      if item !in groups {
        items, groups := items + [item], groups[item := [rows[k]]];
      } else {
        groups := groups[item := groups[item] + [rows[k]]];
      }
    }
    assert rows[..|rows|] == rows;
  }

  // sendNonPurchasedNotifications. The items, whose order a Go map leaves open, are taken here in the
  // order in which they first appear.
  method Send(rows: seq<Request>) returns (notices: seq<Notice>)
    ensures forall n :: n in notices <==> Announced(rows, n)
  {
    var items, groups := GroupByItem(rows);
    notices := [];
    for k := 0 to |items|
      invariant forall n :: n in notices <==> AnnouncedFor(rows, items[..k], n)
    {
      var item := items[k];
      assert item in items && items[..k + 1] == items[..k] + [item];
      var sent, _ := HandOut(groups[item]);
      AnnouncedMore(rows, items[..k], item);
      notices := notices + sent;
    }
    assert items[..|items|] == items;
    forall n ensures AnnouncedFor(rows, items, n) <==> Announced(rows, n) {
      AnnouncedAll(rows, items, n);
    }
  }

  lemma AnnouncedMore(rows: seq<Request>, items: seq<int>, item: int)
    ensures forall n :: AnnouncedFor(rows, items + [item], n) <==>
              AnnouncedFor(rows, items, n) || AboutItem(rows, item, n)
  {
  }

  lemma AnnouncedAll(rows: seq<Request>, items: seq<int>, n: Notice)
    requires forall i :: i !in items ==> OfItem(rows, i) == []
    ensures AnnouncedFor(rows, items, n) <==> Announced(rows, n)
  {
  }

  // ------------------------------------------------------------------ what it hands out

  lemma {:induction false} GrantedPrefix(rows: seq<Request>, n: nat)
    requires n <= |rows| && rows != []
    ensures GrantedSum(rows, n) == Min(rows[0].purchased, Required(rows[..n]))
  {
    if n > 0 {
      GrantedPrefix(rows, n - 1);
      assert rows[..n][..n - 1] == rows[..n - 1];
    }
  }

  // Exactly what was bought is handed out, or everything that was asked for if that is less.
  lemma HandsOutExactly(rows: seq<Request>)
    requires rows != []
    ensures GrantedSum(rows, |rows|) == Min(rows[0].purchased, Required(rows))
    ensures forall k :: 0 <= k < |rows| ==> Granted(rows, k) <= rows[k].required
  {
    GrantedPrefix(rows, |rows|);
    assert rows[..|rows|] == rows;
  }

  lemma {:induction false} RequiredGrows(rows: seq<Request>, i: nat, j: nat)
    requires i < j <= |rows|
    ensures Required(rows[..i]) + rows[i].required <= Required(rows[..j])
  {
    assert rows[..j][..j - 1] == rows[..j - 1];
    if i < j - 1 {
      RequiredGrows(rows, i, j - 1);
    }
  }

  // First come, first served: whoever gets anything comes after requests that were met in full, so at
  // most one request of an item is met in part.
  lemma FirstComeFirstServed(rows: seq<Request>, i: nat, j: nat)
    requires i < j < |rows| && Granted(rows, j) > 0
    ensures Granted(rows, i) == rows[i].required
  {
    RequiredGrows(rows, i, j);
  }

  lemma {:induction false} NoticesAre(rows: seq<Request>, n: nat, notice: Notice)
    requires n <= |rows|
    ensures notice in Notices(rows, n) <==>
      exists k: nat :: k < n && Told(rows, k)
        && notice == Notice(rows[k].demandItem, rows[k].required, Granted(rows, k))
  {
    if n > 0 {
      NoticesAre(rows, n - 1, notice);
      var last := n - 1;
      if notice in Notices(rows, n) && notice !in Notices(rows, n - 1) {
        assert Told(rows, last);
      }
    }
  }

  // Everyone is told who asked for more than they get, and nobody else, provided they can be reached; and
  // if enough was bought, nobody is told anything.
  lemma ToldExactlyTheShort(rows: seq<Request>, k: nat)
    requires k < |rows|
    ensures Told(rows, k) <==> rows[k].reachable && rows[0].purchased < Required(rows[..k + 1]) && rows[k].required > 0
    ensures Required(rows) <= rows[0].purchased ==> Notices(rows, |rows|) == []
  {
    assert rows[..k + 1][..k] == rows[..k];
    if Required(rows) <= rows[0].purchased {
      NobodyTold(rows, |rows|);
    }
  }

  lemma {:induction false} NobodyTold(rows: seq<Request>, n: nat)
    requires n <= |rows| && rows != [] && Required(rows) <= rows[0].purchased
    ensures Notices(rows, n) == []
  {
    if n > 0 {
      NobodyTold(rows, n - 1);
      RequiredGrows(rows, n - 1, |rows|);
      assert rows[..|rows|] == rows;
    }
  }
}
