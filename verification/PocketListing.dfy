// Listing pockets page by page with the signed tokens, while the table may change between the requests.
module PocketListing {
  import opened Common
  import opened Base64
  import opened CursorToken

  const OWNER: seq<Byte> := [111, 119, 110, 101, 114]
  const MEMBER: seq<Byte> := [109, 101, 109, 98, 101, 114]
  const DRAFT: seq<Byte> := [100, 114, 97, 102, 116]
  const LIST: seq<Byte> := [108, 105, 115, 116]
  const MAX_SIZE: nat := 20

  datatype Pocket = Pocket(id: int, owner: int, members: set<int>, status: seq<Byte>)

  // What is asked for. An empty perspective means the owner's, an empty status any status.
  datatype Query = Query(actor: int, perspective: seq<Byte>, status: seq<Byte>)

  datatype Page = Page(pockets: seq<Pocket>, next: seq<Byte>)

  // A page before its token is written: next is the id below which the following page starts.
  datatype Cut = Cut(pockets: seq<Pocket>, next: Option<int>)

  datatype ListError = InvalidPerspective | BadToken(refusal: Refusal)

  // One request of a client that follows the tokens: the table as it is by then and the page size asked for.
  datatype Request = Request(table: seq<Pocket>, size: int)

  function Perspective(q: Query): seq<Byte> {
    if q.perspective == [] then OWNER else q.perspective
  }

  predicate ValidPerspective(q: Query) {
    Perspective(q) == OWNER || Perspective(q) == MEMBER
  }

  function Scope(q: Query): seq<Byte> {
    LIST + [COLON] + Perspective(q) + [COLON] + q.status
  }

  function PageSize(size: int): nat {
    if size <= 0 || size > MAX_SIZE then MAX_SIZE else size
  }

  // A table lists its pockets by falling id, as the query orders them.
  predicate ValidTable(table: seq<Pocket>) {
    && (forall k :: 0 <= k < |table| ==> 0 < table[k].id <= INT64_MAX)
    && (forall j, k :: 0 <= j < k < |table| ==> table[j].id > table[k].id)
  }

  predicate Matches(q: Query, p: Pocket) {
    && (if Perspective(q) == OWNER then p.owner == q.actor else p.status != DRAFT && q.actor in p.members)
    && (q.status == [] || p.status == q.status)
  }

  function Select(table: seq<Pocket>, q: Query, after: int): seq<Pocket> {
    if table == [] then []
    else (if Matches(q, table[0]) && (after <= 0 || table[0].id < after) then [table[0]] else []) + Select(table[1..],
        q, after)
  }

  // One more row than the page shows is fetched to learn whether another page follows.
  function CutPage(table: seq<Pocket>, q: Query, size: int, after: int): Cut {
    var selected := Select(table, q, after);
    var fetched := selected[..Min(|selected|, PageSize(size) + 1)];
    if |fetched| > PageSize(size) then
      var shown := fetched[..PageSize(size)];
      Cut(shown, Some(shown[|shown| - 1].id))
    else Cut(fetched, None)
  }

  function List(mac: seq<Byte> -> seq<Byte>, table: seq<Pocket>, q: Query, size: int,
        token: seq<Byte>): Result<Page, ListError> {
    if !ValidPerspective(q) then Err(InvalidPerspective)
    else
      var after := ParseCursor(mac, token, q.actor, Scope(q));
      if after.Err? then Err(BadToken(after.error))
      else
        var cut := CutPage(table, q, size, after.value);
        Ok(Page(cut.pockets, if cut.next.Some? then Cursor(mac, q.actor, cut.next.value, Scope(q)) else []))
  }

  // ------------------------------------------------------------------ following the tokens

  datatype Walked = Walked(pockets: seq<Pocket>, ended: bool)

  // Each request passes the token the one before returned, until there is none or the client stops.
  function Walk(mac: seq<Byte> -> seq<Byte>, requests: seq<Request>, q: Query,
        token: seq<Byte>): Result<Walked, ListError> {
    if requests == [] then Ok(Walked([], false))
    else
      var page := List(mac, requests[0].table, q, requests[0].size, token);
      if page.Err? then Err(page.error)
      else if page.value.next == [] then Ok(Walked(page.value.pockets, true))
      else
        var rest := Walk(mac, requests[1..], q, page.value.next);
        if rest.Err? then rest else Ok(Walked(page.value.pockets + rest.value.pockets, rest.value.ended))
  }

  predicate ValidRequests(requests: seq<Request>) {
    forall k :: 0 <= k < |requests| ==> ValidTable(requests[k].table)
  }

  predicate Falling(pockets: seq<Pocket>) {
    forall j, k :: 0 <= j < k < |pockets| ==> pockets[j].id > pockets[k].id
  }

  predicate Holds(pockets: seq<Pocket>, id: int) {
    exists k :: 0 <= k < |pockets| && pockets[k].id == id
  }

  // The pocket is there and matches.
  predicate Lists(table: seq<Pocket>, q: Query, id: int) {
    exists k :: 0 <= k < |table| && table[k].id == id && Matches(q, table[k])
  }

  // The token that stands for a position, the start being no token.
  function TokenFor(mac: seq<Byte> -> seq<Byte>, q: Query, after: int): seq<Byte> {
    if after <= 0 then [] else Cursor(mac, q.actor, after, Scope(q))
  }

  predicate Position(after: int) {
    0 <= after <= INT64_MAX
  }

  // ------------------------------------------------------------------ one page

  lemma {:induction false} InSelect(table: seq<Pocket>, q: Query, after: int, p: Pocket)
    ensures p in Select(table, q, after) <==> p in table && Matches(q, p) && (after <= 0 || p.id < after)
  {
    if table != [] {
      InSelect(table[1..], q, after, p);
      assert p in table <==> p == table[0] || p in table[1..];
    }
  }

  lemma {:induction false} SelectFalls(table: seq<Pocket>, q: Query, after: int)
    requires ValidTable(table)
    ensures ValidTable(Select(table, q, after))
  {
    if table != [] {
      var rest := Select(table[1..], q, after);
      assert ValidTable(table[1..]);
      SelectFalls(table[1..], q, after);
      forall k | 0 <= k < |rest| ensures rest[k].id < table[0].id {
        assert rest[k] in rest;
        InSelect(table[1..], q, after, rest[k]);
      }
    }
  }

  lemma Selected(table: seq<Pocket>, q: Query, after: int)
    requires ValidTable(table)
    ensures ValidTable(Select(table, q, after))
    ensures forall p :: p in Select(table, q, after) <==> p in table && Matches(q, p) && (after <= 0 || p.id < after)
  {
  }

  lemma CutIsPrefix(table: seq<Pocket>, q: Query, size: int, after: int)
    requires ValidTable(table)
    ensures var cut, all, n := CutPage(table, q, size, after), Select(table, q, after), PageSize(size);
            ValidTable(all) && cut == if |all| > n then Cut(all[..n], Some(all[n - 1].id)) else Cut(all, None)
  {
    Selected(table, q, after);
    var all, n := Select(table, q, after), PageSize(size);
    if |all| > n { assert all[..n + 1][..n] == all[..n]; }
  }

  lemma ListAt(mac: seq<Byte> -> seq<Byte>, table: seq<Pocket>, q: Query, size: int, after: int)
    requires ValidTable(table) && ValidPerspective(q) && IsInt64(q.actor) && Position(after)
    ensures var cut := CutPage(table, q, size, after);
            && (cut.next.Some? ==> 0 < cut.next.value <= INT64_MAX)
            && List(mac, table, q, size, TokenFor(mac, q, after))
               == Ok(Page(cut.pockets, TokenFor(mac, q, if cut.next.Some? then cut.next.value else 0)))
            && (cut.next.None? <==> List(mac, table, q, size, TokenFor(mac, q, after)).value.next == [])
  {
    CutIsPrefix(table, q, size, after);
    if after > 0 {
      CursorRoundTrip(mac, q.actor, after, Scope(q), q.actor, Scope(q));
    }
  }

  // What is left after a page is what comes below its last pocket.
  lemma {:induction false} SelectBelow(table: seq<Pocket>, q: Query, after: int, n: nat)
    requires ValidTable(table) && 0 < n <= |Select(table, q, after)|
    ensures Select(table, q, Select(table, q, after)[n - 1].id) == Select(table, q, after)[n..]
  {
    var all := Select(table, q, after);
    SelectFalls(table, q, after);
    SelectFalls(table, q, all[n - 1].id);
    forall p ensures p in Select(table, q, all[n - 1].id) <==> p in all[n..] {
      InSelect(table, q, after, p);
      InSelect(table, q, all[n - 1].id, p);
      InTail(all, n, p);
      assert all[n - 1] in all;
      InSelect(table, q, after, all[n - 1]);
    }
    FallingIsDetermined(Select(table, q, all[n - 1].id), all[n..]);
  }

  lemma InTail(all: seq<Pocket>, n: nat, p: Pocket)
    requires Falling(all) && 0 < n <= |all|
    ensures p in all[n..] <==> p in all && p.id < all[n - 1].id
  {
  }

  lemma HeadIsOut(a: seq<Pocket>)
    requires Falling(a) && a != []
    ensures a[0] !in a[1..] && forall p :: p in a <==> p in a[1..] || p == a[0]
  {
  }

  lemma {:induction false} FallingIsDetermined(a: seq<Pocket>, b: seq<Pocket>)
    requires Falling(a) && Falling(b)
    requires forall p :: p in a <==> p in b
    ensures a == b
  {
    assert (a == []) == (b == []) by {
      if a != [] { assert a[0] in a; }
      if b != [] { assert b[0] in b; }
    }
    if a != [] {
      assert a[0] in b && b[0] in a;
      assert a[0] == b[0];
      HeadIsOut(a);
      HeadIsOut(b);
      forall p ensures p in a[1..] <==> p in b[1..] {
        assert p in a <==> p in a[1..] || p == a[0];
        assert p in b <==> p in b[1..] || p == b[0];
      }
      FallingIsDetermined(a[1..], b[1..]);
    }
  }

  // ------------------------------------------------------------------ the whole walk

  // The walk without its tokens: each request goes on below the last pocket of the page before.
  function Pages(requests: seq<Request>, q: Query, after: int): Walked {
    if requests == [] then Walked([], false)
    else
      var all, n := Select(requests[0].table, q, after), PageSize(requests[0].size);
      if |all| <= n then Walked(all, true)
      else
        var rest := Pages(requests[1..], q, all[n - 1].id);
        Walked(all[..n] + rest.pockets, rest.ended)
  }

  // No token along the way is refused, and each carries just the position.
  lemma {:induction false} WalkIsPages(mac: seq<Byte> -> seq<Byte>, requests: seq<Request>, q: Query, after: int)
    requires ValidRequests(requests) && ValidPerspective(q) && IsInt64(q.actor) && Position(after)
    ensures Walk(mac, requests, q, TokenFor(mac, q, after)) == Ok(Pages(requests, q, after))
  {
    if requests != [] {
      ListAt(mac, requests[0].table, q, requests[0].size, after);
      CutIsPrefix(requests[0].table, q, requests[0].size, after);
      var cut := CutPage(requests[0].table, q, requests[0].size, after);
      if cut.next.Some? {
        WalkIsPages(mac, requests[1..], q, cut.next.value);
      }
    }
  }

  predicate Below(pockets: seq<Pocket>, q: Query, after: int) {
    forall k :: 0 <= k < |pockets| ==> Matches(q, pockets[k]) && (after == 0 || pockets[k].id < after)
  }

  lemma SelectedBelow(table: seq<Pocket>, q: Query, after: int)
    requires ValidTable(table) && Position(after)
    ensures ValidTable(Select(table, q, after)) && Below(Select(table, q, after), q, after)
  {
    var all := Select(table, q, after);
    Selected(table, q, after);
    forall k | 0 <= k < |all| ensures Matches(q, all[k]) && (after == 0 || all[k].id < after) {
      assert all[k] in all;
    }
  }

  lemma {:induction false} PagesFall(requests: seq<Request>, q: Query, after: int)
    requires ValidRequests(requests) && Position(after)
    ensures Falling(Pages(requests, q, after).pockets) && Below(Pages(requests, q, after).pockets, q, after)
  {
    if requests != [] {
      SelectedBelow(requests[0].table, q, after);
      var all, n := Select(requests[0].table, q, after), PageSize(requests[0].size);
      if |all| > n {
        PagesFall(requests[1..], q, all[n - 1].id);
        FallingJoin(all[..n], Pages(requests[1..], q, all[n - 1].id).pockets, q, after);
      }
    }
  }

  lemma FallingJoin(a: seq<Pocket>, b: seq<Pocket>, q: Query, after: int)
    requires a != [] && Falling(a) && Falling(b) && a[|a| - 1].id > 0
    requires Below(a, q, after) && Below(b, q, a[|a| - 1].id)
    ensures Falling(a + b) && Below(a + b, q, after)
  {
  }

  lemma {:induction false} PagesMissNothing(requests: seq<Request>, q: Query, after: int, id: int)
    requires ValidRequests(requests) && Position(after)
    requires forall k :: 0 <= k < |requests| ==> Lists(requests[k].table, q, id)
    requires after == 0 || id < after
    ensures Pages(requests, q, after).ended ==> Holds(Pages(requests, q, after).pockets, id)
  {
    if requests != [] {
      SelectedBelow(requests[0].table, q, after);
      var all, n := Select(requests[0].table, q, after), PageSize(requests[0].size);
      var k := Found(requests[0].table, q, after, id);
      if |all| <= n {
        assert Holds(all, id);
      } else {
        var rest := Pages(requests[1..], q, all[n - 1].id);
        if k < n {
          HoldsLeft(all[..n], rest.pockets, id, k);
        } else {
          PagesMissNothing(requests[1..], q, all[n - 1].id, id);
          if rest.ended { HoldsRight(all[..n], rest.pockets, id); }
        }
      }
    }
  }

  lemma Found(table: seq<Pocket>, q: Query, after: int, id: int) returns (k: nat)
    requires ValidTable(table) && Lists(table, q, id) && (after == 0 || id < after)
    ensures k < |Select(table, q, after)| && Select(table, q, after)[k].id == id
  {
    Selected(table, q, after);
    var t :| 0 <= t < |table| && table[t].id == id && Matches(q, table[t]);
    assert table[t] in Select(table, q, after);
    k :| 0 <= k < |Select(table, q, after)| && Select(table, q, after)[k] == table[t];
  }

  lemma HoldsLeft(a: seq<Pocket>, b: seq<Pocket>, id: int, k: nat)
    requires k < |a| && a[k].id == id
    ensures Holds(a + b, id)
  {
    assert (a + b)[k].id == id;
  }

  lemma HoldsRight(a: seq<Pocket>, b: seq<Pocket>, id: int)
    requires Holds(b, id)
    ensures Holds(a + b, id)
  {
    var k :| 0 <= k < |b| && b[k].id == id;
    assert (a + b)[|a| + k].id == id;
  }

  predicate Unchanging(requests: seq<Request>, table: seq<Pocket>) {
    forall k :: 0 <= k < |requests| ==> requests[k].table == table
  }

  function Capacity(requests: seq<Request>): nat {
    if requests == [] then 0 else PageSize(requests[0].size) + Capacity(requests[1..])
  }

  lemma {:induction false} PagesAreComplete(requests: seq<Request>, table: seq<Pocket>, q: Query, after: int)
    requires ValidTable(table) && Unchanging(requests, table) && requests != []
    requires |Select(table, q, after)| <= Capacity(requests)
    ensures Pages(requests, q, after) == Walked(Select(table, q, after), true)
  {
    var all, n := Select(table, q, after), PageSize(requests[0].size);
    assert requests[0].table == table;
    if |all| > n {
      SelectBelow(table, q, after, n);
      PagesAreComplete(requests[1..], table, q, all[n - 1].id);
      assert all == all[..n] + all[n..];
    }
  }

  // Following the tokens from the start, none is refused, every pocket returned matches, and the pockets come
  // in falling id order across all pages: nothing is returned twice, however the table changes.
  lemma WalkNeverRepeats(mac: seq<Byte> -> seq<Byte>, requests: seq<Request>, q: Query)
    requires ValidRequests(requests) && ValidPerspective(q) && IsInt64(q.actor)
    ensures var w := Walk(mac, requests, q, []);
            && w.Ok? && Falling(w.value.pockets)
            && forall k :: 0 <= k < |w.value.pockets| ==> Matches(q, w.value.pockets[k])
  {
    WalkIsPages(mac, requests, q, 0);
    PagesFall(requests, q, 0);
  }

  // A pocket that matches throughout the walk is returned by a walk that ends, wherever pages were cut and
  // whatever else came, went or changed meanwhile.
  lemma WalkMissesNothing(mac: seq<Byte> -> seq<Byte>, requests: seq<Request>, q: Query, id: int)
    requires ValidRequests(requests) && ValidPerspective(q) && IsInt64(q.actor)
    requires forall k :: 0 <= k < |requests| ==> Lists(requests[k].table, q, id)
    ensures var w := Walk(mac, requests, q, []);
            w.Ok? && (w.value.ended ==> Holds(w.value.pockets, id))
  {
    WalkIsPages(mac, requests, q, 0);
    PagesMissNothing(requests, q, 0, id);
  }

  // Over a table that does not change the pages make up exactly the matching pockets in falling id order, and
  // the walk ends once the pages are large enough together.
  lemma WalkIsComplete(mac: seq<Byte> -> seq<Byte>, requests: seq<Request>, table: seq<Pocket>, q: Query)
    requires ValidTable(table) && Unchanging(requests, table) && requests != []
    requires ValidPerspective(q) && IsInt64(q.actor)
    requires |Select(table, q, 0)| <= Capacity(requests)
    ensures Walk(mac, requests, q, []) == Ok(Walked(Select(table, q, 0), true))
    ensures Falling(Select(table, q, 0)) && forall p :: p in Select(table, q, 0) <==> p in table && Matches(q, p)
  {
    WalkIsPages(mac, requests, q, 0);
    PagesAreComplete(requests, table, q, 0);
    Selected(table, q, 0);
  }

  // A page shows the first of what is left, as many as were asked for, or 20 if that is no number from 1 to 20, and
  // says that there is more exactly when there is.
  lemma PageIs(mac: seq<Byte> -> seq<Byte>, table: seq<Pocket>, q: Query, size: int, after: int)
    requires ValidTable(table) && ValidPerspective(q) && IsInt64(q.actor) && Position(after)
    ensures var n := if 1 <= size <= 20 then size else 20;
            var left, page := Select(table, q, after), List(mac, table, q, size, TokenFor(mac, q, after));
            && Falling(left) && (forall p :: p in left <==> p in table && Matches(q, p) && (after == 0 || p.id < after))
            && page.Ok? && page.value.pockets == left[..Min(|left|, n)] && (page.value.next == [] <==> |left| <= n)
  {
    PageShows(mac, table, q, size, after);
    WhatIsLeft(table, q, after);
  }

  lemma PageShows(mac: seq<Byte> -> seq<Byte>, table: seq<Pocket>, q: Query, size: int, after: int)
    requires ValidTable(table) && ValidPerspective(q) && IsInt64(q.actor) && Position(after)
    ensures var n := if 1 <= size <= 20 then size else 20;
            var left, page := Select(table, q, after), List(mac, table, q, size, TokenFor(mac, q, after));
            page.Ok? && page.value.pockets == left[..Min(|left|, n)] && (page.value.next == [] <==> |left| <= n)
  {
    CutIsPrefix(table, q, size, after);
    ListAt(mac, table, q, size, after);
  }

  lemma WhatIsLeft(table: seq<Pocket>, q: Query, after: int)
    requires ValidTable(table) && Position(after)
    ensures Falling(Select(table, q, after))
    ensures forall p :: p in Select(table, q, after) <==> p in table && Matches(q, p) && (after == 0 || p.id < after)
  {
    Selected(table, q, after);
  }

  // A token for one listing is refused by any other: another actor, perspective or status.
  lemma TokensStayInTheirListing(mac: seq<Byte> -> seq<Byte>, table: seq<Pocket>, q: Query, r: Query, size: int,
        after: int)
    requires ValidPerspective(q) && ValidPerspective(r) && IsInt64(q.actor) && IsInt64(r.actor)
    requires 0 < after <= INT64_MAX
    ensures List(mac, table, r, size, TokenFor(mac, q, after)).Ok?
       <==> q.actor == r.actor && Perspective(q) == Perspective(r) && q.status == r.status
  {
    CursorRoundTrip(mac, q.actor, after, Scope(q), r.actor, Scope(r));
    if Scope(q) == Scope(r) { ScopeNamesTheListing(q, r); }
  }

  lemma ScopeNamesTheListing(q: Query, r: Query)
    requires ValidPerspective(q) && ValidPerspective(r) && Scope(q) == Scope(r)
    ensures Perspective(q) == Perspective(r) && q.status == r.status
  {
    assert Scope(q)[5] == Perspective(q)[0] && Scope(r)[5] == Perspective(r)[0];
    var n := |Perspective(q)|;
    assert Scope(q)[6 + n..] == q.status && Scope(r)[6 + n..] == r.status;
  }

  // ------------------------------------------------------------------ who sees what

  // Following the pages to the end of an unchanging table, an owner sees exactly the own pockets, drafts included.
  lemma OwnersSeeTheirs(mac: seq<Byte> -> seq<Byte>, requests: seq<Request>, table: seq<Pocket>, actor: int,
        status: seq<Byte>)
    requires var q := Query(actor, OWNER, status);
             && ValidTable(table) && Unchanging(requests, table) && requests != [] && IsInt64(actor)
             && |Select(table, q, 0)| <= Capacity(requests)
    ensures var r := Walk(mac, requests, Query(actor, OWNER, status), []);
            && r.Ok? && r.value.ended && Falling(r.value.pockets)
            && forall p :: p in r.value.pockets <==>
                 p in table && p.owner == actor && (status == [] || p.status == status)
    ensures Walk(mac, requests, Query(actor, [], status), []) == Walk(mac, requests, Query(actor, OWNER, status), [])
  {
    WalkIsComplete(mac, requests, table, Query(actor, OWNER, status));
    SameListing(mac, requests, actor, status, []);
  }

  // A member sees exactly the pockets the member is in, and no draft, whatever status is asked for.
  lemma MembersSeeTheirs(mac: seq<Byte> -> seq<Byte>, requests: seq<Request>, table: seq<Pocket>, actor: int,
        status: seq<Byte>)
    requires var q := Query(actor, MEMBER, status);
             && ValidTable(table) && Unchanging(requests, table) && requests != [] && IsInt64(actor)
             && |Select(table, q, 0)| <= Capacity(requests)
    ensures var r := Walk(mac, requests, Query(actor, MEMBER, status), []);
            && r.Ok? && r.value.ended && Falling(r.value.pockets)
            && (forall p :: p in r.value.pockets <==>
                  p in table && actor in p.members && p.status != DRAFT && (status == [] || p.status == status))
  {
    var q := Query(actor, MEMBER, status);
    WalkIsComplete(mac, requests, table, q);
    assert Perspective(q) == MEMBER && MEMBER != OWNER;
  }

  // Leaving the perspective out asks for the owner's.
  lemma {:induction false} SameListing(mac: seq<Byte> -> seq<Byte>, requests: seq<Request>, actor: int,
        status: seq<Byte>, token: seq<Byte>)
    ensures Walk(mac, requests, Query(actor, [], status), token)
         == Walk(mac, requests, Query(actor, OWNER, status), token)
  {
    if requests != [] {
      var q, r := Query(actor, [], status), Query(actor, OWNER, status);
      SameSelection(requests[0].table, actor, status, ParseCursor(mac, token, actor, Scope(q)));
      assert Scope(q) == Scope(r);
      var page := List(mac, requests[0].table, q, requests[0].size, token);
      assert page == List(mac, requests[0].table, r, requests[0].size, token);
      if page.Ok? { SameListing(mac, requests[1..], actor, status, page.value.next); }
    }
  }

  lemma SameSelection(table: seq<Pocket>, actor: int, status: seq<Byte>, after: Result<int, Refusal>)
    ensures after.Ok? ==> Select(table, Query(actor, [], status), after.value)
                          == Select(table, Query(actor, OWNER, status), after.value)
  {
    if after.Ok? && table != [] {
      SameSelection(table[1..], actor, status, after);
    }
  }
}
