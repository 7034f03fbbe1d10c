// The AA split of internal/service/westpocketservice/internal/westpocket/domain.go:
// the total is divided evenly and the remainder cents go to the smallest user ids.
module Split {
  import opened Common

  // A row of pocket_member, restricted to the columns the collection protocol uses.
  datatype Member = Member(userId: int, shareCents: int, billId: Option<nat>)

  datatype Allocation = Allocation(members: seq<Member>, ownerShare: int, receivable: int)

  datatype SplitError = InvalidCount | InvalidMember

  ghost predicate Ascending(s: seq<Member>) {
    forall i, j :: 0 <= i < j < |s| ==> s[i].userId < s[j].userId
  }

  ghost predicate NonDescending(s: seq<Member>) {
    forall i, j :: 0 <= i < j < |s| ==> s[i].userId <= s[j].userId
  }

  function SumShares(s: seq<Member>): int {
    if s == [] then 0 else SumShares(s[..|s| - 1]) + s[|s| - 1].shareCents
  }

  // What the members other than the owner owe.
  function SumOwed(s: seq<Member>, owner: int): int {
    if s == [] then 0
    else SumOwed(s[..|s| - 1], owner) + (if s[|s| - 1].userId == owner then 0 else s[|s| - 1].shareCents)
  }

  // sort.Slice by UserID.
  function SortById(s: seq<Member>): (r: seq<Member>)
    ensures |r| == |s| && NonDescending(r)
  {
    if s == [] then []
    else
      var front := SortById(s[..|s| - 1]);
      var k := Position(front, s[|s| - 1].userId);
      front[..k] + [s[|s| - 1]] + front[k..]
  }

  // How many rows of a sorted prefix stay in front of an id.
  function Position(s: seq<Member>, id: int): (k: nat)
    requires NonDescending(s)
    ensures k <= |s|
    ensures forall i :: 0 <= i < k ==> s[i].userId <= id
    ensures forall i :: k <= i < |s| ==> id < s[i].userId
  {
    if s == [] then 0
    else if s[|s| - 1].userId <= id then |s|
    else Position(s[..|s| - 1], id)
  }

  lemma {:induction false} SortPermutes(s: seq<Member>)
    ensures multiset(SortById(s)) == multiset(s)
  {
    if s != [] {
      var front, m := SortById(s[..|s| - 1]), s[|s| - 1];
      SortPermutes(s[..|s| - 1]);
      InsertPermutes(front, m, Position(front, m.userId));
      assert s == s[..|s| - 1] + [m];
    }
  }

  lemma InsertPermutes(front: seq<Member>, m: Member, k: nat)
    requires k <= |front|
    ensures multiset(front[..k] + [m] + front[k..]) == multiset(front + [m])
  {
    assert front == front[..k] + front[k..];
  }

  // The share of the member at position i of the id order.
  function ShareAt(base: int, rem: int, i: int): int {
    if i < rem then base + 1 else base
  }

  function Allocate(base: int, rem: int, sorted: seq<Member>): (r: seq<Member>)
    ensures |r| == |sorted|
    ensures forall i :: 0 <= i < |r| ==> r[i] == sorted[i].(shareCents := ShareAt(base, rem, i))
  {
    seq(|sorted|, i requires 0 <= i < |sorted| => sorted[i].(shareCents := ShareAt(base, rem, i)))
  }

  function OwnShare(members: seq<Member>, owner: int): int {
    if members == [] then 0
    else if members[|members| - 1].userId == owner then members[|members| - 1].shareCents
    else OwnShare(members[..|members| - 1], owner)
  }

  predicate CountOk(total: int, n: nat) {
    total > 0 && 2 <= n <= 50 && n <= total
  }

  predicate IdsOk(sorted: seq<Member>) {
    forall i :: 0 <= i < |sorted| ==> sorted[i].userId > 0 && (i > 0 ==> sorted[i].userId != sorted[i - 1].userId)
  }

  function SplitSpec(total: int, owner: int, members: seq<Member>): Result<Allocation, SplitError> {
    if !CountOk(total, |members|) then Err(InvalidCount)
    else
      var sorted := SortById(members);
      if !IdsOk(sorted) then Err(InvalidMember)
      else
        var shared := Allocate(total / |sorted|, total % |sorted|, sorted);
        var own := OwnShare(shared, owner);
        Ok(Allocation(shared, own, total - own))
  }

  method SplitMembers(total: int, owner: int, members: seq<Member>) returns (r: Result<Allocation, SplitError>)
    ensures r == SplitSpec(total, owner, members)
  {
    if total <= 0 || |members| < 2 || |members| > 50 || total < |members| {
      return Err(InvalidCount);
    }
    var sorted := SortById(members);
    var result := new Member[|sorted|](i requires 0 <= i < |sorted| => sorted[i]);
    assert result[..] == sorted;
    var ok, own := AssignShares(result, total / result.Length, total % result.Length, owner);
    r := if ok then Ok(Allocation(result[..], own, total - own)) else Err(InvalidMember);
  }

  // The loop of Split: shares are written into the sorted copy in place, and a bad id
  // aborts at the position where it is met.
  method AssignShares(result: array<Member>, base: int, rem: int, owner: int) returns (ok: bool, own: int)
    modifies result
    ensures ok == IdsOk(old(result[..]))
    ensures ok ==> result[..] == Allocate(base, rem, old(result[..])) && own == OwnShare(result[..], owner)
  {
    ghost var sorted := result[..];
    own := 0;
    var i := 0;
    while i < result.Length
      invariant 0 <= i <= result.Length
      invariant forall k :: 0 <= k < i ==> result[k] == sorted[k].(shareCents := ShareAt(base, rem, k))
      invariant forall k :: i <= k < result.Length ==> result[k] == sorted[k]
      invariant forall k :: 0 <= k < i ==> sorted[k].userId > 0 && (k > 0 ==> sorted[k].userId != sorted[k - 1].userId)
      invariant own == OwnShare(result[..i], owner)
    {
      if result[i].userId <= 0 || (i > 0 && result[i].userId == result[i - 1].userId) {
        return false, own;
      }
      ghost var before := result[..i];
      result[i] := result[i].(shareCents := base);
      if i < rem {
        result[i] := result[i].(shareCents := result[i].shareCents + 1);
      }
      if result[i].userId == owner {
        own := result[i].shareCents;
      }
      assert result[..i + 1][..i] == before;
      i := i + 1;
    }
    assert result[..i] == result[..];
    ok := true;
  }

  // ------------------------------------------------------------------ properties

  lemma {:induction false} SumOfShares(base: int, rem: nat, shared: seq<Member>, k: nat)
    requires k <= |shared|
    requires forall i :: 0 <= i < |shared| ==> shared[i].shareCents == ShareAt(base, rem, i)
    ensures SumShares(shared[..k]) == k * base + Min(k, rem)
  {
    if k > 0 {
      assert shared[..k][..k - 1] == shared[..k - 1];
      SumOfShares(base, rem, shared, k - 1);
      assert k * base == (k - 1) * base + base;
    }
  }

  lemma {:induction false} OwnAndOwed(s: seq<Member>, owner: int)
    requires Ascending(s)
    ensures OwnShare(s, owner) + SumOwed(s, owner) == SumShares(s)
  {
    if s != [] {
      var front := s[..|s| - 1];
      OwnAndOwed(front, owner);
      if s[|s| - 1].userId == owner {
        NoOwnShare(front, owner);
      }
    }
  }

  lemma {:induction false} NoOwnShare(s: seq<Member>, owner: int)
    requires forall i :: 0 <= i < |s| ==> s[i].userId != owner
    ensures OwnShare(s, owner) == 0
  {
    if s != [] {
      NoOwnShare(s[..|s| - 1], owner);
    }
  }

  lemma {:induction false} StrictOrder(sorted: seq<Member>)
    requires NonDescending(sorted) && IdsOk(sorted)
    ensures Ascending(sorted)
  {
    forall i, j | 0 <= i < j < |sorted| ensures sorted[i].userId < sorted[j].userId {
      assert sorted[j - 1].userId != sorted[j].userId;
    }
  }

  // Every accepted split conserves the total, gives everybody at least a cent, differs by at
  // most a cent between any two members, and favours the smaller user ids.
  lemma SplitIsFair(total: int, owner: int, members: seq<Member>)
    requires SplitSpec(total, owner, members).Ok?
    ensures var a := SplitSpec(total, owner, members).value;
            && Ascending(a.members)
            && |a.members| == |members| >= 2
            && SumShares(a.members) == total
            && a.ownerShare + a.receivable == total
            && a.receivable == SumOwed(a.members, owner)
            && (forall i :: 0 <= i < |a.members| ==> a.members[i].shareCents >= 1)
            && (forall i, j :: 0 <= i < j < |a.members| ==>
                  a.members[j].shareCents <= a.members[i].shareCents <= a.members[j].shareCents + 1)
  {
    var sorted := SortById(members);
    var a := SplitSpec(total, owner, members).value;
    var n := |sorted|;
    StrictOrder(sorted);
    SumOfShares(total / n, total % n, a.members, n);
    assert a.members[..n] == a.members;
    assert total == n * (total / n) + total % n;
    assert total / n >= 1;
    OwnAndOwed(a.members, owner);
  }

  // The split keeps exactly the selected rows; only their shares are rewritten.
  lemma SplitKeepsRows(total: int, owner: int, members: seq<Member>)
    requires SplitSpec(total, owner, members).Ok?
    ensures multiset(Unshared(SplitSpec(total, owner, members).value.members)) == multiset(Unshared(members))
  {
    var sorted := SortById(members);
    SortPermutes(members);
    UnsharedPermutes(sorted, members);
    assert Unshared(SplitSpec(total, owner, members).value.members) == Unshared(sorted);
  }

  // The rows without their shares.
  function Unshared(s: seq<Member>): (r: seq<Member>)
    ensures |r| == |s| && forall i :: 0 <= i < |s| ==> r[i] == s[i].(shareCents := 0)
  {
    seq(|s|, i requires 0 <= i < |s| => s[i].(shareCents := 0))
  }

  lemma {:induction false} UnsharedPermutes(a: seq<Member>, b: seq<Member>)
    requires multiset(a) == multiset(b)
    ensures multiset(Unshared(a)) == multiset(Unshared(b))
    decreases |a|
  {
    SameLength(a, b);
    if a == [] {
      assert b == [];
    } else {
      var x := a[|a| - 1];
      var j := Locate(b, x);
      RemoveBoth(a, b, j);
      UnsharedPermutes(a[..|a| - 1], b[..j] + b[j + 1..]);
      assert Unshared(a) == Unshared(a[..|a| - 1]) + [x.(shareCents := 0)];
      assert Unshared(b) == Unshared(b[..j]) + [x.(shareCents := 0)] + Unshared(b[j + 1..]);
      assert Unshared(b[..j] + b[j + 1..]) == Unshared(b[..j]) + Unshared(b[j + 1..]);
    }
  }

  lemma Locate(s: seq<Member>, m: Member) returns (j: nat)
    requires m in multiset(s)
    ensures j < |s| && s[j] == m
  {
    j :| 0 <= j < |s| && s[j] == m;
  }

  // Taking the last row of one sequence out of both keeps them permutations of each other.
  lemma RemoveBoth(a: seq<Member>, b: seq<Member>, j: nat)
    requires a != [] && j < |b| && b[j] == a[|a| - 1] && multiset(a) == multiset(b)
    ensures multiset(a[..|a| - 1]) == multiset(b[..j] + b[j + 1..])
  {
    assert a == a[..|a| - 1] + [a[|a| - 1]];
    assert b == b[..j] + [b[j]] + b[j + 1..];
    assert multiset(b[..j] + b[j + 1..]) == multiset(b) - multiset{b[j]};
    assert multiset(a[..|a| - 1]) == multiset(a) - multiset{b[j]};
  }

  lemma {:induction false} SortedDistinctUnique(a: seq<Member>, b: seq<Member>)
    requires Ascending(a) && NonDescending(b) && multiset(a) == multiset(b)
    ensures a == b
    decreases |a|
  {
    SameLength(a, b);
    if a == [] {
      assert b == [];
    } else {
      var x := a[|a| - 1];
      var j := Locate(b, x);
      var y := b[|b| - 1];
      assert y in multiset(a) by { assert y in multiset(b); }
      var i := Locate(a, y);
      assert i == |a| - 1;
      RemoveBoth(a, b, |b| - 1);
      assert b[..|b| - 1] + b[|b|..] == b[..|b| - 1];
      SortedDistinctUnique(a[..|a| - 1], b[..|b| - 1]);
    }
  }

  // The outcome depends on which rows were selected, never on the order they arrived in.
  lemma SplitIgnoresOrder(total: int, owner: int, members: seq<Member>, shuffled: seq<Member>)
    requires multiset(members) == multiset(shuffled)
    ensures SplitSpec(total, owner, members) == SplitSpec(total, owner, shuffled)
  {
    SameLength(members, shuffled);
    var a, b := SortById(members), SortById(shuffled);
    SortPermutes(members);
    SortPermutes(shuffled);
    if IdsOk(a) {
      StrictOrder(a);
      SortedDistinctUnique(a, b);
    } else if IdsOk(b) {
      StrictOrder(b);
      SortedDistinctUnique(b, a);
    }
  }

  lemma SameLength(a: seq<Member>, b: seq<Member>)
    requires multiset(a) == multiset(b)
    ensures |a| == |b|
  {
    assert |multiset(a)| == |a| && |multiset(b)| == |b|;
  }

  ghost predicate Selectable(members: seq<Member>) {
    && (forall k :: 0 <= k < |members| ==> members[k].userId > 0)
    && (forall k, l :: 0 <= k < l < |members| ==> members[k].userId != members[l].userId)
  }

  // A split is refused exactly for a bad head count, a total below one cent each, or a
  // repeated or non-positive user id.
  lemma SplitAcceptsIff(total: int, owner: int, members: seq<Member>)
    ensures SplitSpec(total, owner, members).Ok? <==>
            2 <= |members| <= 50 && total >= |members| && Selectable(members)
  {
    var sorted := SortById(members);
    SortPermutes(members);
    if IdsOk(sorted) {
      StrictOrder(sorted);
      SelectablePermutes(sorted, members);
    } else if Selectable(members) {
      SelectablePermutes(members, sorted);
    }
  }

  lemma {:induction false} SelectablePermutes(a: seq<Member>, b: seq<Member>)
    requires multiset(a) == multiset(b) && Selectable(a)
    ensures Selectable(b)
    decreases |a|
  {
    SameLength(a, b);
    if a == [] {
      assert b == [];
    } else {
      var x := a[|a| - 1];
      var j := Locate(b, x);
      var rest := b[..j] + b[j + 1..];
      RemoveBoth(a, b, j);
      SelectablePermutes(a[..|a| - 1], rest);
      forall k | 0 <= k < |b| && k != j ensures b[k].userId > 0 && b[k].userId != x.userId {
        var m := rest[if k < j then k else k - 1];
        assert m == b[k] && m in multiset(a[..|a| - 1]);
        var i := Locate(a[..|a| - 1], m);
      }
      forall k, l | 0 <= k < l < |b| ensures b[k].userId != b[l].userId {
        if k != j && l != j {
          assert b[k] == rest[if k < j then k else k - 1] && b[l] == rest[if l < j then l else l - 1];
        }
      }
    }
  }
}
