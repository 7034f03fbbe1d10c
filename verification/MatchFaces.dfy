// Which member each detected face is suggested to be. Scores are reals.
module MatchFaces {
  import opened Common

  datatype Scored = Scored(person: string, score: real)

  datatype Face = Face(status: string, candidates: seq<Scored>)

  datatype Candidate = Candidate(user: int, score: real)

  datatype Match = Match(status: string, score: real, suggested: Option<int>, candidates: seq<Candidate>)

  const LOW: string := "low_quality"

  // The candidates that belong to a member, in the order the recogniser gave them.
  function Mapped(scored: seq<Scored>, mapping: map<string, int>): seq<Candidate> {
    if scored == [] then []
    else
      var last := scored[|scored| - 1];
      Mapped(scored[..|scored| - 1], mapping) +
      if last.person in mapping && mapping[last.person] > 0 then [Candidate(mapping[last.person], last.score)] else []
  }

  predicate Descending(c: seq<Candidate>) {
    forall i, j :: 0 <= i < j < |c| ==> c[i].score >= c[j].score
  }

  function StatusOf(f: Face): string {
    if f.status == "" then "unknown" else f.status
  }

  // The best candidate is good enough and far enough ahead of the next.
  predicate Clear(f: Face, c: seq<Candidate>, threshold: real, margin: real) {
    && c != [] && StatusOf(f) != LOW
    && c[0].score >= threshold
    && (|c| == 1 || c[0].score - c[1].score >= margin)
  }

  // What one face looks like on its own.
  function Alone(f: Face, c: seq<Candidate>, threshold: real, margin: real): Match {
    if c == [] || StatusOf(f) == LOW then Match(StatusOf(f), 0.0, None, c)
    else if Clear(f, c, threshold, margin) then Match("matched", c[0].score, Some(c[0].user), c)
    else Match("ambiguous", c[0].score, None, c)
  }

  // How many of the first n matches suggest a user.
  function Count(m: seq<Match>, n: nat, user: int): nat
    requires n <= |m|
  {
    if n == 0 then 0 else Count(m, n - 1, user) + if m[n - 1].suggested == Some(user) then 1 else 0
  }

  // A user suggested more than once is suggested to nobody.
  function Settled(m: seq<Match>, i: nat): Match
    requires i < |m|
  {
    if m[i].suggested.Some? && Count(m, |m|, m[i].suggested.value) > 1
    then m[i].(suggested := None, status := "ambiguous")
    else m[i]
  }

  predicate Sorts(f: Face, mapping: map<string, int>, c: seq<Candidate>) {
    Descending(c) && multiset(c) == multiset(Mapped(f.candidates, mapping))
  }

  // Every face on its own, given the order its candidates were put in.
  function AllAlone(faces: seq<Face>, orders: seq<seq<Candidate>>, threshold: real, margin: real): seq<Match>
    requires |orders| == |faces|
  {
    seq(|faces|, i requires 0 <= i < |faces| => Alone(faces[i], orders[i], threshold, margin))
  }

  function Orders(r: seq<Match>): seq<seq<Candidate>> {
    seq(|r|, i requires 0 <= i < |r| => r[i].candidates)
  }

  // Candidates of equal score may come in either order; everything else is determined.
  predicate IsMatching(faces: seq<Face>, mapping: map<string, int>, threshold: real, margin: real, r: seq<Match>) {
    && |r| == |faces|
    && (forall i :: 0 <= i < |r| ==> Sorts(faces[i], mapping, r[i].candidates))
    && (forall i :: 0 <= i < |r| ==> r[i] == Settled(AllAlone(faces, Orders(r), threshold, margin), i))
  }

  // ------------------------------------------------------------------ the loops

  method MapCandidates(scored: seq<Scored>, mapping: map<string, int>) returns (c: seq<Candidate>)
    ensures c == Mapped(scored, mapping)
  {
    c := [];
    for k := 0 to |scored|
      invariant c == Mapped(scored[..k], mapping)
    {
      assert scored[..k + 1][..k] == scored[..k];
      var user := if scored[k].person in mapping then mapping[scored[k].person] else 0;
      if user > 0 { c := c + [Candidate(user, scored[k].score)]; }
    }
    assert scored[..|scored|] == scored;
  }

  // The library sort by falling score.
  method SortByScore(c: seq<Candidate>) returns (r: seq<Candidate>)
    ensures Descending(r) && multiset(r) == multiset(c)
  {
    r := [];
    for k := 0 to |c|
      invariant Descending(r) && multiset(r) == multiset(c[..k])
    {
      r := Insert(r, c[k]);
      assert c[..k + 1] == c[..k] + [c[k]];
    }
    assert c[..|c|] == c;
  }

  method Insert(c: seq<Candidate>, x: Candidate) returns (r: seq<Candidate>)
    requires Descending(c)
    ensures Descending(r) && multiset(r) == multiset(c) + multiset{x}
  {
    var k := 0;
    while k < |c| && c[k].score >= x.score
      invariant k <= |c| && forall j :: 0 <= j < k ==> c[j].score >= x.score
    {
      k := k + 1;
    }
    r := c[..k] + [x] + c[k..];
    assert c == c[..k] + c[k..];
  }

  // One face, before the other faces are looked at.
  method MatchOne(f: Face, mapping: map<string, int>, threshold: real, margin: real) returns (m: Match)
    ensures Sorts(f, mapping, m.candidates) && m == Alone(f, m.candidates, threshold, margin)
  {
    var mapped := MapCandidates(f.candidates, mapping);
    var c := SortByScore(mapped);
    m := Match(if f.status == "" then "unknown" else f.status, 0.0, None, c);
    if |c| > 0 && m.status != LOW {
      m := m.(score := c[0].score);
      if m.score >= threshold && (|c| == 1 || m.score - c[1].score >= margin) {
        m := m.(suggested := Some(c[0].user), status := "matched");
      } else {
        m := m.(status := "ambiguous");
      }
    }
  }

  // A Go map gives zero for a missing key.
  function At(counts: map<int, int>, u: int): int {
    if u in counts then counts[u] else 0
  }

  ghost predicate Counted(m: seq<Match>, n: nat, counts: map<int, int>)
    requires n <= |m|
  {
    forall u :: At(counts, u) == Count(m, n, u)
  }

  // The first faces are matched on their own.
  ghost predicate EachAlone(faces: seq<Face>, mapping: map<string, int>, threshold: real, margin: real, m: seq<Match>) {
    |m| <= |faces| && forall i: nat :: AloneAt(faces, mapping, threshold, margin, m, i)
  }

  ghost predicate AloneAt(
      faces: seq<Face>, mapping: map<string, int>, threshold: real, margin: real, m: seq<Match>, i: nat) {
    i < |m| && i < |faces| ==>
      Sorts(faces[i], mapping, m[i].candidates) && m[i] == Alone(faces[i], m[i].candidates, threshold, margin)
  }

  method MatchEach(faces: seq<Face>, mapping: map<string, int>, threshold: real, margin: real)
    returns (out: array<Match>, counts: map<int, int>)
    ensures fresh(out) && out.Length == |faces|
    ensures EachAlone(faces, mapping, threshold, margin, out[..])
    ensures Counted(out[..], |faces|, counts)
  {
    out := new Match[|faces|](_ => Match("", 0.0, None, []));
    counts := map[];
    ghost var done: seq<Match> := [];
    for k := 0 to |faces|
      invariant out[..k] == done && EachAlone(faces, mapping, threshold, margin, done) && Counted(done, k, counts)
    {
      var m := MatchOne(faces[k], mapping, threshold, margin);
      CountNext(done, m, counts);
      AloneNext(faces, mapping, threshold, margin, done, m);
      out[k] := m;
      done := done + [m];
      if m.suggested.Some? {
        counts := counts[m.suggested.value := At(counts, m.suggested.value) + 1];
      }
    }
    assert out[..] == done;
  }

  lemma AloneNext(faces: seq<Face>, mapping: map<string, int>, threshold: real, margin: real, done: seq<Match>,
        m: Match)
    requires EachAlone(faces, mapping, threshold, margin, done) && |done| < |faces|
    requires Sorts(faces[|done|], mapping, m.candidates) && m == Alone(faces[|done|], m.candidates, threshold, margin)
    ensures EachAlone(faces, mapping, threshold, margin, done + [m])
  {
    forall i: nat ensures AloneAt(faces, mapping, threshold, margin, done + [m], i) {
      assert AloneAt(faces, mapping, threshold, margin, done, i);
    }
  }

  lemma CountNext(done: seq<Match>, m: Match, was: map<int, int>)
    requires Counted(done, |done|, was)
    ensures var counts := if m.suggested.Some? then was[m.suggested.value := At(was, m.suggested.value) + 1] else was;
            Counted(done + [m], |done| + 1, counts)
  {
    var after := done + [m];
    var counts := if m.suggested.Some? then was[m.suggested.value := At(was, m.suggested.value) + 1] else was;
    forall u ensures At(counts, u) == Count(after, |done| + 1, u) {
      CountAgrees(done, after, |done|, u);
    }
  }

  lemma {:induction false} CountAgrees(a: seq<Match>, b: seq<Match>, k: nat, u: int)
    requires k <= |a| && k <= |b| && forall i :: 0 <= i < k ==> a[i] == b[i]
    ensures Count(a, k, u) == Count(b, k, u)
  {
    if k > 0 {
      CountAgrees(a, b, k - 1, u);
    }
  }

  // The second loop, in place: what was suggested more than once is taken back.
  method TakeBack(out: array<Match>, counts: map<int, int>)
    requires Counted(out[..], out.Length, counts)
    modifies out
    ensures forall j :: 0 <= j < out.Length ==> out[j] == Settled(old(out[..]), j)
  {
    ghost var alone := out[..];
    for i := 0 to out.Length
      invariant forall j :: 0 <= j < i ==> out[j] == Settled(alone, j)
      invariant forall j :: i <= j < out.Length ==> out[j] == alone[j]
    {
      if out[i].suggested.Some? && At(counts, out[i].suggested.value) > 1 {
        out[i] := out[i].(suggested := None, status := "ambiguous");
      }
    }
  }

  method MatchAll(faces: seq<Face>, mapping: map<string, int>, threshold: real, margin: real) returns (r: seq<Match>)
    ensures IsMatching(faces, mapping, threshold, margin, r)
  {
    var out, counts := MatchEach(faces, mapping, threshold, margin);
    ghost var alone := out[..];
    TakeBack(out, counts);
    r := out[..];
    SettledMatching(faces, mapping, threshold, margin, alone, r);
  }

  lemma SettledMatching(faces: seq<Face>, mapping: map<string, int>, threshold: real, margin: real, alone: seq<Match>,
        r: seq<Match>)
    requires EachAlone(faces, mapping, threshold, margin, alone) && |alone| == |faces| == |r|
    requires forall i :: 0 <= i < |r| ==> r[i] == Settled(alone, i)
    ensures IsMatching(faces, mapping, threshold, margin, r)
  {
    forall i: nat | i < |r|
      ensures r[i].candidates == alone[i].candidates && Sorts(faces[i], mapping, r[i].candidates)
      ensures alone[i] == Alone(faces[i], r[i].candidates, threshold, margin)
    {
      assert AloneAt(faces, mapping, threshold, margin, alone, i);
    }
    assert AllAlone(faces, Orders(r), threshold, margin) == alone;
  }

  // ------------------------------------------------------------------ what is suggested

  lemma {:induction false} CountHas(m: seq<Match>, n: nat, user: int)
    requires n <= |m|
    ensures Count(m, n, user) > 0 <==> exists i: nat :: i < n && m[i].suggested == Some(user)
  {
    if n > 0 {
      CountHas(m, n - 1, user);
      if m[n - 1].suggested == Some(user) { assert Count(m, n, user) > 0; }
    }
  }

  // A user is counted more than once exactly when another face suggests the same one.
  lemma {:induction false} CountPair(m: seq<Match>, n: nat, i: nat)
    requires i < n <= |m| && m[i].suggested.Some?
    ensures Count(m, n, m[i].suggested.value) > 1 <==>
              exists j: nat :: j < n && j != i && m[j].suggested == m[i].suggested
  {
    var u := m[i].suggested.value;
    CountHas(m, n - 1, u);
    if i < n - 1 {
      CountPair(m, n - 1, i);
      if m[n - 1].suggested == m[i].suggested {
        assert Count(m, n - 1, u) > 0;
      }
    }
  }

  ghost predicate ClearFor(faces: seq<Face>, r: seq<Match>, threshold: real, margin: real, i: nat, user: int) {
    && i < |r| == |faces|
    && Clear(faces[i], r[i].candidates, threshold, margin) && r[i].candidates[0].user == user
  }

  // A face suggests its best candidate exactly when that candidate is clear for it and for no other face.
  lemma SuggestedIff(faces: seq<Face>, mapping: map<string, int>, threshold: real, margin: real, r: seq<Match>, i: nat,
        user: int)
    requires IsMatching(faces, mapping, threshold, margin, r) && i < |r|
    ensures r[i].suggested == Some(user) <==>
      && ClearFor(faces, r, threshold, margin, i, user)
      && forall j: nat :: j < |r| && j != i ==> !ClearFor(faces, r, threshold, margin, j, user)
  {
    var alone := AllAlone(faces, Orders(r), threshold, margin);
    forall j: nat | j < |r|
      ensures alone[j].suggested == Some(user) <==> ClearFor(faces, r, threshold, margin, j, user)
    {
      assert alone[j] == Alone(faces[j], r[j].candidates, threshold, margin);
    }
    if alone[i].suggested == Some(user) {
      CountPair(alone, |alone|, i);
      if j: nat :| j < |r| && j != i && ClearFor(faces, r, threshold, margin, j, user) {
        assert alone[j].suggested == alone[i].suggested;
      }
    }
  }

  // No member is suggested for two faces.
  lemma NobodyTwice(faces: seq<Face>, mapping: map<string, int>, threshold: real, margin: real, r: seq<Match>, i: nat,
        j: nat)
    requires IsMatching(faces, mapping, threshold, margin, r) && i < |r| && j < |r| && i != j
    requires r[i].suggested.Some?
    ensures r[i].suggested != r[j].suggested
  {
    SuggestedIff(faces, mapping, threshold, margin, r, i, r[i].suggested.value);
    SuggestedIff(faces, mapping, threshold, margin, r, j, r[i].suggested.value);
  }

  // A suggestion is a member the recogniser named for this face, scored at or above the threshold and at least
  // the margin above every other named member; a face of low quality gets none.
  lemma SuggestionsAreClear(faces: seq<Face>, mapping: map<string, int>, threshold: real, margin: real, r: seq<Match>,
        i: nat)
    requires IsMatching(faces, mapping, threshold, margin, r) && i < |r| && r[i].suggested.Some?
    ensures StatusOf(faces[i]) != LOW && r[i].status == "matched" && r[i].score >= threshold
    ensures var named := Mapped(faces[i].candidates, mapping);
            var best := Candidate(r[i].suggested.value, r[i].score);
            best in named && forall c :: c in multiset(named) - multiset{best} ==> best.score - c.score >= margin
  {
    var user, c := r[i].suggested.value, r[i].candidates;
    SuggestedIff(faces, mapping, threshold, margin, r, i, user);
    var named := Mapped(faces[i].candidates, mapping);
    assert r[i] == Alone(faces[i], c, threshold, margin);
    assert c == [c[0]] + c[1..];
    assert c[0] in multiset(c);
    assert multiset(named) - multiset{c[0]} == multiset(c[1..]);
    forall x | x in multiset(c[1..]) ensures c[0].score - x.score >= margin {
      var k :| 0 <= k < |c[1..]| && c[1..][k] == x;
      assert c[k + 1] == x;
    }
  }

  // A face that is clear on its own goes without a suggestion only because another face is clear for the
  // same member, and it is then shown as ambiguous.
  lemma DroppedOnlyForRivals(faces: seq<Face>, mapping: map<string, int>, threshold: real, margin: real, r: seq<Match>,
        i: nat)
    requires IsMatching(faces, mapping, threshold, margin, r) && i < |r|
    requires Clear(faces[i], r[i].candidates, threshold, margin) && r[i].suggested.None?
    ensures r[i].status == "ambiguous"
    ensures exists j: nat :: j < |r| && j != i && ClearFor(faces, r, threshold, margin, j, r[i].candidates[0].user)
  {
    SuggestedIff(faces, mapping, threshold, margin, r, i, r[i].candidates[0].user);
  }

  // ------------------------------------------------------------------ who must be suggested

  // The recogniser's person belongs to a member.
  predicate Named(x: Scored, mapping: map<string, int>) {
    x.person in mapping && mapping[x.person] > 0
  }

  // The face is usable, and its k-th candidate is a member, scored at or above the threshold and at least the
  // margin above every other candidate that is one.
  ghost predicate WinsAt(f: Face, mapping: map<string, int>, threshold: real, margin: real, k: nat) {
    && f.status != LOW && k < |f.candidates| && Named(f.candidates[k], mapping)
    && f.candidates[k].score >= threshold
    && forall l: nat :: l < |f.candidates| && l != k && Named(f.candidates[l], mapping) ==>
         f.candidates[k].score - f.candidates[l].score >= margin
  }

  ghost predicate Wins(f: Face, mapping: map<string, int>, threshold: real, margin: real, user: int) {
    exists k: nat :: WinsAt(f, mapping, threshold, margin, k) && mapping[f.candidates[k].person] == user
  }

  // The same among the mapped candidates.
  ghost predicate Leads(c: seq<Candidate>, threshold: real, margin: real, k: nat) {
    && k < |c| && c[k].score >= threshold
    && forall l: nat :: l < |c| && l != k ==> c[k].score - c[l].score >= margin
  }

  // Where the k-th candidate comes among the mapped ones.
  function Place(scored: seq<Scored>, mapping: map<string, int>, k: nat): nat
    requires k <= |scored|
  {
    |Mapped(scored[..k], mapping)|
  }

  lemma {:induction false} PlaceIs(scored: seq<Scored>, mapping: map<string, int>, k: nat)
    requires k < |scored| && Named(scored[k], mapping)
    ensures Place(scored, mapping, k) < |Mapped(scored, mapping)|
    ensures Mapped(scored, mapping)[Place(scored, mapping, k)] == Candidate(mapping[scored[k].person], scored[k].score)
  {
    var n := |scored| - 1;
    assert scored[..n][..k] == scored[..k];
    if k < n { PlaceIs(scored[..n], mapping, k); }
  }

  lemma {:induction false} PlacesApart(scored: seq<Scored>, mapping: map<string, int>, k: nat, l: nat)
    requires k < l <= |scored| && Named(scored[k], mapping)
    ensures Place(scored, mapping, k) < Place(scored, mapping, l)
  {
    PlaceIs(scored[..l], mapping, k);
    assert scored[..l][..k] == scored[..k];
  }

  lemma {:induction false} PlaceOf(scored: seq<Scored>, mapping: map<string, int>, m: nat) returns (k: nat)
    requires m < |Mapped(scored, mapping)|
    ensures k < |scored| && Named(scored[k], mapping) && Place(scored, mapping, k) == m
  {
    var n := |scored| - 1;
    if m < |Mapped(scored[..n], mapping)| {
      k := PlaceOf(scored[..n], mapping, m);
      assert scored[..n][..k] == scored[..k];
    } else {
      k := n;
    }
  }

  lemma WinsLeads(f: Face, mapping: map<string, int>, threshold: real, margin: real, k: nat)
    requires f.status != LOW && k < |f.candidates| && Named(f.candidates[k], mapping)
    ensures WinsAt(f, mapping, threshold, margin, k) <==>
              Leads(Mapped(f.candidates, mapping), threshold, margin, Place(f.candidates, mapping, k))
  {
    var scored, c, p := f.candidates, Mapped(f.candidates, mapping), Place(f.candidates, mapping, k);
    PlaceIs(scored, mapping, k);
    if WinsAt(f, mapping, threshold, margin, k) {
      forall m: nat | m < |c| && m != p ensures c[p].score - c[m].score >= margin {
        var l := PlaceOf(scored, mapping, m);
        PlaceIs(scored, mapping, l);
      }
    }
    if Leads(c, threshold, margin, p) {
      forall l: nat | l < |scored| && l != k && Named(scored[l], mapping)
        ensures scored[k].score - scored[l].score >= margin
      {
        PlaceIs(scored, mapping, l);
        if l < k { PlacesApart(scored, mapping, l, k); } else { PlacesApart(scored, mapping, k, l); }
      }
    }
  }

  // What is left of a sequence without one of its elements.
  lemma RestHas(c: seq<Candidate>, k: nat, l: nat)
    requires k < |c| && l < |c| && k != l
    ensures c[l] in multiset(c) - multiset{c[k]}
  {
    var rest := c[..k] + c[k + 1..];
    assert c == c[..k] + [c[k]] + c[k + 1..];
    assert multiset(c) - multiset{c[k]} == multiset(rest);
    assert rest[if l < k then l else l - 1] == c[l];
  }

  lemma RestFrom(c: seq<Candidate>, k: nat, x: Candidate) returns (l: nat)
    requires k < |c| && x in multiset(c) - multiset{c[k]}
    ensures l < |c| && l != k && c[l] == x
  {
    var rest := c[..k] + c[k + 1..];
    assert c == c[..k] + [c[k]] + c[k + 1..];
    assert multiset(c) - multiset{c[k]} == multiset(rest);
    var m :| 0 <= m < |rest| && rest[m] == x;
    l := if m < k then m else m + 1;
  }

  // A leader comes first in any order by falling score, or ties with what does.
  lemma LeaderIsFirst(named: seq<Candidate>, c: seq<Candidate>, threshold: real, margin: real, k: nat)
    requires Descending(c) && multiset(c) == multiset(named) && Leads(named, threshold, margin, k)
    ensures c != [] && c[0].score >= threshold && (|c| == 1 || c[0].score - c[1].score >= margin)
    ensures margin > 0.0 ==> c[0] == named[k]
  {
    assert named[k] in multiset(c);
    var p :| 0 <= p < |c| && c[p] == named[k];
    if margin > 0.0 {
      if p > 0 {
        RestHas(c, p, 0);
        var l := RestFrom(named, k, c[0]);
        assert false;
      }
      if |c| > 1 {
        RestHas(c, 0, 1);
        var l := RestFrom(named, k, c[1]);
      }
    }
  }

  lemma FirstLeads(named: seq<Candidate>, c: seq<Candidate>, threshold: real, margin: real) returns (k: nat)
    requires Descending(c) && multiset(c) == multiset(named) && c != [] && c[0].score >= threshold
    requires |c| == 1 || c[0].score - c[1].score >= margin
    ensures Leads(named, threshold, margin, k) && named[k] == c[0]
  {
    assert c[0] in multiset(named);
    k :| 0 <= k < |named| && named[k] == c[0];
    forall l: nat | l < |named| && l != k ensures named[k].score - named[l].score >= margin {
      RestHas(named, k, l);
      var m := RestFrom(c, 0, named[l]);
    }
  }

  // A face has a suggestion to make exactly when one of its candidates wins; with a positive margin it is that one.
  lemma ClearIff(f: Face, mapping: map<string, int>, threshold: real, margin: real, c: seq<Candidate>)
    requires Sorts(f, mapping, c)
    ensures Clear(f, c, threshold, margin) <==> exists k: nat :: WinsAt(f, mapping, threshold, margin, k)
    ensures margin > 0.0 ==> forall user ::
              Clear(f, c, threshold, margin) && c[0].user == user <==> Wins(f, mapping, threshold, margin, user)
  {
    var named := Mapped(f.candidates, mapping);
    forall k: nat | WinsAt(f, mapping, threshold, margin, k)
      ensures Clear(f, c, threshold, margin) && (margin > 0.0 ==> c[0].user == mapping[f.candidates[k].person])
    {
      WinsLeads(f, mapping, threshold, margin, k);
      PlaceIs(f.candidates, mapping, k);
      LeaderIsFirst(named, c, threshold, margin, Place(f.candidates, mapping, k));
    }
    if Clear(f, c, threshold, margin) {
      var m := FirstLeads(named, c, threshold, margin);
      var k := PlaceOf(f.candidates, mapping, m);
      WinsLeads(f, mapping, threshold, margin, k);
      PlaceIs(f.candidates, mapping, k);
      assert WinsAt(f, mapping, threshold, margin, k) && mapping[f.candidates[k].person] == c[0].user;
    }
  }

  // With a positive margin a member is suggested for a face exactly when one of the member's persons wins it and no
  // other face is won by the same member: whatever order the candidates and faces come in.
  lemma SuggestedIffWins(faces: seq<Face>, mapping: map<string, int>, threshold: real, margin: real, r: seq<Match>,
        i: nat, user: int)
    requires IsMatching(faces, mapping, threshold, margin, r) && i < |r| && margin > 0.0
    ensures r[i].suggested == Some(user) <==>
      && Wins(faces[i], mapping, threshold, margin, user)
      && forall j: nat :: j < |r| && j != i ==> !Wins(faces[j], mapping, threshold, margin, user)
  {
    SuggestedIff(faces, mapping, threshold, margin, r, i, user);
    forall j: nat | j < |r|
      ensures ClearFor(faces, r, threshold, margin, j, user) <==> Wins(faces[j], mapping, threshold, margin, user)
    {
      ClearIff(faces[j], mapping, threshold, margin, r[j].candidates);
    }
  }

  // A usable face has a candidate that is a member.
  ghost predicate Usable(f: Face, mapping: map<string, int>) {
    f.status != LOW && exists k: nat :: k < |f.candidates| && Named(f.candidates[k], mapping)
  }

  // Whatever the margin, a usable face is matched or ambiguous and shows the best score a member has on it; any
  // other keeps its own status and shows no score.
  lemma StatusIff(faces: seq<Face>, mapping: map<string, int>, threshold: real, margin: real, r: seq<Match>, i: nat)
    requires IsMatching(faces, mapping, threshold, margin, r) && i < |r|
    ensures !Usable(faces[i], mapping) ==> r[i].suggested.None? && r[i].score == 0.0
    ensures !Usable(faces[i], mapping) ==> r[i].status == if faces[i].status == "" then "unknown" else faces[i].status
    ensures Usable(faces[i], mapping) ==> r[i].status == if r[i].suggested.Some? then "matched" else "ambiguous"
    ensures Usable(faces[i], mapping) ==> BestScore(faces[i], mapping, r[i].score)
    ensures r[i].suggested.Some? ==> exists k: nat :: WinsAt(faces[i], mapping, threshold, margin, k)
  {
    var f, c := faces[i], r[i].candidates;
    assert AllAlone(faces, Orders(r), threshold, margin)[i] == Alone(f, c, threshold, margin);
    ClearIff(f, mapping, threshold, margin, c);
    FirstIsBest(f, mapping, c);
  }

  ghost predicate BestScore(f: Face, mapping: map<string, int>, score: real) {
    && (exists k: nat :: k < |f.candidates| && Named(f.candidates[k], mapping) && f.candidates[k].score == score)
    && forall k: nat :: k < |f.candidates| && Named(f.candidates[k], mapping) ==> f.candidates[k].score <= score
  }

  lemma FirstIsBest(f: Face, mapping: map<string, int>, c: seq<Candidate>)
    requires Sorts(f, mapping, c)
    ensures c == [] <==> forall k: nat :: k < |f.candidates| ==> !Named(f.candidates[k], mapping)
    ensures c != [] ==> BestScore(f, mapping, c[0].score)
  {
    var named := Mapped(f.candidates, mapping);
    forall k: nat | k < |f.candidates| && Named(f.candidates[k], mapping)
      ensures c != [] && f.candidates[k].score <= c[0].score
    {
      PlaceIs(f.candidates, mapping, k);
      assert named[Place(f.candidates, mapping, k)] in multiset(c);
      var p :| 0 <= p < |c| && c[p] == named[Place(f.candidates, mapping, k)];
    }
    if c != [] {
      assert c[0] in multiset(named);
      var m :| 0 <= m < |named| && named[m] == c[0];
      var k := PlaceOf(f.candidates, mapping, m);
      PlaceIs(f.candidates, mapping, k);
    }
  }
}
