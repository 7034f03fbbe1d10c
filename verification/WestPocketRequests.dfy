// The owner's requests, accepted and refused, and the calls a worker sends: what each of them does by itself, and
// what a request does that was made on an older sight of the pocket.
module WestPocketRequests {
  import opened Common
  import opened Split
  import opened PaymentBills
  import opened WestPocket
  import opened WestPocketSafety

  predicate OwnersRequest(step: Step) {
    step.SetTotal? || step.SetMembers? || step.Publish? || step.Cancel?
  }

  // ------------------------------------------------------------------ drafts

  // The rows of a draft: one for each user, by rising id, with nothing shared and no bill yet.
  ghost predicate Listed(members: seq<Member>, users: seq<int>) {
    && |members| == |users| && Ascending(members)
    && (forall i :: 0 <= i < |members| ==>
          members[i].userId in users && members[i].shareCents == 0 && members[i].billId == None)
    && (forall u :: u in users ==> exists i :: 0 <= i < |members| && members[i].userId == u)
  }

  // A draft is edited exactly by its owner, who has seen it as it is, to a positive total or to at most 50
  // different users; and each edit changes the one thing and counts.
  lemma EditsIff(s: State, step: Step)
    requires step.SetTotal? || step.SetMembers?
    ensures var p, q := s.pocket, Next(s, step).pocket;
            var mine := step.actor == p.ownerId && step.revision == p.revision > 0 && p.status == Draft;
            var sound := match step
              case SetTotal(_, _, total) => total > 0
              case SetMembers(_, _, users) =>
                && 1 <= |users| <= 50 && (forall i :: 0 <= i < |users| ==> users[i] > 0)
                && (forall i, j :: 0 <= i < j < |users| ==> users[i] != users[j])
              case _ => true;
            && Next(s, step) == s.(pocket := q)
            && if !mine || !sound then q == p
               else
                 && q == p.(totalCents := q.totalCents, members := q.members, revision := p.revision + 1)
                 && (step.SetTotal? ==> q.totalCents == step.total && q.members == p.members)
                 && (step.SetMembers? ==> q.totalCents == p.totalCents && Listed(q.members, step.users))
  {
    if step.SetMembers? && UsersOk(step.users) { RowsListed(step.users); }
  }

  lemma RowsListed(users: seq<int>)
    requires UsersOk(users)
    ensures Listed(SortById(NewRows(users)), users)
  {
    var given, rows := NewRows(users), SortById(NewRows(users));
    SortPermutes(given);
    forall i | 0 <= i < |rows| ensures exists k :: 0 <= k < |users| && rows[i] == given[k] {
      assert rows[i] in multiset(given);
    }
    forall u | u in users ensures exists i :: 0 <= i < |rows| && rows[i].userId == u {
      var k :| 0 <= k < |users| && users[k] == u;
      assert given[k] in multiset(rows);
    }
    SelectablePermutes(given, rows);
  }

  // ------------------------------------------------------------------ requests made on an older sight

  // Nothing a user sees has changed; a worker may have linked bills.
  ghost predicate LooksTheSame(p: Pocket, q: Pocket) {
    && q == p.(members := q.members) && |q.members| == |p.members|
    && forall i :: 0 <= i < |p.members| ==> q.members[i] == p.members[i].(billId := q.members[i].billId)
  }

  // Every step that changes what a user sees counts once, whoever takes it.
  lemma StepCounts(s: State, step: Step)
    ensures var p, q := s.pocket, Next(s, step).pocket;
            q.revision == p.revision + 1 || (q.revision == p.revision && LooksTheSame(p, q))
  {
  }

  lemma {:induction false} RevisionTells(s: State, after: seq<Step>)
    ensures var p, q := s.pocket, Runs(s, after).pocket;
            q.revision > p.revision || (q.revision == p.revision && LooksTheSame(p, q))
    decreases |after|
  {
    if after != [] {
      StepCounts(s, after[0]);
      RevisionTells(Next(s, after[0]), after[1..]);
    }
  }

  // Whatever happens between the owner's look and the request: if it changed anything the owner saw, the request
  // changes nothing.
  lemma StaleRequestIsRefused(s: State, after: seq<Step>, request: Step)
    requires OwnersRequest(request) && request.revision == s.pocket.revision
    requires !LooksTheSame(s.pocket, Runs(s, after).pocket)
    ensures Runs(Runs(s, after), [request]) == Runs(s, after)
  {
    var t := Runs(s, after);
    RevisionTells(s, after);
    assert [request][1..] == [];
    assert Next(t, request) == t;
  }

  // ------------------------------------------------------------------ the worker's calls

  // A worker sends one call at a time: a bill is asked for only while the pocket is publishing, of a member other
  // than the owner, for the frozen share and payable to the owner; a cancellation only while it is cancelling.
  // Nobody else sends one.
  lemma CallsAreAskedFor(s: State, step: Step)
    requires Inv(s)
    ensures var t := Next(s, step);
            && |s.calls| <= |t.calls| <= |s.calls| + 1
            && (|t.calls| > |s.calls| ==> t.calls[..|s.calls|] == s.calls && AskedFor(s, step, t.calls[|s.calls|]))
  {
  }

  ghost predicate AskedFor(s: State, step: Step, call: Call) {
    match call
    case CreateCall(payer, payee, amount, stage) =>
      && step.NextMember? && s.pocket.status == Publishing && stage == Waiting
      && payee == s.pocket.ownerId && payer != payee && amount > 0
      && exists i :: 0 <= i < |s.pocket.members|
                     && s.pocket.members[i].userId == payer && s.pocket.members[i].shareCents == amount
    case CancelCall(stage) => step.StartCancel? && s.pocket.status == Cancelling && stage == Waiting
  }
}
