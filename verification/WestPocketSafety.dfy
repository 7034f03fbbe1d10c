// What every run of the collection protocol keeps.
module WestPocketSafety {
  import opened Common
  import opened Split
  import opened PaymentBills
  import opened WestPocket

  // ------------------------------------------------------------------ the invariant

  // The row of a member other than the owner.
  ghost predicate Owes(p: Pocket, i: int) {
    0 <= i < |p.members| && p.members[i].userId != p.ownerId
  }

  ghost predicate SomeClosed(s: State) {
    exists b :: 0 <= b < |s.bills| && s.bills[b].status == Closed
  }

  ghost predicate EveryBillClosed(s: State) {
    forall b :: 0 <= b < |s.bills| ==> s.bills[b].status == Closed
  }

  // No create call has passed its state check: nothing can insert a bill any more once the
  // pocket has left publishing.
  ghost predicate NoCreateAuthorized(s: State) {
    forall c :: 0 <= c < |s.calls| && s.calls[c].CreateCall? ==> s.calls[c].stage != Authorized
  }

  ghost predicate Sealed(s: State) {
    EveryBillClosed(s) && NoCreateAuthorized(s) && s.pocket.status != Draft && s.pocket.status != Publishing
  }

  // Member row i is linked to its bill.
  ghost predicate Linked(s: State, i: int)
    requires 0 <= i < |s.pocket.members|
  {
    var link := s.pocket.members[i].billId;
    link.Some? && link.value < |s.bills| && s.bills[link.value].payerId == s.pocket.members[i].userId
  }

  ghost predicate Billed(s: State) {
    forall i :: Owes(s.pocket, i) ==> Linked(s, i)
  }

  ghost predicate SharesOk(p: Pocket) {
    && SumShares(p.members) == p.totalCents
    && p.receivable == SumOwed(p.members, p.ownerId)
    && p.ownerShare + p.receivable == p.totalCents
    && |p.members| >= 2
    && forall i :: 0 <= i < |p.members| ==> p.members[i].shareCents >= 1
  }

  ghost predicate PocketInv(s: State) {
    var p := s.pocket;
    && Ascending(p.members)
    && (p.status != Draft && p.status != Cancelled ==> SharesOk(p))
    && (forall i :: 0 <= i < |p.members| && p.members[i].billId.Some? ==> Linked(s, i))
    && (p.status == Draft ==> s.bills == [] && s.calls == [] && s.acts == [] && s.refreshes == [] && s.run == Idle)
    && (p.status == Collecting || p.status == Settled ==> p.published)
    && (p.published ==> p.status != Draft && p.status != Publishing && Billed(s))
    && (p.status == Cancelled ==> Sealed(s))
    && (p.status == Settled ==> forall b :: 0 <= b < |s.bills| ==> s.bills[b].status == Completed)
  }

  // A bill is what one member other than the owner owes, and nobody has two.
  ghost predicate BillFits(p: Pocket, b: Bill) {
    && b.source == WestPocketSource(p.id) && b.payeeId == p.ownerId && b.payerId != p.ownerId && b.amountCents > 0
    && exists i :: 0 <= i < |p.members| && p.members[i].userId == b.payerId && p.members[i].shareCents == b.amountCents
  }

  ghost predicate BillsInv(s: State) {
    && (forall b :: 0 <= b < |s.bills| ==> BillFits(s.pocket, s.bills[b]) && s.bills[b].updatedAt < s.clock)
    && (forall b, c :: 0 <= b < c < |s.bills| ==> s.bills[b].payerId != s.bills[c].payerId)
    && (SomeClosed(s) ==> Sealed(s))
    && (forall b :: 0 <= b < |s.bills| && s.bills[b].status in {Submitted, Completed} ==> s.pocket.published)
  }

  ghost predicate InLock(c: Call) {
    c.stage == Locked || c.stage == Authorized
  }

  ghost predicate LockInv(s: State) {
    && (s.sourceLock.Some? ==> s.sourceLock.value < |s.calls| && InLock(s.calls[s.sourceLock.value]))
    && (forall c :: 0 <= c < |s.calls| && InLock(s.calls[c]) ==> s.sourceLock == Some(c))
  }

  ghost predicate CallInv(s: State, c: Call) {
    match c
    case CreateCall(payer, payee, amount, stage) =>
      && s.pocket.status != Draft
      && (stage == Authorized ==>
            && BillFits(s.pocket, Bill(WestPocketSource(s.pocket.id), payer, payee, amount, Unpaid, 0))
            && !SomeClosed(s) && s.pocket.status != Cancelled)
      && (stage.Done? && stage.reply.Created? ==>
            && stage.reply.billId < |s.bills|
            && stage.reply.seen.payerId == s.bills[stage.reply.billId].payerId
            && payee == s.pocket.ownerId && MatchesRow(stage.reply.seen, s.pocket, Member(payer, amount, None)))
    case CancelCall(stage) =>
      && s.pocket.status != Draft && s.pocket.status != Publishing
      && !(stage.Done? && stage.reply.Created?)
      && (stage == Done(AllClosed) ==> Sealed(s))
      && (stage == Done(Refused) ==> s.pocket.published)
  }

  // The worker's rows are the pocket's rows, up to the bill links written since.
  ghost predicate SameRows(rows: seq<Member>, p: Pocket) {
    |rows| == |p.members| && forall i :: 0 <= i < |rows| ==>
        rows[i].userId == p.members[i].userId && rows[i].shareCents == p.members[i].shareCents
  }

  ghost predicate BilledBelow(s: State, n: int) {
    forall i :: Owes(s.pocket, i) && i < n ==> Linked(s, i)
  }

  ghost predicate RunInv(s: State) {
    match s.run
    case Idle => true
    case PublishLoop(rows, i) => SameRows(rows, s.pocket) && i <= |rows| && BilledBelow(s, i)
    case PublishWait(rows, i, c) =>
      SameRows(rows, s.pocket) && i < |rows| && BilledBelow(s, i) && c < |s.calls| && s.calls[c].CreateCall?
    case PublishRecord(rows, i, b) =>
      SameRows(rows, s.pocket) && i < |rows| && BilledBelow(s, i) && b < |s.bills|
        && s.bills[b].payerId == rows[i].userId
    case CancelWait(c) => s.pocket.status == Cancelling && c < |s.calls| && s.calls[c].CancelCall?
    case CancelRefused => s.pocket.status == Cancelling && s.pocket.published
    case CancelAccepted => s.pocket.status == Cancelling && Sealed(s)
  }

  ghost predicate ActInv(s: State, a: Act) {
    && a.bill < |s.bills| && a.seen.updatedAt < s.clock
    && a.seen.updatedAt <= s.bills[a.bill].updatedAt
    && (a.seen.updatedAt == s.bills[a.bill].updatedAt ==> a.seen == s.bills[a.bill])
    && (a.stage == Checked ==> s.pocket.published)
  }

  ghost predicate RefreshInv(s: State, r: Refresh) {
    && (r.collecting ==> s.pocket.published && forall b :: 0 <= b < |s.bills| ==> b in r.ids)
    && (r.stage == Checked ==> s.pocket.published && forall b :: 0 <= b < |s.bills| ==> s.bills[b].status == Completed)
  }

  ghost predicate Inv(s: State) {
    && PocketInv(s) && BillsInv(s) && LockInv(s) && RunInv(s)
    && (forall c :: 0 <= c < |s.calls| ==> CallInv(s, s.calls[c]))
    && (forall a :: 0 <= a < |s.acts| ==> ActInv(s, s.acts[a]))
    && (forall r :: 0 <= r < |s.refreshes| ==> RefreshInv(s, s.refreshes[r]))
  }

  lemma FreshInv(s: State)
    requires Fresh(s)
    ensures Inv(s)
  {
  }

  // ------------------------------------------------------------------ what carries over

  // The facts about a state that rows, calls, requests and refreshes rely on only grow.
  ghost predicate Keeps(s: State, t: State) {
    && t.pocket.id == s.pocket.id && t.pocket.ownerId == s.pocket.ownerId && s.clock <= t.clock
    && (s.pocket.published ==> t.pocket.published && |t.bills| == |s.bills|)
    && SameRows(s.pocket.members, t.pocket)
    && (forall i :: 0 <= i < |s.pocket.members| && Linked(s, i) ==> Linked(t, i))
    && BillsGrow(s.bills, t.bills, s.clock)
    && (Sealed(s) ==> Sealed(t))
    && (s.pocket.status != Draft ==> t.pocket.status != Draft)
    && (s.pocket.status != Draft && s.pocket.status != Publishing ==> t.pocket.status != Publishing)
    && (!NoCreateAuthorized(s) ==>
          (SomeClosed(t) ==> SomeClosed(s)) && (t.pocket.status == Cancelled ==> s.pocket.status == Cancelled))
    && |s.calls| <= |t.calls| && (forall c :: 0 <= c < |s.calls| ==> t.calls[c].CreateCall? == s.calls[c].CreateCall?)
  }

  lemma ActCarries(s: State, t: State, a: Act)
    requires ActInv(s, a) && Keeps(s, t)
    ensures ActInv(t, a)
  {
  }

  // An unchanged worker keeps its invariant unless the pocket leaves the state a cancel run needs.
  lemma RunCarries(s: State, t: State)
    requires RunInv(s) && Keeps(s, t) && t.run == s.run
    requires s.run.CancelWait? || s.run == CancelRefused || s.run == CancelAccepted ==>
              t.pocket.status == s.pocket.status
    ensures RunInv(t)
  {
  }

  // Everything in flight that a step does not touch keeps its invariant.
  lemma Carries(s: State, t: State)
    requires Inv(s) && Keeps(s, t)
    ensures forall c :: 0 <= c < |s.calls| ==> CallInv(t, s.calls[c])
    ensures forall a :: 0 <= a < |s.acts| ==> ActInv(t, s.acts[a])
    ensures forall r :: 0 <= r < |s.refreshes| ==> RefreshInv(t, s.refreshes[r])
  {
  }

  // A step that moves only the worker, a call, a request or a refresh leaves the tables alone.
  ghost predicate SameTables(s: State, t: State) {
    t.pocket == s.pocket && t.bills == s.bills && t.clock == s.clock
  }

  lemma SameTablesKeeps(s: State, t: State)
    requires SameTables(s, t) && |s.calls| <= |t.calls|
    requires forall c :: 0 <= c < |s.calls| ==> t.calls[c].CreateCall? == s.calls[c].CreateCall?
    requires Sealed(s) && NoCreateAuthorized(s) ==> NoCreateAuthorized(t)
    ensures Keeps(s, t)
    ensures forall i :: 0 <= i < |s.pocket.members| ==> Linked(t, i) == Linked(s, i)
    ensures Sealed(s) ==> Sealed(t)
  {
  }

  lemma TablesStay(s: State, t: State)
    requires PocketInv(s) && BillsInv(s) && SameTables(s, t) && Keeps(s, t) && s.pocket.status != Draft
    ensures PocketInv(t) && BillsInv(t)
  {
  }

  // ------------------------------------------------------------------ every step keeps it

  lemma DraftKeeps(s: State, step: Step)
    requires Inv(s) && s.pocket.status == Draft && (step.SetTotal? || step.SetMembers? || step.Cancel?)
    ensures Inv(Next(s, step))
  {
    if step.SetMembers? && UsersOk(step.users) {
      var rows := NewRows(step.users);
      assert Selectable(rows);
      SelectedRowsAscend(rows);
    }
  }

  lemma SelectedRowsAscend(rows: seq<Member>)
    requires Selectable(rows) && forall i :: 0 <= i < |rows| ==> rows[i].billId == None
    ensures Ascending(SortById(rows))
    ensures forall i :: 0 <= i < |rows| ==> SortById(rows)[i].billId == None
  {
    var sorted := SortById(rows);
    SortPermutes(rows);
    SelectablePermutes(rows, sorted);
    StrictOrder(sorted);
    forall i | 0 <= i < |rows| ensures sorted[i].billId == None {
      assert sorted[i] in multiset(sorted);
      var k := Locate(rows, sorted[i]);
    }
  }

  lemma PublishKeeps(s: State, actor: int, revision: nat)
    requires Inv(s)
    ensures Inv(DoPublish(s, actor, revision))
  {
    var split := SplitSpec(s.pocket.totalCents, actor, s.pocket.members);
    if s.pocket.status == Draft && split.Ok? {
      SplitIsFair(s.pocket.totalCents, actor, s.pocket.members);
      SplitKeepsOrder(s.pocket.totalCents, actor, s.pocket.members);
    }
  }

  lemma SplitKeepsOrder(total: int, owner: int, members: seq<Member>)
    requires SplitSpec(total, owner, members).Ok? && Ascending(members)
    ensures var rows := SplitSpec(total, owner, members).value.members;
            |rows| == |members| && forall i :: 0 <= i < |rows| ==>
                rows[i] == members[i].(shareCents := rows[i].shareCents)
  {
    SortPermutes(members);
    SortedDistinctUnique(members, SortById(members));
  }

  // The owner cancels a pocket that has left the draft.
  lemma CancelRequestKeeps(s: State, actor: int, revision: nat)
    requires Inv(s) && s.pocket.status != Draft
    ensures Inv(DoCancel(s, actor, revision))
  {
    var t := DoCancel(s, actor, revision);
    if t.pocket.status != s.pocket.status {
      CancelTables(s, t);
      FlightKeeps(s, t);
    }
  }

  lemma CancelTables(s: State, t: State)
    requires Inv(s) && s.pocket.status in {Publishing, Collecting}
    requires t == s.(pocket := s.pocket.(status := Cancelling, revision := t.pocket.revision))
    ensures Keeps(s, t) && SameFlight(s, t) && PocketInv(t) && BillsInv(t) && RunInv(t)
  {
    assert Keeps(s, t);
    RunCarries(s, t);
  }

  // A step that leaves every call, request and refresh as it was.
  ghost predicate SameFlight(s: State, t: State) {
    t.calls == s.calls && t.acts == s.acts && t.refreshes == s.refreshes && t.sourceLock == s.sourceLock
  }

  lemma FlightKeeps(s: State, t: State)
    requires Inv(s) && Keeps(s, t) && SameFlight(s, t) && PocketInv(t) && BillsInv(t) && RunInv(t)
    ensures Inv(t)
  {
    Carries(s, t);
  }

  // A step that sends one more call.
  ghost predicate Sends(s: State, t: State) {
    && SameTables(s, t) && |t.calls| == |s.calls| + 1 && t.calls == s.calls + [t.calls[|s.calls|]]
    && t.calls[|s.calls|].stage == Waiting
    && t.acts == s.acts && t.refreshes == s.refreshes && t.sourceLock == s.sourceLock
  }

  lemma SendKeeps(s: State, t: State)
    requires Inv(s) && Keeps(s, t) && Sends(s, t) && CallInv(t, t.calls[|s.calls|]) && PocketInv(t) && BillsInv(t)
    requires RunInv(t)
    ensures Inv(t)
  {
  }

  lemma WorkerKeeps(s: State, step: Step)
    requires Inv(s) && s.pocket.status != Draft
    requires step.StartPublish? || step.NextMember? || step.TakeBill? || step.StopRun? || step.StartCancel?
      || step.TakeVerdict?
    ensures Inv(Next(s, step))
  {
    var t := Next(s, step);
    WorkerShape(s, step);
    SameTablesKeeps(s, t);
    TablesStay(s, t);
    WorkerRun(s, step);
    if t.calls == s.calls { FlightKeeps(s, t); } else { SendKeeps(s, t); }
  }

  lemma WorkerShape(s: State, step: Step)
    requires RunInv(s) && s.pocket.status != Draft
    requires step.StartPublish? || step.NextMember? || step.TakeBill? || step.StopRun? || step.StartCancel?
      || step.TakeVerdict?
    ensures SameTables(s, Next(s, step))
    ensures SameFlight(s, Next(s, step))
      || (Sends(s, Next(s, step)) && CallInv(Next(s, step), Next(s, step).calls[|s.calls|]))
  {
  }

  lemma WorkerRun(s: State, step: Step)
    requires Inv(s) && s.pocket.status != Draft && Keeps(s, Next(s, step))
    requires step.StartPublish? || step.NextMember? || step.TakeBill? || step.StopRun? || step.StartCancel?
      || step.TakeVerdict?
    ensures RunInv(Next(s, step))
  {
    if step.TakeBill? || step.TakeVerdict? { AnswerRun(s, step); } else { MovesRun(s, step); }
  }

  lemma MovesRun(s: State, step: Step)
    requires RunInv(s) && s.pocket.status != Draft && Keeps(s, Next(s, step))
    requires step.StartPublish? || step.NextMember? || step.StopRun? || step.StartCancel?
    ensures RunInv(Next(s, step))
  {
  }

  lemma AnswerRun(s: State, step: Step)
    requires Inv(s) && (step.TakeBill? || step.TakeVerdict?)
    ensures RunInv(Next(s, step))
  {
  }

  lemma RecordKeeps(s: State)
    requires Inv(s)
    ensures Inv(DoRecordBill(s))
  {
    if s.run.PublishRecord? && s.run.i < |s.run.rows| {
      RecordGrows(s);
      RecordPocket(s);
      RecordBills(s);
      RecordRun(s);
      FlightKeeps(s, DoRecordBill(s));
    }
  }

  lemma RecordRun(s: State)
    requires Records(s) && BilledBelow(DoRecordBill(s), s.run.i + 1)
    ensures SameFlight(s, DoRecordBill(s)) && RunInv(DoRecordBill(s))
  {
  }

  ghost predicate Records(s: State) {
    && s.run.PublishRecord? && SameRows(s.run.rows, s.pocket) && s.run.i < |s.run.rows|
    && s.run.bill < |s.bills| && s.bills[s.run.bill].payerId == s.run.rows[s.run.i].userId
  }

  // Linking row i keeps every other link and completes the rows up to i.
  lemma RecordGrows(s: State)
    requires Records(s) && BilledBelow(s, s.run.i) && Ascending(s.pocket.members)
    ensures Keeps(s, DoRecordBill(s))
    ensures BilledBelow(DoRecordBill(s), s.run.i + 1)
    ensures SomeClosed(DoRecordBill(s)) ==> SomeClosed(s)
  {
  }

  lemma RecordPocket(s: State)
    requires PocketInv(s) && Records(s) && s.pocket.status != Draft && Keeps(s, DoRecordBill(s))
    ensures PocketInv(DoRecordBill(s))
  {
    var t := DoRecordBill(s);
    assert t.bills == s.bills && t.calls == s.calls;
    SumsIgnoreLinks(s.pocket.members, t.pocket.members, s.pocket.ownerId);
    forall i | 0 <= i < |t.pocket.members| && t.pocket.members[i].billId.Some? ensures Linked(t, i) {
      if s.pocket.members[i].userId != s.run.rows[s.run.i].userId { assert Linked(s, i); }
    }
    forall i | Owes(t.pocket, i) && t.pocket.published ensures Linked(t, i) {
      assert Owes(s.pocket, i); assert Linked(s, i);
    }
  }

  lemma RecordBills(s: State)
    requires BillsInv(s) && Records(s) && s.pocket.status != Draft && Keeps(s, DoRecordBill(s))
    requires SomeClosed(DoRecordBill(s)) ==> SomeClosed(s)
    ensures BillsInv(DoRecordBill(s))
  {
  }

  lemma {:induction false} SumsIgnoreLinks(a: seq<Member>, b: seq<Member>, owner: int)
    requires |a| == |b| && forall i :: 0 <= i < |a| ==> a[i].userId == b[i].userId && a[i].shareCents == b[i].shareCents
    ensures SumShares(a) == SumShares(b) && SumOwed(a, owner) == SumOwed(b, owner)
  {
    if a != [] {
      SumsIgnoreLinks(a[..|a| - 1], b[..|b| - 1], owner);
    }
  }

  // A change of status alone.
  ghost predicate StatusOnly(s: State, t: State) {
    t.bills == s.bills && t.calls == s.calls && t.clock == s.clock
    && t.pocket.(status := s.pocket.status, revision := s.pocket.revision, published := s.pocket.published) == s.pocket
  }

  lemma FinishPublishKeeps(s: State)
    requires Inv(s)
    ensures Inv(DoFinishPublish(s))
  {
    var t := DoFinishPublish(s);
    if s.run.PublishLoop? && |s.run.rows| <= s.run.i {
      if s.pocket.status == Publishing { FinishTables(s); } else { SameTablesKeeps(s, t); TablesStay(s, t); }
      FlightKeeps(s, t);
    }
  }

  lemma FinishTables(s: State)
    requires PocketInv(s) && BillsInv(s) && RunInv(s) && s.run.PublishLoop? && |s.run.rows| <= s.run.i
    requires s.pocket.status == Publishing
    ensures Keeps(s, DoFinishPublish(s)) && PocketInv(DoFinishPublish(s)) && BillsInv(DoFinishPublish(s))
  {
  }

  lemma CancelWorkerKeeps(s: State, t: State)
    requires Inv(s) && (t == DoReturnToCollecting(s) || t == DoFinishCancel(s))
    ensures Inv(t)
  {
    if t != s {
      VerdictGrows(s, t);
      VerdictTables(s, t);
      FlightKeeps(s, t);
    }
  }

  lemma VerdictGrows(s: State, t: State)
    requires RunInv(s) && t != s && (t == DoReturnToCollecting(s) || t == DoFinishCancel(s))
    ensures StatusOnly(s, t) && SameFlight(s, t) && Keeps(s, t) && t.run == Idle
    ensures s.pocket.published == t.pocket.published && s.pocket.status == Cancelling
    ensures (t.pocket.status == Cancelled && Sealed(s)) || (t.pocket.status == Collecting && s.pocket.published)
  {
  }

  lemma VerdictTables(s: State, t: State)
    requires PocketInv(s) && BillsInv(s) && StatusOnly(s, t) && Keeps(s, t) && SameFlight(s, t)
    requires s.pocket.published == t.pocket.published && s.pocket.status == Cancelling
    requires (t.pocket.status == Cancelled && Sealed(s)) || (t.pocket.status == Collecting && s.pocket.published)
    ensures PocketInv(t) && BillsInv(t)
  {
  }

  // Answering one call touches no other call, no request and no worker.
  ghost predicate AnswersOnly(s: State, t: State, c: nat) {
    && c < |s.calls| == |t.calls| && t.run == s.run && t.acts == s.acts && t.refreshes == s.refreshes
    && t.pocket == s.pocket && forall k :: 0 <= k < |s.calls| && k != c ==> t.calls[k] == s.calls[k]
  }

  lemma AnswerKeeps(s: State, t: State, c: nat)
    requires Inv(s) && AnswersOnly(s, t, c) && Keeps(s, t)
    requires PocketInv(t) && BillsInv(t) && LockInv(t) && CallInv(t, t.calls[c])
    ensures Inv(t)
  {
    Carries(s, t);
    RunCarries(s, t);
  }

  lemma LockKeeps(s: State, step: Step)
    requires Inv(s) && (step.LockSource? || step.FailCall? || step.Authorize?)
    ensures Inv(Next(s, step))
  {
    var t := Next(s, step);
    if t != s {
      AuthorizeInv(s, step);
      LockHeldOnce(s, step);
      SameTablesKeeps(s, t);
      TablesStay(s, t);
      AnswerKeeps(s, t, step.call);
    }
  }

  lemma LockHeldOnce(s: State, step: Step)
    requires LockInv(s) && (step.LockSource? || step.FailCall? || step.Authorize?)
    ensures LockInv(Next(s, step))
  {
  }

  // Only an open publishing pocket lets a create call through, and an answered call is final.
  lemma AuthorizeInv(s: State, step: Step)
    requires Inv(s) && (step.LockSource? || step.FailCall? || step.Authorize?) && Next(s, step) != s
    ensures AnswersOnly(s, Next(s, step), step.call) && SameTables(s, Next(s, step))
    ensures CallInv(Next(s, step), Next(s, step).calls[step.call])
    ensures NoCreateAuthorized(s) && Sealed(s) ==> NoCreateAuthorized(Next(s, step))
  {
    var t := Next(s, step);
    assert SomeClosed(t) == SomeClosed(s);
  }

  lemma CreateKeeps(s: State, c: nat)
    requires Inv(s) && c < |s.calls| && s.calls[c].CreateCall? && s.calls[c].stage == Authorized
    ensures Inv(DoApply(s, c))
  {
    assert CallInv(s, s.calls[c]);
    CreateTables(s, c);
    AnswerUnlocks(s, c);
    CreateAnswer(s, c);
    AnswerKeeps(s, DoApply(s, c), c);
  }

  lemma CreateTables(s: State, c: nat)
    requires PocketInv(s) && BillsInv(s) && c < |s.calls| && s.calls[c].CreateCall? && s.calls[c].stage == Authorized
    requires CallInv(s, s.calls[c])
    ensures Keeps(s, DoApply(s, c)) && PocketInv(DoApply(s, c)) && BillsInv(DoApply(s, c))
  {
    if FindBill(s.bills, WestPocketSource(s.pocket.id), s.calls[c].payerId).Some? {
      SameTablesKeeps(s, DoApply(s, c));
      TablesStay(s, DoApply(s, c));
    } else {
      if s.pocket.published { PublishedHasBilled(s, s.calls[c]); }
      InsertGrows(s, c);
      InsertPocket(s, c);
      InsertBills(s, c);
    }
  }

  lemma CreateAnswer(s: State, c: nat)
    requires c < |s.calls| && s.calls[c].CreateCall? && s.calls[c].stage == Authorized && CallInv(s, s.calls[c])
    ensures AnswersOnly(s, DoApply(s, c), c)
    ensures CallInv(DoApply(s, c), DoApply(s, c).calls[c])
  {
  }

  lemma AnswerUnlocks(s: State, c: nat)
    requires LockInv(s) && c < |s.calls| && s.calls[c].stage == Authorized
    ensures LockInv(DoApply(s, c))
  {
  }

  // A published pocket has billed everybody, so nothing is left to insert for a member.
  lemma PublishedHasBilled(s: State, call: Call)
    requires PocketInv(s) && BillsInv(s) && CallInv(s, call) && call.CreateCall? && call.stage == Authorized
    requires s.pocket.published
    ensures FindBill(s.bills, WestPocketSource(s.pocket.id), call.payerId).Some?
  {
    var i :| 0 <= i < |s.pocket.members| && s.pocket.members[i].userId == call.payerId;
    assert Owes(s.pocket, i) && Linked(s, i);
    assert BillFits(s.pocket, s.bills[s.pocket.members[i].billId.value]);
  }

  ghost predicate Inserts(s: State, c: nat) {
    && c < |s.calls| && s.calls[c].CreateCall? && s.calls[c].stage == Authorized && !s.pocket.published
    && FindBill(s.bills, WestPocketSource(s.pocket.id), s.calls[c].payerId).None?
    && CallInv(s, s.calls[c])
  }

  lemma InsertGrows(s: State, c: nat)
    requires Inserts(s, c)
    ensures Keeps(s, DoApply(s, c))
    ensures !SomeClosed(DoApply(s, c))
  {
  }

  lemma InsertPocket(s: State, c: nat)
    requires PocketInv(s) && Inserts(s, c) && Keeps(s, DoApply(s, c))
    ensures PocketInv(DoApply(s, c))
  {
  }

  lemma InsertBills(s: State, c: nat)
    requires BillsInv(s) && Inserts(s, c)
    requires !SomeClosed(DoApply(s, c))
    ensures BillsInv(DoApply(s, c))
  {
  }

  lemma CancelCallKeeps(s: State, c: nat)
    requires Inv(s) && c < |s.calls| && s.calls[c].CancelCall?
    ensures Inv(DoApply(s, c))
  {
    var t := DoApply(s, c);
    if s.calls[c].stage == Authorized {
      assert CallInv(s, s.calls[c]);
      forall k | 0 <= k < |s.calls| && s.calls[k].CreateCall? ensures s.calls[k].stage != Authorized {
        assert InLock(s.calls[c]);
      }
      if PaymentStarted(s.bills, WestPocketSource(s.pocket.id)) {
        RefusedMeansPublished(s);
        SameTablesKeeps(s, t);
        Carries(s, t);
        TablesStay(s, t);
        RunCarries(s, t);
      } else {
        ClosingSeals(s, c);
        Carries(s, t);
        RunCarries(s, t);
        ClosingTables(s, c);
      }
    }
  }

  lemma RefusedMeansPublished(s: State)
    requires Inv(s) && PaymentStarted(s.bills, WestPocketSource(s.pocket.id))
    ensures s.pocket.published
  {
  }

  lemma ClosingSeals(s: State, c: nat)
    requires Inv(s) && c < |s.calls| && s.calls[c] == CancelCall(Authorized)
    requires NoCreateAuthorized(s) && !PaymentStarted(s.bills, WestPocketSource(s.pocket.id))
    ensures Sealed(DoApply(s, c))
    ensures Keeps(s, DoApply(s, c))
  {
  }

  lemma ClosingTables(s: State, c: nat)
    requires Inv(s) && c < |s.calls| && s.calls[c] == CancelCall(Authorized)
    requires Sealed(DoApply(s, c)) && Keeps(s, DoApply(s, c))
    requires !PaymentStarted(s.bills, WestPocketSource(s.pocket.id))
    ensures PocketInv(DoApply(s, c)) && BillsInv(DoApply(s, c))
  {
  }

  // A bill request only moves along.
  lemma ActKeeps(s: State, t: State)
    requires Inv(s) && s.pocket.status != Draft && t == s.(acts := t.acts)
    requires forall a :: 0 <= a < |t.acts| ==> ActInv(s, t.acts[a])
    ensures Inv(t)
  {
    SameTablesKeeps(s, t);
    Carries(s, t);
    TablesStay(s, t);
    RunCarries(s, t);
    forall a | 0 <= a < |t.acts| ensures ActInv(t, t.acts[a]) { ActCarries(s, t, t.acts[a]); }
  }

  lemma ReadBillKeeps(s: State, op: Op, id: nat)
    requires Inv(s)
    ensures Inv(DoReadBill(s, op, id))
  {
    if id < |s.bills| { ActKeeps(s, DoReadBill(s, op, id)); }
  }

  lemma CheckCollectingKeeps(s: State, a: nat)
    requires Inv(s)
    ensures Inv(DoCheckCollecting(s, a))
  {
    if a < |s.acts| && s.acts[a].stage == Read { ActKeeps(s, DoCheckCollecting(s, a)); }
  }

  lemma WriteKeeps(s: State, a: nat)
    requires Inv(s)
    ensures Inv(DoWriteBill(s, a))
  {
    var t := DoWriteBill(s, a);
    if t != s {
      assert ActInv(s, s.acts[a]);
      WriteGrows(s, a);
      Carries(s, t);
      RunCarries(s, t);
      WriteTables(s, a);
      assert ActInv(t, s.acts[a]);
    }
  }

  ghost predicate Writes(s: State, a: nat) {
    && a < |s.acts| && s.acts[a].stage == Checked && ActInv(s, s.acts[a])
  }

  lemma WriteGrows(s: State, a: nat)
    requires Writes(s, a) && BillsInv(s)
    ensures Keeps(s, DoWriteBill(s, a))
    ensures SomeClosed(DoWriteBill(s, a)) ==> SomeClosed(s)
  {
  }

  lemma WriteTables(s: State, a: nat)
    requires PocketInv(s) && BillsInv(s) && Writes(s, a) && Keeps(s, DoWriteBill(s, a)) && s.pocket.status != Draft
    requires SomeClosed(DoWriteBill(s, a)) ==> SomeClosed(s)
    ensures PocketInv(DoWriteBill(s, a)) && BillsInv(DoWriteBill(s, a))
  {
    WritePocket(s, a);
    WriteBills(s, a);
  }

  lemma WritePocket(s: State, a: nat)
    requires PocketInv(s) && BillsInv(s) && Writes(s, a) && Keeps(s, DoWriteBill(s, a)) && s.pocket.status != Draft
    ensures PocketInv(DoWriteBill(s, a))
  {
  }

  lemma WriteBills(s: State, a: nat)
    requires BillsInv(s) && Writes(s, a) && Keeps(s, DoWriteBill(s, a))
    requires SomeClosed(DoWriteBill(s, a)) ==> SomeClosed(s)
    ensures BillsInv(DoWriteBill(s, a))
  {
  }

  lemma {:induction false} BillIdsFind(members: seq<Member>, i: nat)
    requires i < |members| && members[i].billId.Some?
    ensures members[i].billId.value in BillIds(members)
  {
    if i < |members| - 1 { BillIdsFind(members[..|members| - 1], i); }
  }

  // Once published, the members' links name every bill of the pocket.
  lemma LinksNameEveryBill(s: State, b: nat)
    requires Inv(s) && s.pocket.published && b < |s.bills|
    ensures b in BillIds(s.pocket.members)
  {
    assert BillFits(s.pocket, s.bills[b]);
    var i :| 0 <= i < |s.pocket.members| && s.pocket.members[i].userId == s.bills[b].payerId;
    assert Owes(s.pocket, i) && Linked(s, i);
    var k := s.pocket.members[i].billId.value;
    assert k == b;
    BillIdsFind(s.pocket.members, i);
  }

  lemma ReadPocketKeeps(s: State)
    requires Inv(s)
    ensures Inv(DoReadPocket(s))
  {
    var t := DoReadPocket(s);
    if t != s {
      forall b | 0 <= b < |s.bills| ensures b in BillIds(s.pocket.members) { LinksNameEveryBill(s, b); }
      SameTablesKeeps(s, t);
      Carries(s, t);
      TablesStay(s, t);
      RunCarries(s, t);
    }
  }

  lemma CheckBillsKeeps(s: State, r: nat)
    requires Inv(s)
    ensures Inv(DoCheckBills(s, r))
  {
    var t := DoCheckBills(s, r);
    if t != s {
      var ref := s.refreshes[r];
      assert RefreshInv(s, ref);
      if ref.collecting && AllPaid(s.bills, ref.ids) {
        forall b | 0 <= b < |s.bills| ensures s.bills[b].status == Completed {
          assert b in ref.ids;
        }
      }
      SameTablesKeeps(s, t);
      Carries(s, t);
      TablesStay(s, t);
      RunCarries(s, t);
    }
  }

  lemma SettleKeeps(s: State, r: nat)
    requires Inv(s)
    ensures Inv(DoSettle(s, r))
  {
    var t := DoSettle(s, r);
    if t != s {
      assert RefreshInv(s, s.refreshes[r]);
      SettleTables(s, r);
      Carries(s, t);
      RunCarries(s, t);
    }
  }

  lemma SettleTables(s: State, r: nat)
    requires PocketInv(s) && BillsInv(s) && s.pocket.status != Draft && r < |s.refreshes|
    requires s.refreshes[r].stage == Checked
    requires RefreshInv(s, s.refreshes[r])
    ensures Keeps(s, DoSettle(s, r)) && PocketInv(DoSettle(s, r)) && BillsInv(DoSettle(s, r))
  {
  }

  // Who takes a step: the owner, the worker, paymentservice with payer and payee, or a refresh.
  predicate OwnerStep(step: Step) {
    step.SetTotal? || step.SetMembers? || step.Publish? || step.Cancel?
  }

  predicate WorkerStep(step: Step) {
    || step.StartPublish? || step.NextMember? || step.TakeBill? || step.RecordBill? || step.FinishPublish?
    || step.StartCancel? || step.TakeVerdict? || step.ReturnToCollecting? || step.FinishCancel? || step.StopRun?
  }

  predicate CallStep(step: Step) {
    step.LockSource? || step.Authorize? || step.Apply? || step.FailCall?
  }

  predicate BillStep(step: Step) {
    step.ReadBill? || step.CheckCollecting? || step.WriteBill?
  }

  predicate RefreshStep(step: Step) {
    step.ReadPocket? || step.CheckBills? || step.Settle?
  }

  lemma StepKeeps(s: State, step: Step)
    requires Inv(s)
    ensures Inv(Next(s, step))
  {
    if OwnerStep(step) { OwnerStepKeeps(s, step); }
    else if WorkerStep(step) { WorkerStepKeeps(s, step); }
    else if CallStep(step) { CallStepKeeps(s, step); }
    else if BillStep(step) { BillStepKeeps(s, step); }
    else { RefreshStepKeeps(s, step); }
  }

  lemma OwnerStepKeeps(s: State, step: Step)
    requires Inv(s) && OwnerStep(step)
    ensures Inv(Next(s, step))
  {
    match step
    case SetTotal(_, _, _) => if s.pocket.status == Draft { DraftKeeps(s, step); }
    case SetMembers(_, _, _) => if s.pocket.status == Draft { DraftKeeps(s, step); }
    case Publish(actor, revision) => PublishKeeps(s, actor, revision);
    case Cancel(actor, revision) =>
      if s.pocket.status == Draft { DraftKeeps(s, step); } else { CancelRequestKeeps(s, actor, revision); }
    case _ =>
  }

  lemma WorkerStepKeeps(s: State, step: Step)
    requires Inv(s) && WorkerStep(step)
    ensures Inv(Next(s, step))
  {
    match step
    case RecordBill => RecordKeeps(s);
    case FinishPublish => FinishPublishKeeps(s);
    case ReturnToCollecting => CancelWorkerKeeps(s, DoReturnToCollecting(s));
    case FinishCancel => CancelWorkerKeeps(s, DoFinishCancel(s));
    case _ => if s.pocket.status != Draft { WorkerKeeps(s, step); }
  }

  lemma CallStepKeeps(s: State, step: Step)
    requires Inv(s) && CallStep(step)
    ensures Inv(Next(s, step))
  {
    match step
    case Apply(c) =>
      if c < |s.calls| && s.calls[c].stage == Authorized {
        if s.calls[c].CreateCall? { CreateKeeps(s, c); } else { CancelCallKeeps(s, c); }
      }
    case _ => LockKeeps(s, step);
  }

  lemma BillStepKeeps(s: State, step: Step)
    requires Inv(s) && BillStep(step)
    ensures Inv(Next(s, step))
  {
    match step
    case ReadBill(op, id) => ReadBillKeeps(s, op, id);
    case CheckCollecting(a) => CheckCollectingKeeps(s, a);
    case WriteBill(a) => WriteKeeps(s, a);
    case _ =>
  }

  lemma RefreshStepKeeps(s: State, step: Step)
    requires Inv(s) && RefreshStep(step)
    ensures Inv(Next(s, step))
  {
    match step
    case ReadPocket => ReadPocketKeeps(s);
    case CheckBills(r) => CheckBillsKeeps(s, r);
    case Settle(r) => SettleKeeps(s, r);
    case _ =>
  }

  // Every state of every run of a newly created pocket.
  lemma {:induction false} RunsKeep(s: State, trace: seq<Step>)
    requires Inv(s)
    ensures Inv(Runs(s, trace))
    decreases |trace|
  {
    if trace != [] {
      StepKeeps(s, trace[0]);
      RunsKeep(Next(s, trace[0]), trace[1..]);
    }
  }
}
