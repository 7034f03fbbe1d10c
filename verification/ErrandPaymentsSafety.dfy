// What every run of the errand tables and their bills keeps.
module ErrandPaymentsSafety {
  import opened Common
  import opened Errand
  import opened ErrandSafety
  import opened ErrandFrozen
  import opened ErrandCompletion
  import opened ErrandPayments
  import P = PaymentBills

  // ------------------------------------------------------------------ the errand tables follow the errand model

  lemma AfterFollows(w: Whole, move: Move)
    ensures After(w, move).errand == Runs(w.errand, ErrandSteps(w, move))
  {
    match move
    case Within(step) => if Inner(step) { OneStep(w.errand, step); }
    case Transition(c) => TransitionFollows(w, c);
    case Complete(captain, task) => OneStep(w.errand, ToCompleted(captain, task, PaidBills(w.bills)));
    case Tell(n) => TellFollows(w, n);
    case Announce(n) => AnnounceFollows(w, n);
    case _ =>
  }

  lemma TellFollows(w: Whole, n: nat)
    ensures DoTell(w, n).errand == Runs(w.errand, ErrandSteps(w, Tell(n)))
  {
    if Tells(w, n) {
      TwoSteps(w.errand, ReadConfirm(w.notices[n].task, w.notices[n].payer), ApplyConfirm(|w.errand.confirms|));
    }
  }

  lemma AnnounceFollows(w: Whole, n: nat)
    ensures DoAnnounce(w, n).errand == Runs(w.errand, ErrandSteps(w, Announce(n)))
  {
    if n < |w.notices| { OneStep(w.errand, AllPaymentsConfirmed(w.notices[n].task)); }
  }

  lemma TransitionFollows(w: Whole, c: nat)
    ensures DoTransition(w, c).errand == Runs(w.errand, ErrandSteps(w, Transition(c)))
  {
    if ReadyCall(w, c) { OneStep(w.errand, ErrandSteps(w, Transition(c))[0]); }
  }

  lemma OneStep(s: State, a: Step)
    ensures Runs(s, [a]) == Next(s, a)
  {
    RunsThrough(s, [], a);
    assert [] + [a] == [a];
  }

  lemma TwoSteps(s: State, a: Step, b: Step)
    ensures Runs(s, [a, b]) == Next(Next(s, a), b)
  {
    OneStep(s, a);
    RunsThrough(s, [a], b);
    assert [a] + [b] == [a, b];
  }

  lemma ErrandKeeps(w: Whole, move: Move)
    requires Inv(w.errand)
    ensures Inv(After(w, move).errand)
  {
    AfterFollows(w, move);
    RunsKeep(w.errand, ErrandSteps(w, move));
  }

  // Once late, always late; once cancelled, always cancelled.
  lemma LateStays(w: Whole, move: Move, task: nat)
    requires Inv(w.errand) && Late(w.errand, task)
    ensures Late(After(w, move).errand, task)
    ensures IsCancelled(w.errand, task) ==> IsCancelled(After(w, move).errand, task)
  {
    AfterFollows(w, move);
    FrozenRuns(w.errand, ErrandSteps(w, move), task);
  }

  // ------------------------------------------------------------------ the invariant

  // A bill of the payer for the task, paid and confirmed.
  ghost predicate PaidBy(w: Whole, task: nat, payer: int) {
    exists b :: 0 <= b < |w.bills| && IsBill(w.bills[b], task, payer) && w.bills[b].status == P.Completed
  }

  predicate IsBill(b: P.Bill, task: nat, payer: int) {
    b.source == P.ErrandTaskSource(task) && b.payerId == payer
  }

  // The payer was among those the drafts of some call were read for.
  ghost predicate Drafted(w: Whole, task: nat, payer: int) {
    exists c :: 0 <= c < |w.calls| && w.calls[c].task == task && payer in w.calls[c].payers
  }

  ghost predicate BillOk(w: Whole, b: P.Bill) {
    && b.source.ErrandTaskSource? && b.source.taskId >= 0 && Drafted(w, b.source.taskId, b.payerId)
    && (b.status == P.Closed ==> IsCancelled(w.errand, b.source.taskId))
  }

  ghost predicate CallOk(w: Whole, c: Call) {
    && |c.bills| <= |c.payers|
    && forall j :: 0 <= j < |c.bills| ==> c.bills[j] < |w.bills| && IsBill(w.bills[c.bills[j]], c.task, c.payers[j])
  }

  // While a task collects, an item is completed exactly when its purchaser's confirmation was carried out.
  ghost predicate RowsPaid(w: Whole) {
    forall k :: 0 <= k < |w.errand.assignments| && Collects(w.errand, w.errand.assignments[k].task) ==>
      RowPaid(w, w.errand.assignments[k])
  }

  ghost predicate RowPaid(w: Whole, a: Assignment) {
    a.item in w.errand.items && (w.errand.items[a.item].status == Completed <==> (a.task, a.purchaser) in w.applied)
  }

  // A task collects only after a call billed every payer its drafts were read for.
  ghost predicate Billed(w: Whole, task: nat) {
    exists c: nat :: ReadyCall(w, c) && w.calls[c].task == task && w.calls[c].payers != []
  }

  ghost predicate TablesOk(w: Whole) {
    && (forall b :: 0 <= b < |w.bills| ==> BillOk(w, w.bills[b]))
    && (forall c :: 0 <= c < |w.calls| ==> CallOk(w, w.calls[c]))
    && (forall n :: 0 <= n < |w.notices| ==> PaidBy(w, w.notices[n].task, w.notices[n].payer))
    && (forall t: nat, p: int :: (t, p) in w.applied ==> Late(w.errand, t) && PaidBy(w, t, p))
  }

  ghost predicate WholeInv(w: Whole) {
    && Inv(w.errand) && TablesOk(w) && RowsPaid(w)
    && forall t: nat :: Collects(w.errand, t) ==> Billed(w, t)
  }

  lemma NothingInv()
    ensures WholeInv(NOTHING)
  {
    EmptyInv();
  }

  // ------------------------------------------------------------------ bills, calls and notices

  // Bills keep what they are for and a paid one stays paid; calls keep their payers and bills.
  ghost predicate BillsKeep(w: Whole, v: Whole) {
    && |w.bills| <= |v.bills| && |w.calls| <= |v.calls|
    && (forall b :: 0 <= b < |w.bills| ==>
          v.bills[b].source == w.bills[b].source && v.bills[b].payerId == w.bills[b].payerId)
    && (forall b :: 0 <= b < |w.bills| && w.bills[b].status == P.Completed ==> v.bills[b].status == P.Completed)
    && (forall c :: 0 <= c < |w.calls| ==> v.calls[c].task == w.calls[c].task && v.calls[c].payers == w.calls[c].payers
                                           && w.calls[c].bills <= v.calls[c].bills
                                           && |v.calls[c].bills| <= |v.calls[c].payers|)
  }

  lemma PaidCarries(w: Whole, v: Whole, task: nat, payer: int)
    requires BillsKeep(w, v) && PaidBy(w, task, payer)
    ensures PaidBy(v, task, payer)
  {
    var b :| 0 <= b < |w.bills| && IsBill(w.bills[b], task, payer) && w.bills[b].status == P.Completed;
    assert IsBill(v.bills[b], task, payer);
  }

  lemma DraftCarries(w: Whole, v: Whole, task: nat, payer: int)
    requires BillsKeep(w, v) && Drafted(w, task, payer)
    ensures Drafted(v, task, payer)
  {
    var c :| 0 <= c < |w.calls| && w.calls[c].task == task && payer in w.calls[c].payers;
    assert v.calls[c].task == task;
  }

  lemma BilledCarries(w: Whole, v: Whole, task: nat)
    requires BillsKeep(w, v) && Billed(w, task)
    ensures Billed(v, task)
  {
    var c: nat :| ReadyCall(w, c) && w.calls[c].task == task && w.calls[c].payers != [];
    assert ReadyCall(v, c) && v.calls[c].task == task;
  }

  // What every move leaves of the bills, calls and notices.
  ghost predicate NewRowsOk(w: Whole, v: Whole)
    requires |w.bills| <= |v.bills|
  {
    && (forall b :: |w.bills| <= b < |v.bills| ==> BillOk(v, v.bills[b]))
    && (forall b :: 0 <= b < |w.bills| && v.bills[b].status == P.Closed && w.bills[b].status != P.Closed ==>
          BillOk(v, v.bills[b]))
    && (forall c :: 0 <= c < |v.calls| ==> CallOk(v, v.calls[c]))
    && (forall n :: 0 <= n < |v.notices| ==>
          PaidBy(v, v.notices[n].task, v.notices[n].payer)
          || (n < |w.notices| && v.notices[n].task == w.notices[n].task && v.notices[n].payer == w.notices[n].payer))
  }

  lemma TablesKeep(w: Whole, v: Whole)
    requires TablesOk(w) && BillsKeep(w, v) && NewRowsOk(w, v)
    requires forall t: nat :: Late(w.errand, t) ==> Late(v.errand, t)
    requires forall t: nat :: IsCancelled(w.errand, t) ==> IsCancelled(v.errand, t)
    requires forall t: nat, p: int :: (t, p) in v.applied && (t, p) !in w.applied ==>
              Late(v.errand, t) && PaidBy(v, t, p)
    ensures TablesOk(v)
  {
    forall b | 0 <= b < |v.bills| ensures BillOk(v, v.bills[b]) {
      if b < |w.bills| { OldBill(w, v, b); }
    }
    forall n | 0 <= n < |v.notices| ensures PaidBy(v, v.notices[n].task, v.notices[n].payer) {
      if !PaidBy(v, v.notices[n].task, v.notices[n].payer) { PaidCarries(w, v, w.notices[n].task, w.notices[n].payer); }
    }
    forall t: nat, p: int | (t, p) in v.applied ensures Late(v.errand, t) && PaidBy(v, t, p) {
      if (t, p) in w.applied { PaidCarries(w, v, t, p); }
    }
  }

  lemma OldBill(w: Whole, v: Whole, b: nat)
    requires TablesOk(w) && BillsKeep(w, v) && NewRowsOk(w, v) && b < |w.bills|
    requires forall t: nat :: IsCancelled(w.errand, t) ==> IsCancelled(v.errand, t)
    ensures BillOk(v, v.bills[b])
  {
    assert BillOk(w, w.bills[b]);
    DraftCarries(w, v, w.bills[b].source.taskId, w.bills[b].payerId);
  }

  // ------------------------------------------------------------------ one move on the bills, calls and notices

  lemma ReadDraftsTables(w: Whole, captain: int, task: nat)
    requires TablesOk(w)
    ensures var v := DoReadDrafts(w, captain, task);
            BillsKeep(w, v) && NewRowsOk(w, v)
  {
    var v := DoReadDrafts(w, captain, task);
    forall c | 0 <= c < |v.calls| ensures CallOk(v, v.calls[c]) {
      if c < |w.calls| { assert CallOk(w, w.calls[c]); }
    }
  }

  lemma BillNextTables(w: Whole, c: nat, amount: int)
    requires TablesOk(w)
    ensures var v := DoBillNext(w, c, amount);
            BillsKeep(w, v) && NewRowsOk(w, v)
  {
    var v := DoBillNext(w, c, amount);
    forall d | 0 <= d < |w.calls| ensures CallOk(v, v.calls[d]) {
      assert CallOk(w, w.calls[d]);
    }
    if |w.bills| < |v.bills| {
      var b := v.bills[|w.bills|];
      assert v.calls[c].task == w.calls[c].task && b.payerId in v.calls[c].payers;
      assert Drafted(v, b.source.taskId, b.payerId);
    }
  }

  lemma UseBillTables(w: Whole, b: nat, op: P.Op)
    requires TablesOk(w)
    ensures var v := DoUseBill(w, b, op);
            BillsKeep(w, v) && NewRowsOk(w, v)
  {
    var v := DoUseBill(w, b, op);
    forall c | 0 <= c < |v.calls| ensures CallOk(v, v.calls[c]) { assert CallOk(w, w.calls[c]); }
    if |w.notices| < |v.notices| {
      assert BillOk(w, w.bills[b]);
      assert IsBill(v.bills[b], w.bills[b].source.taskId, w.bills[b].payerId);
    }
  }

  lemma CloseBillsTables(w: Whole, task: nat)
    requires TablesOk(w)
    ensures var v := DoCloseBills(w, task);
            BillsKeep(w, v) && NewRowsOk(w, v)
  {
    var v := DoCloseBills(w, task);
    forall c | 0 <= c < |v.calls| ensures CallOk(v, v.calls[c]) { assert CallOk(w, w.calls[c]); }
    forall b | 0 <= b < |w.bills| && v.bills[b].status == P.Closed && w.bills[b].status != P.Closed
      ensures BillOk(v, v.bills[b])
    {
      assert BillOk(w, w.bills[b]);
      DraftCarries(w, v, w.bills[b].source.taskId, w.bills[b].payerId);
    }
  }

  // A move that leaves bills and calls alone and only moves notices along.
  lemma NoticeTables(w: Whole, v: Whole)
    requires TablesOk(w) && v.bills == w.bills && v.calls == w.calls && |v.notices| == |w.notices|
    requires forall n :: 0 <= n < |w.notices| ==> v.notices[n] == w.notices[n].(stage := v.notices[n].stage)
    ensures BillsKeep(w, v) && NewRowsOk(w, v)
  {
    forall c | 0 <= c < |v.calls| ensures CallOk(v, v.calls[c]) { assert CallOk(w, w.calls[c]); }
  }

  lemma AfterTables(w: Whole, move: Move)
    requires TablesOk(w)
    ensures BillsKeep(w, After(w, move)) && NewRowsOk(w, After(w, move))
  {
    match move
    case ReadDrafts(captain, task) => ReadDraftsTables(w, captain, task);
    case BillNext(c, amount) => BillNextTables(w, c, amount);
    case UseBill(b, op) => UseBillTables(w, b, op);
    case CloseBills(task) => CloseBillsTables(w, task);
    case _ =>
      OtherMovesNotice(w, move);
      NoticeTables(w, After(w, move));
  }

  lemma OtherMovesNotice(w: Whole, move: Move)
    requires !move.ReadDrafts? && !move.BillNext? && !move.UseBill? && !move.CloseBills?
    ensures var v := After(w, move);
            && v.bills == w.bills && v.calls == w.calls && |v.notices| == |w.notices|
            && forall n :: 0 <= n < |w.notices| ==> v.notices[n] == w.notices[n].(stage := v.notices[n].stage)
  {
  }

  // ------------------------------------------------------------------ who has paid

  // A task starts collecting only by a transition.
  lemma CollectsBefore(s: State, step: Step, task: nat)
    requires Collects(Next(s, step), task) && !Collects(s, task)
    ensures step.ToCollecting? && step.task == task && Next(s, step) != s
  {
  }

  lemma RowStaysPaid(w: Whole, v: Whole, step: Step, a: Assignment)
    requires Inv(w.errand) && RowsPaid(w) && v.errand == Next(w.errand, step) && v.applied == w.applied
    requires !step.ApplyConfirm?
    requires a in v.errand.assignments && Collects(v.errand, a.task) && Collects(w.errand, a.task)
    ensures RowPaid(v, a)
  {
    RowIsOld(w.errand, step, a.task, a);
    var k :| 0 <= k < |w.errand.assignments| && w.errand.assignments[k] == a;
    assert RowPaid(w, w.errand.assignments[k]);
    if v.errand != w.errand { ItemStays(w.errand, step, k); }
  }

  lemma RowsStayPaid(w: Whole, v: Whole, step: Step)
    requires Inv(w.errand) && RowsPaid(w) && v.errand == Next(w.errand, step) && v.applied == w.applied
    requires !step.ApplyConfirm? && !step.ToCollecting?
    ensures RowsPaid(v)
  {
    forall k | 0 <= k < |v.errand.assignments| && Collects(v.errand, v.errand.assignments[k].task)
      ensures RowPaid(v, v.errand.assignments[k])
    {
      var a := v.errand.assignments[k];
      if !Collects(w.errand, a.task) { CollectsBefore(w.errand, step, a.task); }
      RowStaysPaid(w, v, step, a);
    }
  }

  // Nobody has paid for a task that only now starts to collect.
  lemma CollectingUnpaid(s: State, captain: int, task: nat, bills: seq<(int, nat)>, k: nat)
    requires Inv(s) && DoToCollecting(s, captain, task, bills) != s
    requires k < |DoToCollecting(s, captain, task, bills).assignments|
    requires DoToCollecting(s, captain, task, bills).assignments[k].task == task
    ensures var t := DoToCollecting(s, captain, task, bills);
            t.assignments[k].item in t.items && t.items[t.assignments[k].item].status == PendingPayment
  {
    assert RowOk(s, s.assignments[k]);
    MovedRow(s, task, {Distributing}, PendingPayment, k);
  }

  lemma CollectingFrom(s: State, captain: int, task: nat, bills: seq<(int, nat)>)
    requires DoToCollecting(s, captain, task, bills) != s
    ensures task < |s.tasks| && s.tasks[task].status == TaskDistributing
  {
  }

  lemma CollectingOwnRow(w: Whole, v: Whole, captain: int, task: nat, bills: seq<(int, nat)>, k: nat)
    requires Inv(w.errand) && TablesOk(w) && v.applied == w.applied
    requires v.errand == DoToCollecting(w.errand, captain, task, bills) && v.errand != w.errand
    requires k < |v.errand.assignments| && v.errand.assignments[k].task == task
    ensures RowPaid(v, v.errand.assignments[k])
  {
    CollectingUnpaid(w.errand, captain, task, bills, k);
    CollectingFrom(w.errand, captain, task, bills);
    assert !Late(w.errand, task);
  }

  lemma CollectingOtherRow(w: Whole, v: Whole, step: Step, k: nat)
    requires Inv(w.errand) && RowsPaid(w) && v.errand == Next(w.errand, step) && v.applied == w.applied
    requires k < |v.errand.assignments| && Collects(v.errand, v.errand.assignments[k].task)
    requires step.ToCollecting? && v.errand.assignments[k].task != step.task
    ensures RowPaid(v, v.errand.assignments[k])
  {
    var a := v.errand.assignments[k];
    if !Collects(w.errand, a.task) { CollectsBefore(w.errand, step, a.task); }
    RowStaysPaid(w, v, step, a);
  }

  lemma CollectingOwn(w: Whole, v: Whole, step: Step, k: nat)
    requires Inv(w.errand) && TablesOk(w) && v.applied == w.applied
    requires v.errand == Next(w.errand, step) && v.errand != w.errand
    requires step.ToCollecting? && k < |v.errand.assignments| && v.errand.assignments[k].task == step.task
    ensures RowPaid(v, v.errand.assignments[k])
  {
    CollectingOwnRow(w, v, step.captain, step.task, step.bills, k);
  }

  lemma CollectingRows(w: Whole, v: Whole, step: Step)
    requires Inv(w.errand) && TablesOk(w) && RowsPaid(w) && v.applied == w.applied
    requires step.ToCollecting? && v.errand == Next(w.errand, step) && v.errand != w.errand
    ensures RowsPaid(v)
  {
    forall k | 0 <= k < |v.errand.assignments| && Collects(v.errand, v.errand.assignments[k].task)
      ensures RowPaid(v, v.errand.assignments[k])
    {
      if v.errand.assignments[k].task == step.task { CollectingOwn(w, v, step, k); }
      else { CollectingOtherRow(w, v, step, k); }
    }
  }

  // Carrying out a confirmation completes the payer's items of the task and touches no other row's.
  lemma ConfirmedItem(s: State, task: nat, payer: int, k: nat)
    requires Inv(s) && Collects(s, task) && PayerItems(s.assignments, task, payer) != [] && k < |s.assignments|
    ensures var a, t := s.assignments[k], ConfirmPayer(s, task, payer);
            && a.item in s.items && a.item in t.items
            && (a.task == task && a.purchaser == payer ==> t.items[a.item].status == Completed)
            && (!(a.task == task && a.purchaser == payer) ==> t.items[a.item] == s.items[a.item])
  {
    PaidItem(s, task, payer, k);
    ConfirmedItems(s, task, payer);
  }

  lemma PaidItem(s: State, task: nat, payer: int, k: nat)
    requires Inv(s) && Collects(s, task) && k < |s.assignments|
    ensures var a, paid := s.assignments[k], PaidItems(s.items, PayerItems(s.assignments, task, payer));
            && a.item in s.items && a.item in paid
            && (a.task == task && a.purchaser == payer ==> paid[a.item].status == Completed)
            && (!(a.task == task && a.purchaser == payer) ==> paid[a.item] == s.items[a.item])
  {
    assert RowOk(s, s.assignments[k]);
    OneRowPerItem(s, task, payer, k);
  }

  lemma ConfirmedItems(s: State, task: nat, payer: int)
    requires Collects(s, task) && PayerItems(s.assignments, task, payer) != []
    ensures ConfirmPayer(s, task, payer).items == PaidItems(s.items, PayerItems(s.assignments, task, payer))
  {
  }

  lemma OneRowPerItem(s: State, task: nat, payer: int, k: nat)
    requires RowsInv(s) && k < |s.assignments|
    ensures var a := s.assignments[k];
            a.item in PayerItems(s.assignments, task, payer) <==> a.task == task && a.purchaser == payer
  {
    var a := s.assignments[k];
    if a.item in PayerItems(s.assignments, task, payer) {
      var j :| 0 <= j < |s.assignments|
               && s.assignments[j].task == task && s.assignments[j].purchaser == payer
               && s.assignments[j].item == a.item;
      assert j == k;
    }
  }

  lemma TellRows(w: Whole, n: nat)
    requires Inv(w.errand) && RowsPaid(w) && Tells(w, n)
    ensures RowsPaid(DoTell(w, n))
  {
    var v, task, payer := DoTell(w, n), w.notices[n].task, w.notices[n].payer;
    ConfirmKeepsRows(w.errand, task, payer);
    forall k | 0 <= k < |v.errand.assignments| && Collects(v.errand, v.errand.assignments[k].task)
      ensures RowPaid(v, v.errand.assignments[k])
    {
      ConfirmedItem(w.errand, task, payer, k);
      assert RowPaid(w, w.errand.assignments[k]);
    }
  }

  lemma ConfirmKeepsRows(s: State, task: nat, payer: int)
    ensures ConfirmPayer(s, task, payer).assignments == s.assignments && ConfirmPayer(s, task, payer).tasks == s.tasks
  {
  }

  // ------------------------------------------------------------------ every move

  lemma SameErrandRows(w: Whole, v: Whole)
    requires RowsPaid(w) && v.errand == w.errand && v.applied == w.applied
    ensures RowsPaid(v)
  {
    forall k | 0 <= k < |v.errand.assignments| && Collects(v.errand, v.errand.assignments[k].task)
      ensures RowPaid(v, v.errand.assignments[k])
    {
      assert RowPaid(w, w.errand.assignments[k]);
    }
  }

  lemma TransitionRows(w: Whole, c: nat)
    requires WholeInv(w)
    ensures RowsPaid(DoTransition(w, c))
  {
    if ReadyCall(w, c) {
      if w.calls[c].payers == [] { NoBillsRows(w, c); } else { BillsRows(w, c); }
    } else {
      SameErrandRows(w, DoTransition(w, c));
    }
  }

  lemma NoBillsRows(w: Whole, c: nat)
    requires WholeInv(w) && ReadyCall(w, c) && w.calls[c].payers == []
    ensures RowsPaid(DoTransition(w, c))
  {
    RowsStayPaid(w, DoTransition(w, c), CompleteWithoutBills(w.calls[c].captain, w.calls[c].task));
  }

  lemma BillsStep(w: Whole, c: nat) returns (step: Step)
    requires ReadyCall(w, c) && w.calls[c].payers != []
    ensures step.ToCollecting? && DoTransition(w, c).errand == Next(w.errand, step)
    ensures DoTransition(w, c).applied == w.applied
  {
    step := ToCollecting(w.calls[c].captain, w.calls[c].task, Pairs(w.calls[c].payers, w.calls[c].bills));
  }

  lemma BillsRows(w: Whole, c: nat)
    requires WholeInv(w) && ReadyCall(w, c) && w.calls[c].payers != []
    ensures RowsPaid(DoTransition(w, c))
  {
    var step := BillsStep(w, c);
    StepRows(w, DoTransition(w, c), step);
  }

  lemma StepRows(w: Whole, v: Whole, step: Step)
    requires Inv(w.errand) && TablesOk(w) && RowsPaid(w) && step.ToCollecting?
    requires v.errand == Next(w.errand, step) && v.applied == w.applied
    ensures RowsPaid(v)
  {
    if v.errand == w.errand { SameErrandRows(w, v); } else { CollectingRows(w, v, step); }
  }

  lemma AnnounceRows(w: Whole, n: nat)
    requires WholeInv(w)
    ensures RowsPaid(DoAnnounce(w, n))
  {
    var v := DoAnnounce(w, n);
    if v.errand == w.errand { SameErrandRows(w, v); }
    else { RowsStayPaid(w, v, AllPaymentsConfirmed(w.notices[n].task)); }
  }

  lemma CompleteRows(w: Whole, captain: int, task: nat)
    requires WholeInv(w)
    ensures RowsPaid(After(w, Complete(captain, task)))
  {
    RowsStayPaid(w, After(w, Complete(captain, task)), ToCompleted(captain, task, PaidBills(w.bills)));
  }

  lemma WithinRows(w: Whole, step: Step)
    requires WholeInv(w) && Inner(step)
    ensures RowsPaid(After(w, Within(step)))
  {
    RowsStayPaid(w, After(w, Within(step)), step);
  }

  lemma AfterRows(w: Whole, move: Move)
    requires WholeInv(w)
    ensures RowsPaid(After(w, move))
  {
    match move
    case Within(step) => if Inner(step) { WithinRows(w, step); }
    case Transition(c) => TransitionRows(w, c);
    case Complete(captain, task) => CompleteRows(w, captain, task);
    case Tell(n) => if Tells(w, n) { TellRows(w, n); } else { SameErrandRows(w, DoTell(w, n)); }
    case Announce(n) => AnnounceRows(w, n);
    case _ => SameErrandRows(w, After(w, move));
  }

  // A task that collects afterwards collected before, unless this is the transition of a call that is ready.
  lemma AfterCollects(w: Whole, move: Move, task: nat)
    requires Collects(After(w, move).errand, task) && !Collects(w.errand, task)
    ensures move.Transition? && ReadyCall(w, move.call) && w.calls[move.call].task == task
    ensures w.calls[move.call].payers != []
  {
    match move
    case Within(step) => if Inner(step) { CollectsBefore(w.errand, step, task); }
    case Transition(c) => TransitionCollects(w, c, task);
    case Complete(captain, u) => CollectsBefore(w.errand, ToCompleted(captain, u, PaidBills(w.bills)), task);
    case Tell(n) => TellCollects(w, n, task);
    case Announce(n) => AnnounceCollects(w, n, task);
    case _ =>
  }

  lemma TellCollects(w: Whole, n: nat, task: nat)
    ensures Collects(DoTell(w, n).errand, task) ==> Collects(w.errand, task)
  {
    if Tells(w, n) { ConfirmKeepsRows(w.errand, w.notices[n].task, w.notices[n].payer); }
  }

  lemma AnnounceCollects(w: Whole, n: nat, task: nat)
    ensures Collects(DoAnnounce(w, n).errand, task) ==> Collects(w.errand, task)
  {
  }

  lemma TransitionCollects(w: Whole, c: nat, task: nat)
    requires Collects(DoTransition(w, c).errand, task) && !Collects(w.errand, task)
    ensures ReadyCall(w, c) && w.calls[c].task == task && w.calls[c].payers != []
  {
    if ReadyCall(w, c) { CollectsBefore(w.errand, ErrandSteps(w, Transition(c))[0], task); }
  }

  lemma AppliedIsPaid(w: Whole, move: Move, t: nat, p: int)
    requires TablesOk(w) && (t, p) in After(w, move).applied && (t, p) !in w.applied
    ensures Late(After(w, move).errand, t) && PaidBy(After(w, move), t, p)
  {
    assert move.Tell? && Tells(w, move.notice);
    ConfirmKeepsRows(w.errand, t, p);
    AfterTables(w, move);
    PaidCarries(w, After(w, move), t, p);
  }

  lemma MoveKeeps(w: Whole, move: Move)
    requires WholeInv(w)
    ensures WholeInv(After(w, move))
  {
    var v := After(w, move);
    ErrandKeeps(w, move);
    AfterTables(w, move);
    forall t: nat | Late(w.errand, t)
      ensures Late(v.errand, t) && (IsCancelled(w.errand, t) ==> IsCancelled(v.errand, t))
    {
      LateStays(w, move, t);
    }
    forall t: nat, p: int | (t, p) in v.applied && (t, p) !in w.applied ensures Late(v.errand, t) && PaidBy(v, t, p) {
      AppliedIsPaid(w, move, t, p);
    }
    TablesKeep(w, v);
    AfterRows(w, move);
    forall t: nat | Collects(v.errand, t) ensures Billed(v, t) {
      if !Collects(w.errand, t) { AfterCollects(w, move, t); }
      BilledCarries(w, v, t);
    }
  }

  lemma {:induction false} MovesKeep(w: Whole, moves: seq<Move>)
    requires WholeInv(w)
    ensures WholeInv(Afters(w, moves))
    decreases |moves|
  {
    if moves != [] {
      MoveKeeps(w, moves[0]);
      MovesKeep(After(w, moves[0]), moves[1..]);
    }
  }
}
