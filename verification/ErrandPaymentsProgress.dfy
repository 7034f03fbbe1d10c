// What becomes of a task that collects payments: the captain can complete it, with every item, exactly when every
// row that has to be paid for carries a bill.
module ErrandPaymentsProgress {
  import opened Common
  import opened Errand
  import opened ErrandSafety
  import opened ErrandFrozen
  import opened ErrandCompletion
  import opened ErrandPayments
  import opened ErrandPaymentsSafety
  import P = PaymentBills

  // ------------------------------------------------------------------ which bills rows carry

  // A row carries a bill only once its task collects, and then its purchaser's bill for the task.
  ghost predicate RowLinked(s: State, bills: seq<P.Bill>, a: Assignment) {
    a.bill.Some? ==> Late(s, a.task) && a.bill.value < |bills| && IsBill(bills[a.bill.value], a.task, a.purchaser)
  }

  predicate HasShare(a: Assignment) {
    a.distributed.Some? && a.distributed.value > 0
  }

  predicate OneDebt(a: Assignment, b: Assignment, task: nat) {
    a.task == task && b.task == task && a.purchaser == b.purchaser && HasShare(a) && HasShare(b)
  }

  // All that a purchaser has to pay for in a task is on one bill.
  ghost predicate OneBill(s: State, task: nat) {
    forall a, b :: a in s.assignments && b in s.assignments && OneDebt(a, b, task) ==> a.bill == b.bill
  }

  ghost predicate Linked(s: State, bills: seq<P.Bill>) {
    && (forall a :: a in s.assignments ==> RowLinked(s, bills, a))
    && (forall task: nat :: Late(s, task) && !IsCancelled(s, task) ==> OneBill(s, task))
  }

  lemma LinksGrow(s: State, bills: seq<P.Bill>, after: seq<P.Bill>)
    requires Linked(s, bills) && |bills| <= |after|
    requires forall b :: 0 <= b < |bills| ==> after[b].source == bills[b].source && after[b].payerId == bills[b].payerId
    ensures Linked(s, after)
  {
    forall a | a in s.assignments ensures RowLinked(s, after, a) { assert RowLinked(s, bills, a); }
  }

  // A row that carries a bill had it before, unless the step is its task's transition.
  lemma BillWasThere(s: State, step: Step, a: Assignment) returns (b: Assignment)
    requires a in Next(s, step).assignments && a.bill.Some? && !(step.ToCollecting? && step.task == a.task)
    ensures b in s.assignments && b.bill == a.bill && b.task == a.task && b.purchaser == a.purchaser
  {
    b := a;
    match step
    case CreateTask(captain, store, selected) => CreatedUnbilled(s, captain, store, selected, a);
    case CancelTask(captain, u) => CancelAddsNoRow(s, captain, u, a);
    case SaveDistributed(captain, k, quantity) => b := SavedRow(s, captain, k, quantity, a);
    case ToCollecting(captain, u, bills) =>
      if DoToCollecting(s, captain, u, bills) != s { BindAddsNoRow(s.assignments, u, bills, a); }
    case _ =>
  }

  lemma CreatedUnbilled(s: State, captain: int, store: int, selected: seq<nat>, a: Assignment)
    requires a in DoCreateTask(s, captain, store, selected).assignments && a.bill.Some?
    ensures a in s.assignments
  {
    if DoCreateTask(s, captain, store, selected) != s {
      assert a !in NewAssignments(s.items, selected, |s.tasks|, |s.taskItems|);
    }
  }

  lemma SavedRow(s: State, captain: int, k: nat, quantity: int, a: Assignment) returns (b: Assignment)
    requires a in DoSaveDistributed(s, captain, k, quantity).assignments
    ensures b in s.assignments && b.bill == a.bill && b.task == a.task && b.purchaser == a.purchaser
  {
    var t := DoSaveDistributed(s, captain, k, quantity);
    var l :| 0 <= l < |t.assignments| && t.assignments[l] == a;
    b := s.assignments[l];
  }

  // The transition writes a payer's bill only to what the payer has to pay for.
  lemma {:induction false} BoundFrom(assignments: seq<Assignment>, task: nat, bills: seq<(int, nat)>, k: nat)
    requires k < |assignments|
    ensures var a := Bound(assignments, task, bills)[k];
            a.bill == assignments[k].bill
            || exists j :: 0 <= j < |bills| && bills[j].0 == a.purchaser && a.bill == Some(bills[j].1)
  {
    if bills != [] {
      var n := |bills| - 1;
      BoundFrom(assignments, task, bills[..n], k);
      var a := Bound(assignments, task, bills[..n])[k];
      if j :| 0 <= j < n && bills[..n][j].0 == a.purchaser && a.bill == Some(bills[..n][j].1) {
        assert bills[j].0 == a.purchaser && a.bill == Some(bills[j].1);
      }
    }
  }

  lemma {:induction false} BoundAlike(assignments: seq<Assignment>, task: nat, bills: seq<(int, nat)>, k: nat, l: nat)
    requires k < |assignments| && l < |assignments|
    requires OneDebt(assignments[k], assignments[l], task) && assignments[k].bill == assignments[l].bill
    ensures Bound(assignments, task, bills)[k].bill == Bound(assignments, task, bills)[l].bill
  {
    if bills != [] {
      BoundAlike(assignments, task, bills[..|bills| - 1], k, l);
    }
  }

  // ------------------------------------------------------------------ every step keeps the links

  // A transition names bills of its task's payers.
  ghost predicate NamesBills(step: Step, bills: seq<P.Bill>) {
    step.ToCollecting? ==> forall j :: 0 <= j < |step.bills| ==>
      step.bills[j].1 < |bills| && IsBill(bills[step.bills[j].1], step.task, step.bills[j].0)
  }

  lemma StepLinks(s: State, bills: seq<P.Bill>, step: Step)
    requires Inv(s) && Linked(s, bills) && NamesBills(step, bills)
    ensures Linked(Next(s, step), bills)
  {
    var t := Next(s, step);
    if t != s {
      forall a | a in t.assignments ensures RowLinked(t, bills, a) { StepLinksRow(s, bills, step, a); }
      forall task: nat | Late(t, task) && !IsCancelled(t, task) ensures OneBill(t, task) {
        if Late(s, task) {
          FrozenStep(s, step, task);
          assert OneBill(s, task);
        } else {
          FirstBills(s, bills, step, task);
        }
      }
    }
  }

  lemma StepLinksRow(s: State, bills: seq<P.Bill>, step: Step, a: Assignment)
    requires Inv(s) && Linked(s, bills) && NamesBills(step, bills)
    requires Next(s, step) != s && a in Next(s, step).assignments
    ensures RowLinked(Next(s, step), bills, a)
  {
    if a.bill.Some? {
      if step.ToCollecting? && step.task == a.task {
        TransitionLinksRow(s, bills, step, a);
      } else {
        var b := BillWasThere(s, step, a);
        assert RowLinked(s, bills, b);
        FrozenStep(s, step, a.task);
      }
    }
  }

  lemma TransitionLinksRow(s: State, bills: seq<P.Bill>, step: Step, a: Assignment)
    requires Linked(s, bills) && NamesBills(step, bills) && step.ToCollecting? && step.task == a.task
    requires Next(s, step) != s && a in Next(s, step).assignments
    ensures RowLinked(Next(s, step), bills, a)
  {
    var t := DoToCollecting(s, step.captain, step.task, step.bills);
    var k :| 0 <= k < |t.assignments| && t.assignments[k] == a;
    BoundFrom(s.assignments, step.task, step.bills, k);
    assert RowLinked(s, bills, s.assignments[k]);
  }

  // A task that starts to collect had no bills before.
  lemma FirstBills(s: State, bills: seq<P.Bill>, step: Step, task: nat)
    requires Linked(s, bills) && !Late(s, task) && Late(Next(s, step), task) && !IsCancelled(Next(s, step), task)
    ensures OneBill(Next(s, step), task)
  {
    WhichStep(s, step, task);
    var t := Next(s, step);
    forall a, b | a in t.assignments && b in t.assignments && OneDebt(a, b, task) ensures a.bill == b.bill {
      var k :| 0 <= k < |t.assignments| && t.assignments[k] == a;
      var l :| 0 <= l < |t.assignments| && t.assignments[l] == b;
      assert RowLinked(s, bills, s.assignments[k]) && RowLinked(s, bills, s.assignments[l]);
      if step.ToCollecting? { BoundAlike(s.assignments, task, step.bills, k, l); }
    }
  }

  lemma WhichStep(s: State, step: Step, task: nat)
    requires !Late(s, task) && Late(Next(s, step), task) && !IsCancelled(Next(s, step), task)
    ensures (step.ToCollecting? || step.CompleteWithoutBills?) && step.task == task
    ensures Next(s, step).assignments
         == if step.ToCollecting? then Bound(s.assignments, task, step.bills) else s.assignments
  {
  }

  lemma {:induction false} RunsLink(s: State, bills: seq<P.Bill>, trace: seq<Step>)
    requires Inv(s) && Linked(s, bills) && forall k :: 0 <= k < |trace| ==> NamesBills(trace[k], bills)
    ensures Linked(Runs(s, trace), bills)
    decreases |trace|
  {
    if trace != [] {
      StepLinks(s, bills, trace[0]);
      StepKeeps(s, trace[0]);
      RunsLink(Next(s, trace[0]), bills, trace[1..]);
    }
  }

  lemma MoveLinks(w: Whole, move: Move)
    requires WholeInv(w) && Linked(w.errand, w.bills)
    ensures Linked(After(w, move).errand, After(w, move).bills)
  {
    AfterFollows(w, move);
    AfterTables(w, move);
    MoveNames(w, move);
    RunsLink(w.errand, w.bills, ErrandSteps(w, move));
    LinksGrow(After(w, move).errand, w.bills, After(w, move).bills);
  }

  lemma MoveNames(w: Whole, move: Move)
    requires WholeInv(w)
    ensures forall k :: 0 <= k < |ErrandSteps(w, move)| ==> NamesBills(ErrandSteps(w, move)[k], w.bills)
  {
    if move.Transition? && ReadyCall(w, move.call) { assert CallOk(w, w.calls[move.call]); }
  }

  lemma {:induction false} MovesLink(w: Whole, moves: seq<Move>)
    requires WholeInv(w) && Linked(w.errand, w.bills)
    ensures WholeInv(Afters(w, moves)) && Linked(Afters(w, moves).errand, Afters(w, moves).bills)
    decreases |moves|
  {
    if moves != [] {
      MoveLinks(w, moves[0]);
      MoveKeeps(w, moves[0]);
      MovesLink(After(w, moves[0]), moves[1..]);
    }
  }

  // ------------------------------------------------------------------ paying everything

  lemma {:induction false} Append(w: Whole, first: seq<Move>, second: seq<Move>)
    ensures Afters(w, first + second) == Afters(Afters(w, first), second)
    decreases |first|
  {
    if first == [] {
      assert first + second == second;
    } else {
      assert (first + second)[1..] == first[1..] + second;
      Append(After(w, first[0]), first[1..], second);
    }
  }

  // Bills move on, and the errand tables stay.
  ghost predicate OnlyBills(w: Whole, v: Whole) {
    v.errand == w.errand && |v.bills| == |w.bills|
  }

  lemma UseMoves(w: Whole, b: nat, op: P.Op)
    requires b < |w.bills| && w.bills[b].status == op.From()
    ensures var v := Afters(w, [UseBill(b, op)]);
            && OnlyBills(w, v) && v.bills[b] == w.bills[b].(status := op.To(), updatedAt := w.clock)
            && forall c :: 0 <= c < |w.bills| && c != b ==> v.bills[c] == w.bills[c]
  {
    assert [UseBill(b, op)][1..] == [];
    assert Afters(w, [UseBill(b, op)]) == After(w, UseBill(b, op));
  }

  lemma PayOne(w: Whole, b: nat) returns (moves: seq<Move>)
    requires b < |w.bills| && w.bills[b].status != P.Closed
    ensures var v := Afters(w, moves);
            && OnlyBills(w, v) && v.bills[b].status == P.Completed && v.bills[b].source == w.bills[b].source
            && v.bills[b].payerId == w.bills[b].payerId
            && forall c :: 0 <= c < |w.bills| && c != b ==> v.bills[c] == w.bills[c]
  {
    moves := [];
    if w.bills[b].status == P.Unpaid {
      moves := [UseBill(b, P.Pay)];
      UseMoves(w, b, P.Pay);
    }
    var u := Afters(w, moves);
    if u.bills[b].status == P.Submitted {
      UseMoves(u, b, P.Confirm);
      Append(w, moves, [UseBill(b, P.Confirm)]);
      moves := moves + [UseBill(b, P.Confirm)];
    }
  }

  predicate ForTask(b: P.Bill, task: nat) {
    b.source == P.ErrandTaskSource(task)
  }

  lemma {:induction false} PayAll(w: Whole, task: nat, n: nat) returns (moves: seq<Move>)
    requires n <= |w.bills|
    requires forall b :: 0 <= b < |w.bills| && ForTask(w.bills[b], task) ==> w.bills[b].status != P.Closed
    ensures var v := Afters(w, moves);
            && OnlyBills(w, v)
            && (forall b :: 0 <= b < |w.bills| ==>
                  v.bills[b].source == w.bills[b].source && v.bills[b].payerId == w.bills[b].payerId)
            && (forall b :: 0 <= b < n && ForTask(w.bills[b], task) ==> v.bills[b].status == P.Completed)
            && (forall b :: n <= b < |w.bills| ==> v.bills[b] == w.bills[b])
  {
    if n == 0 {
      moves := [];
    } else {
      moves := PayAll(w, task, n - 1);
      if ForTask(w.bills[n - 1], task) {
        var last := PayOne(Afters(w, moves), n - 1);
        Append(w, moves, last);
        moves := moves + last;
      }
    }
  }

  // ------------------------------------------------------------------ completing

  // Everything somebody other than the captain was given carries a bill.
  ghost predicate EveryDebtBilled(s: State, task: nat)
    requires task < |s.tasks|
  {
    forall k :: 0 <= k < |s.assignments| && Owing(s, task, k) ==> s.assignments[k].bill.Some?
  }

  // Some continuation leads to a state in which the captain's request completes the task.
  ghost predicate CaptainCanComplete(w: Whole, task: nat) {
    exists moves :: CompletedBy(Afters(w, moves), task)
  }

  ghost predicate CompletedBy(v: Whole, task: nat) {
    && Collects(v.errand, task)
    && IsCompleted(After(v, Complete(CaptainOf(v.errand, task), task)).errand, task)
    && AllItemsCompleted(After(v, Complete(CaptainOf(v.errand, task), task)).errand, task)
  }

  // A collecting task can still be paid and completed by its captain, with every item, exactly when nothing that
  // has to be paid for was left without a bill by the transition.
  lemma CaptainCompletesIff(before: seq<Move>, task: nat)
    requires Collects(Afters(NOTHING, before).errand, task)
    ensures CaptainCanComplete(Afters(NOTHING, before), task) <==> EveryDebtBilled(Afters(NOTHING, before).errand, task)
  {
    var w := Afters(NOTHING, before);
    NothingInv();
    MovesLink(NOTHING, before);
    if EveryDebtBilled(w.errand, task) {
      var moves := CompletingMoves(w, task);
    } else {
      forall moves ensures !CompletedBy(Afters(w, moves), task) { NeverCompletes(w, moves, task); }
    }
  }

  lemma CompletingMoves(w: Whole, task: nat) returns (moves: seq<Move>)
    requires WholeInv(w) && Linked(w.errand, w.bills) && Collects(w.errand, task) && EveryDebtBilled(w.errand, task)
    ensures CompletedBy(Afters(w, moves), task)
  {
    forall b | 0 <= b < |w.bills| && ForTask(w.bills[b], task) ensures w.bills[b].status != P.Closed {
      assert BillOk(w, w.bills[b]);
    }
    moves := PayAll(w, task, |w.bills|);
    var v := Afters(w, moves);
    var paid := PaidBills(v.bills);
    DebtsArePaid(w, v, task);
    assert DoToCompleted(v.errand, CaptainOf(v.errand, task), task, paid) != v.errand;
    CompletedAll(v.errand, CaptainOf(v.errand, task), task, paid);
  }

  lemma DebtsArePaid(w: Whole, v: Whole, task: nat)
    requires Linked(w.errand, w.bills) && Collects(w.errand, task) && EveryDebtBilled(w.errand, task)
    requires v.errand == w.errand && |v.bills| == |w.bills|
    requires forall b :: 0 <= b < |w.bills| && ForTask(w.bills[b], task) ==> v.bills[b].status == P.Completed
    ensures PaymentsCompleted(v.errand, task, PaidBills(v.bills))
  {
    var s := w.errand;
    forall k | 0 <= k < |s.assignments| && Owing(s, task, k)
      ensures s.assignments[k].bill.Some? && s.assignments[k].bill.value in PaidBills(v.bills)
    {
      assert RowLinked(s, w.bills, s.assignments[k]);
    }
    assert OneBill(s, task);
  }

  // A row without a bill stays so, and keeps the captain from completing.
  lemma NeverCompletes(w: Whole, moves: seq<Move>, task: nat)
    requires WholeInv(w) && Collects(w.errand, task) && !EveryDebtBilled(w.errand, task)
    ensures !CompletedBy(Afters(w, moves), task)
  {
    var v := Afters(w, moves);
    MovesFreeze(w, moves, task);
    if Collects(v.errand, task) {
      var k :| 0 <= k < |w.errand.assignments| && Owing(w.errand, task, k) && w.errand.assignments[k].bill.None?;
      assert w.errand.assignments[k] in v.errand.assignments;
      var l :| 0 <= l < |v.errand.assignments| && v.errand.assignments[l] == w.errand.assignments[k];
      DebtBlocks(v, task, l);
    }
  }

  lemma DebtBlocks(v: Whole, task: nat, l: nat)
    requires Collects(v.errand, task) && l < |v.errand.assignments| && Owing(v.errand, task, l)
    requires v.errand.assignments[l].bill.None?
    ensures !CompletedBy(v, task)
  {
    assert !PaymentsCompleted(v.errand, task, PaidBills(v.bills));
  }

  lemma {:induction false} MovesFreeze(w: Whole, moves: seq<Move>, task: nat)
    requires WholeInv(w) && Late(w.errand, task)
    ensures var s, t := w.errand, Afters(w, moves).errand;
            && Late(t, task) && SameDeal(s, t, task) && (IsCancelled(s, task) ==> IsCancelled(t, task))
            && (!IsCancelled(t, task) ==> NoLostRows(s, t, task))
    decreases |moves|
  {
    if moves != [] {
      var v := After(w, moves[0]);
      AfterFollows(w, moves[0]);
      FrozenRuns(w.errand, ErrandSteps(w, moves[0]), task);
      MoveKeeps(w, moves[0]);
      MovesFreeze(v, moves[1..], task);
      DealsChain(w.errand, v.errand, Afters(v, moves[1..]).errand, task);
    }
  }

  // ------------------------------------------------------------------ cancelled tasks

  // Once a task is cancelled, and only then, its bills can be closed: those that are unpaid or submitted, and no
  // other.
  lemma ClosingIff(w: Whole, task: nat)
    ensures var v := After(w, CloseBills(task));
            if task >= |w.errand.tasks| || w.errand.tasks[task].status != TaskCancelled then v == w
            else
              && v == w.(bills := v.bills, clock := v.clock) && |v.bills| == |w.bills|
              && forall b :: 0 <= b < |w.bills| ==>
                   if w.bills[b].source == P.ErrandTaskSource(task) && w.bills[b].status in {P.Unpaid, P.Submitted}
                   then v.bills[b] == w.bills[b].(status := P.Closed, updatedAt := v.bills[b].updatedAt)
                   else v.bills[b] == w.bills[b]
  {
  }
}
