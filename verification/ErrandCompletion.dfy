// What becomes of the items of an errand task that is completed: which steps still move them, and which items
// never move again.
module ErrandCompletion {
  import opened Common
  import opened Errand
  import opened ErrandSafety
  import opened ErrandFrozen

  ghost predicate AllItemsCompleted(s: State, task: nat) {
    forall k :: 0 <= k < |s.assignments| && s.assignments[k].task == task ==>
      s.assignments[k].item in s.items && s.items[s.assignments[k].item].status == Completed
  }

  // The task collects or is completed, and this step neither pays for its items nor takes the task back.
  ghost predicate LeavesItems(s: State, step: Step, task: nat) {
    && task < |s.tasks| && s.tasks[task].status in {CollectingPayment, TaskCompleted}
    && !step.ApplyConfirm?
    && (step.ToCompleted? && step.task == task ==> s.tasks[task].status == TaskCompleted)
    && (step.CancelTask? && step.task == task ==> s.tasks[task].status == TaskCompleted)
  }

  lemma SelectedAreOpen(s: State, store: int, selected: seq<nat>, i: nat)
    requires Selectable(s, store, selected) && i in s.items && s.items[i].status != Open
    ensures i !in selected && SyncedItem(s, selected, i) == s.items[i]
  {
  }

  // Such a step leaves the items of the task as they are.
  lemma ItemStays(s: State, step: Step, k: nat)
    requires Inv(s) && k < |s.assignments| && LeavesItems(s, step, s.assignments[k].task)
    ensures var i := s.assignments[k].item;
            i in s.items && i in Next(s, step).items && Next(s, step).items[i].status == s.items[i].status
  {
    var i := s.assignments[k].item;
    assert RowOk(s, s.assignments[k]) && ItemOk(s, i);
    match step
    case CreateTask(_, store, selected) => if Next(s, step) != s { SelectedAreOpen(s, store, selected, i); }
    case CancelTask(_, task) => OtherTaskReopens(s, task, k);
    case _ => if MovesPhase(step) { PhaseStepLeaves(s, step, k); }
  }

  predicate MovesPhase(step: Step) {
    step.ToPendingDistributing? || step.ToDistributing? || step.ToCollecting? || step.CompleteWithoutBills?
      || step.ToCompleted?
  }

  lemma PhaseStepLeaves(s: State, step: Step, k: nat)
    requires Inv(s) && k < |s.assignments| && LeavesItems(s, step, s.assignments[k].task) && MovesPhase(step)
    ensures var i := s.assignments[k].item;
            i in s.items && i in Next(s, step).items && Next(s, step).items[i].status == s.items[i].status
  {
    match step
    case ToPendingDistributing(_, task) => OtherTaskMoves(s, task, {Shopping}, PendingDistributing, k);
    case ToDistributing(_, task, _) => OtherTaskMoves(s, task, {PendingDistributing}, Distributing, k);
    case ToCollecting(_, task, _) => OtherTaskMoves(s, task, {Distributing}, PendingPayment, k);
    case CompleteWithoutBills(_, task) => OtherTaskMoves(s, task, {PendingPayment, Completed}, Completed, k);
    case ToCompleted(_, task, _) => OtherTaskMoves(s, task, {PendingPayment, Completed}, Completed, k);
    case _ =>
  }

  lemma OtherTaskMoves(s: State, task: nat, from: set<Phase>, to: Phase, k: nat)
    requires RowsInv(s) && k < |s.assignments|
    ensures var i := s.assignments[k].item;
            i in s.items && (s.assignments[k].task != task ==> Moved(s, task, from, to).items[i] == s.items[i])
  {
    assert RowOk(s, s.assignments[k]);
    RowsApart(s, task, k);
  }

  lemma OtherTaskReopens(s: State, task: nat, k: nat)
    requires RowsInv(s) && k < |s.assignments|
    ensures var i := s.assignments[k].item;
            i in s.items && (s.assignments[k].task != task ==> Reopened(s, task).items[i] == s.items[i])
  {
    assert RowOk(s, s.assignments[k]);
    RowsApart(s, task, k);
  }

  // ------------------------------------------------------------------ items that never move again

  // Item i of a completed task was left distributing, or waits for a payment that no confirmation covers.
  ghost predicate Stuck(s: State, i: nat, k: nat) {
    && i in s.items && k < |s.assignments| && s.assignments[k].item == i
    && s.assignments[k].task < |s.tasks| && s.tasks[s.assignments[k].task].status == TaskCompleted
    && (s.items[i].status == Distributing
        || (s.items[i].status == PendingPayment && forall c :: 0 <= c < |s.confirms| ==> i !in s.confirms[c].items))
  }

  lemma CompletedStays(s: State, step: Step, task: nat)
    requires task < |s.tasks| && s.tasks[task].status == TaskCompleted
    ensures task < |Next(s, step).tasks| && Next(s, step).tasks[task].status == TaskCompleted
  {
  }

  lemma StuckItem(s: State, step: Step, i: nat, k: nat)
    requires Inv(s) && Stuck(s, i, k)
    ensures i in Next(s, step).items && Next(s, step).items[i].status == s.items[i].status
  {
    if step.ApplyConfirm? {
      if step.confirm < |s.confirms| {
        assert s.items[i].status == PendingPayment ==> i !in s.confirms[step.confirm].items;
      }
    } else {
      ItemStays(s, step, k);
    }
  }

  // No confirmation read from now on covers it: its only row belongs to a task that no longer collects.
  lemma StuckUncovered(s: State, step: Step, i: nat, k: nat)
    requires Inv(s) && Stuck(s, i, k) && forall c :: 0 <= c < |s.confirms| ==> i !in s.confirms[c].items
    ensures forall c :: 0 <= c < |Next(s, step).confirms| ==> i !in Next(s, step).confirms[c].items
  {
    if step.ReadConfirm? && DoReadConfirm(s, step.task, step.payer) != s {
      assert i !in PayerItems(s.assignments, step.task, step.payer);
    }
  }

  lemma StuckStep(s: State, step: Step, i: nat, k: nat) returns (l: nat)
    requires Inv(s) && Stuck(s, i, k)
    ensures Stuck(Next(s, step), i, l) && Next(s, step).items[i].status == s.items[i].status
  {
    var a, t := s.assignments[k], Next(s, step);
    FrozenStep(s, step, a.task);
    CompletedStays(s, step, a.task);
    StuckItem(s, step, i, k);
    if s.items[i].status == PendingPayment { StuckUncovered(s, step, i, k); }
    assert a in t.assignments;
    l :| 0 <= l < |t.assignments| && t.assignments[l] == a;
  }

  // It stays in its phase over every run: its task can be neither cancelled nor completed again.
  lemma {:induction false} StuckForever(s: State, trace: seq<Step>, i: nat, k: nat) returns (l: nat)
    requires Inv(s) && Stuck(s, i, k)
    ensures Stuck(Runs(s, trace), i, l) && Runs(s, trace).items[i].status == s.items[i].status
    decreases |trace|
  {
    if trace == [] {
      l := k;
    } else {
      var m := StuckStep(s, trace[0], i, k);
      StepKeeps(s, trace[0]);
      l := StuckForever(Next(s, trace[0]), trace[1..], i, m);
    }
  }

  // ------------------------------------------------------------------ the three ways to complete a task

  // The captain's completion after collecting completes every item.
  lemma CompletedAll(s: State, captain: int, task: nat, paid: set<nat>)
    requires Inv(s) && DoToCompleted(s, captain, task, paid) != s
    ensures AllItemsCompleted(DoToCompleted(s, captain, task, paid), task)
  {
    var t := DoToCompleted(s, captain, task, paid);
    forall k | 0 <= k < |t.assignments| && t.assignments[k].task == task
      ensures t.assignments[k].item in t.items && t.items[t.assignments[k].item].status == Completed
    {
      assert RowOk(s, s.assignments[k]);
      MovedRow(s, task, {PendingPayment, Completed}, Completed, k);
    }
  }

  // Completing without bills completes no item: each stays distributing for ever.
  lemma WithoutBillsStrands(s: State, captain: int, task: nat, trace: seq<Step>, k: nat)
    requires Inv(s) && Mine(s, captain, task, TaskDistributing) && FullyDistributed(s, task)
    requires k < |s.assignments| && s.assignments[k].task == task
    ensures var t, i := Runs(DoCompleteWithoutBills(s, captain, task), trace), s.assignments[k].item;
            && task < |t.tasks| && t.tasks[task].status == TaskCompleted
            && i in t.items && t.items[i].status == Distributing
  {
    var t := DoCompleteWithoutBills(s, captain, task);
    WithoutBillsStuck(s, captain, task, k);
    var l := StuckForever(t, trace, s.assignments[k].item, k);
    StaysCompleted(t, trace, task);
  }

  lemma WithoutBillsStuck(s: State, captain: int, task: nat, k: nat)
    requires Inv(s) && Mine(s, captain, task, TaskDistributing) && FullyDistributed(s, task)
    requires k < |s.assignments| && s.assignments[k].task == task
    ensures var t := DoCompleteWithoutBills(s, captain, task);
            && Inv(t) && task < |t.tasks| && t.tasks[task].status == TaskCompleted
            && Stuck(t, s.assignments[k].item, k) && t.items[s.assignments[k].item].status == Distributing
  {
    LeftDistributing(s, task, k);
    CompletionKeeps(s, LeftBehind(s, task), task);
  }

  // What completing the task leaves when none of its rows is pending payment.
  function LeftBehind(s: State, task: nat): State
    requires task < |s.tasks|
  {
    SetStatus(Moved(s, task, {PendingPayment, Completed}, Completed), task, TaskCompleted)
  }

  lemma LeftDistributing(s: State, task: nat, k: nat)
    requires RowsInv(s) && k < |s.assignments| && s.assignments[k].task == task
    requires task < |s.tasks| && s.tasks[task].status == TaskDistributing
    ensures Stuck(LeftBehind(s, task), s.assignments[k].item, k)
    ensures LeftBehind(s, task).items[s.assignments[k].item].status == Distributing
  {
    assert RowOk(s, s.assignments[k]);
  }

  lemma {:induction false} StaysCompleted(s: State, trace: seq<Step>, task: nat)
    requires task < |s.tasks| && s.tasks[task].status == TaskCompleted
    ensures task < |Runs(s, trace).tasks| && Runs(s, trace).tasks[task].status == TaskCompleted
    decreases |trace|
  {
    if trace != [] {
      CompletedStays(s, trace[0], task);
      StaysCompleted(Next(s, trace[0]), trace[1..], task);
    }
  }
}
