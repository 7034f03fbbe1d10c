// Once an errand task collects payments, what was bought, paid and shared out is fixed for good.
module ErrandFrozen {
  import opened Common
  import opened Errand
  import opened ErrandSafety

  // The task collects payments, or is past that.
  ghost predicate Late(s: State, task: nat) {
    task < |s.tasks| && s.tasks[task].status in {CollectingPayment, TaskCompleted, TaskCancelled}
  }

  // The same captain and packaging fee, and the same shopping list with its purchases and prices.
  ghost predicate SameDeal(s: State, t: State, task: nat)
    requires task < |s.tasks|
  {
    && task < |t.tasks| && t.tasks[task].captain == s.tasks[task].captain
    && t.tasks[task].packaging == s.tasks[task].packaging
    && |s.taskItems| <= |t.taskItems|
    && (forall ti :: 0 <= ti < |s.taskItems| ==> t.taskItems[ti].task == s.taskItems[ti].task)
    && (forall ti :: 0 <= ti < |s.taskItems| && s.taskItems[ti].task == task ==> t.taskItems[ti] == s.taskItems[ti])
    && (forall ti :: |s.taskItems| <= ti < |t.taskItems| ==> t.taskItems[ti].task != task)
  }

  // No row of the task is new or changed.
  ghost predicate NoNewRows(s: State, t: State, task: nat) {
    forall a :: a in t.assignments && a.task == task ==> a in s.assignments
  }

  ghost predicate NoLostRows(s: State, t: State, task: nat) {
    forall a :: a in s.assignments && a.task == task ==> a in t.assignments
  }

  ghost predicate IsCancelled(s: State, task: nat) {
    task < |s.tasks| && s.tasks[task].status == TaskCancelled
  }

  // ------------------------------------------------------------------ one step

  lemma DealStays(s: State, step: Step, task: nat)
    requires Inv(s) && Late(s, task)
    ensures Late(Next(s, step), task) && SameDeal(s, Next(s, step), task)
    ensures IsCancelled(s, task) ==> IsCancelled(Next(s, step), task)
  {
    if step.CreateTask? {
      CreateTaskLeavesDeal(s, step.captain, step.store, step.selected, task);
    } else if step.SavePurchased? || step.SetPrice? || MovesStatus(step) {
      CaptainLeavesDeal(s, step, task);
    } else {
      OthersLeaveTasks(s, step);
    }
  }

  predicate MovesStatus(step: Step) {
    || step.ToPendingDistributing? || step.ToDistributing? || step.ToCollecting? || step.CompleteWithoutBills?
    || step.ToCompleted? || step.CancelTask? || step.AllPaymentsConfirmed?
  }

  lemma CreateTaskLeavesDeal(s: State, captain: int, store: int, selected: seq<nat>, task: nat)
    requires Inv(s) && Late(s, task)
    ensures var t := DoCreateTask(s, captain, store, selected);
            Late(t, task) && SameDeal(s, t, task) && (IsCancelled(s, task) ==> IsCancelled(t, task))
  {
  }

  lemma CaptainLeavesDeal(s: State, step: Step, task: nat)
    requires Inv(s) && Late(s, task) && (step.SavePurchased? || step.SetPrice? || MovesStatus(step))
    ensures Late(Next(s, step), task) && SameDeal(s, Next(s, step), task)
    ensures IsCancelled(s, task) ==> IsCancelled(Next(s, step), task)
  {
  }

  lemma OthersLeaveTasks(s: State, step: Step)
    requires !step.CreateTask? && !step.SavePurchased? && !step.SetPrice? && !MovesStatus(step)
    ensures Next(s, step).tasks == s.tasks && Next(s, step).taskItems == s.taskItems
  {
  }

  lemma RowStays(s: State, step: Step, task: nat, a: Assignment)
    requires Inv(s) && Late(s, task) && a in s.assignments && a.task == task
    requires IsCancelled(Next(s, step), task) ==> IsCancelled(s, task)
    ensures a in Next(s, step).assignments
  {
    match step
    case CancelTask(captain, u) => if u != task { CancelKeepsRow(s, captain, u, a); }
    case SaveDistributed(captain, k, quantity) => SaveKeepsRow(s, captain, k, quantity, a);
    case ToCollecting(captain, u, bills) =>
      if DoToCollecting(s, captain, u, bills) != s { BindKeepsRow(s.assignments, u, bills, a); }
    case _ =>
  }

  lemma CancelKeepsRow(s: State, captain: int, task: nat, a: Assignment)
    requires a in s.assignments && a.task != task
    ensures a in DoCancelTask(s, captain, task).assignments
  {
    if DoCancelTask(s, captain, task) != s {
      var l :| 0 <= l < |s.assignments| && s.assignments[l] == a;
      var k := KeptGoes(s.assignments, Reopened(s, task).items, task, l);
    }
  }

  lemma SaveKeepsRow(s: State, captain: int, k: nat, quantity: int, a: Assignment)
    requires a in s.assignments && Late(s, a.task)
    ensures a in DoSaveDistributed(s, captain, k, quantity).assignments
  {
    var l :| 0 <= l < |s.assignments| && s.assignments[l] == a;
    assert DoSaveDistributed(s, captain, k, quantity).assignments[l] == a;
  }

  lemma {:induction false} BindKeepsRow(assignments: seq<Assignment>, task: nat, bills: seq<(int, nat)>, a: Assignment)
    requires a in assignments && a.task != task
    ensures a in Bound(assignments, task, bills)
  {
    if bills != [] {
      BindKeepsRow(assignments, task, bills[..|bills| - 1], a);
      var done := Bound(assignments, task, bills[..|bills| - 1]);
      var l :| 0 <= l < |done| && done[l] == a;
      assert Bound(assignments, task, bills)[l] == a;
    }
  }

  lemma RowIsOld(s: State, step: Step, task: nat, a: Assignment)
    requires Inv(s) && Late(s, task) && a in Next(s, step).assignments && a.task == task
    ensures a in s.assignments
  {
    match step
    case CreateTask(captain, store, selected) => CreateAddsElsewhere(s, captain, store, selected, a);
    case CancelTask(captain, u) => CancelAddsNoRow(s, captain, u, a);
    case SaveDistributed(captain, k, quantity) => SaveAddsNoRow(s, captain, k, quantity, a);
    case ToCollecting(captain, u, bills) =>
      if DoToCollecting(s, captain, u, bills) != s { BindAddsNoRow(s.assignments, u, bills, a); }
    case _ =>
  }

  lemma CreateAddsElsewhere(s: State, captain: int, store: int, selected: seq<nat>, a: Assignment)
    requires a in DoCreateTask(s, captain, store, selected).assignments && a.task < |s.tasks|
    ensures a in s.assignments
  {
    if DoCreateTask(s, captain, store, selected) != s {
      assert a !in NewAssignments(s.items, selected, |s.tasks|, |s.taskItems|);
    }
  }

  lemma SaveAddsNoRow(s: State, captain: int, k: nat, quantity: int, a: Assignment)
    requires a in DoSaveDistributed(s, captain, k, quantity).assignments && Late(s, a.task)
    ensures a in s.assignments
  {
    var t := DoSaveDistributed(s, captain, k, quantity);
    var l :| 0 <= l < |t.assignments| && t.assignments[l] == a;
    assert s.assignments[l] == a;
  }

  lemma CancelAddsNoRow(s: State, captain: int, task: nat, a: Assignment)
    requires a in DoCancelTask(s, captain, task).assignments
    ensures a in s.assignments
  {
    var t := DoCancelTask(s, captain, task);
    if t != s {
      var k :| 0 <= k < |t.assignments| && t.assignments[k] == a;
      var l := KeptComes(s.assignments, Reopened(s, task).items, task, k);
    }
  }

  lemma {:induction false} BindAddsNoRow(assignments: seq<Assignment>, task: nat, bills: seq<(int, nat)>, a: Assignment)
    requires a in Bound(assignments, task, bills) && a.task != task
    ensures a in assignments
  {
    if bills != [] {
      var done := Bound(assignments, task, bills[..|bills| - 1]);
      var l :| 0 <= l < |done| && Bound(assignments, task, bills)[l] == a;
      assert done[l] == a;
      BindAddsNoRow(assignments, task, bills[..|bills| - 1], a);
    }
  }

  lemma FrozenStep(s: State, step: Step, task: nat)
    requires Inv(s) && Late(s, task)
    ensures Late(Next(s, step), task) && SameDeal(s, Next(s, step), task) && NoNewRows(s, Next(s, step), task)
    ensures !IsCancelled(Next(s, step), task) || IsCancelled(s, task) ==> NoLostRows(s, Next(s, step), task)
    ensures IsCancelled(s, task) ==> IsCancelled(Next(s, step), task)
  {
    DealStays(s, step, task);
    forall a | a in Next(s, step).assignments && a.task == task ensures a in s.assignments {
      RowIsOld(s, step, task, a);
    }
    if !IsCancelled(Next(s, step), task) || IsCancelled(s, task) {
      forall a | a in s.assignments && a.task == task ensures a in Next(s, step).assignments {
        RowStays(s, step, task, a);
      }
    }
  }

  // ------------------------------------------------------------------ every run

  lemma DealsChain(s: State, t: State, u: State, task: nat)
    requires Late(s, task) && Late(t, task) && SameDeal(s, t, task) && SameDeal(t, u, task)
    ensures SameDeal(s, u, task)
  {
  }

  // From collecting on, over every run: captain, packaging fee, purchases and prices are the same for ever and
  // no task item or row joins the task. While the task is not cancelled its rows are exactly the same, shares
  // and bills included; a cancellation may drop rows but changes none, and after it they are again the same.
  lemma {:induction false} FrozenRuns(s: State, trace: seq<Step>, task: nat)
    requires Inv(s) && Late(s, task)
    ensures var t := Runs(s, trace);
            && Late(t, task) && SameDeal(s, t, task) && NoNewRows(s, t, task)
            && (!IsCancelled(t, task) || IsCancelled(s, task) ==> NoLostRows(s, t, task))
            && (IsCancelled(s, task) ==> IsCancelled(t, task))
    decreases |trace|
  {
    if trace != [] {
      var n := Next(s, trace[0]);
      FrozenStep(s, trace[0], task);
      StepKeeps(s, trace[0]);
      FrozenRuns(n, trace[1..], task);
      DealsChain(s, n, Runs(n, trace[1..]), task);
    }
  }
}
