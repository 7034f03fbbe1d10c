// What the errand group buy guarantees over every run, and where it does not.
module ErrandTheorems {
  import opened Common
  import opened Errand
  import opened ErrandSafety

  lemma Reachable(trace: seq<Step>)
    ensures Inv(Runs(EMPTY, trace))
  {
    EmptyInv();
    RunsKeep(EMPTY, trace);
  }

  // ------------------------------------------------------------------ phases

  // Task, demands and items of an assignment move together, in every reachable state.
  lemma PhasesAgree(trace: seq<Step>, k: nat)
    requires k < |Runs(EMPTY, trace).assignments|
    ensures var s := Runs(EMPTY, trace);
            var a := s.assignments[k];
            && a.item in s.items && a.task < |s.tasks| && s.items[a.item].demand < |s.demands|
            && s.items[a.item].status == s.demands[s.items[a.item].demand].status
            && s.demands[s.items[a.item].demand].task == Some(a.task)
            && (s.tasks[a.task].status == TaskShopping ==> s.items[a.item].status == Shopping)
            && (s.tasks[a.task].status == TaskPendingDistributing ==> s.items[a.item].status == PendingDistributing)
            && (s.tasks[a.task].status == TaskDistributing ==> s.items[a.item].status == Distributing)
            && (s.tasks[a.task].status == CollectingPayment ==> s.items[a.item].status in {PendingPayment, Completed})
            && (s.tasks[a.task].status == TaskCancelled ==> s.items[a.item].status == Completed)
  {
    Reachable(trace);
    var s := Runs(EMPTY, trace);
    assert RowOk(s, s.assignments[k]) && ItemOk(s, s.assignments[k].item);
  }

  // An open or cancelled item has no assignment, any other has exactly one, and the items of
  // a demand are all in its phase.
  lemma AssignedOnce(trace: seq<Step>, i: nat)
    requires i in Runs(EMPTY, trace).items
    ensures var s := Runs(EMPTY, trace);
            && s.items[i].demand < |s.demands| && s.items[i].status == s.demands[s.items[i].demand].status
            && (s.items[i].status in {Open, Cancelled} <==> forall k :: 0 <= k < |s.assignments| ==>
                  s.assignments[k].item != i)
            && forall k, l :: 0 <= k < l < |s.assignments| ==>
                  !(s.assignments[k].item == i && s.assignments[l].item == i)
  {
    Reachable(trace);
    var s := Runs(EMPTY, trace);
    assert ItemOk(s, i) && (HasRow(s, i) <==> !Unassigned(s.items[i].status));
  }

  // Creating a task loses, duplicates and alters no item, and takes a partly selected demand
  // apart exactly along the selection.
  lemma SplitKeepsItems(s: State, captain: int, store: int, selected: seq<nat>, i: nat, j: nat)
    requires Inv(s) && DoCreateTask(s, captain, store, selected) != s && i in s.items && j in s.items
    ensures var t := DoCreateTask(s, captain, store, selected);
            && t.items.Keys == s.items.Keys
            && (i !in selected ==> t.items[i] == s.items[i])
            && (i in selected ==> t.items[i] == s.items[i].(status := Shopping, demand := t.items[i].demand))
            && t.items[i].demand < |t.demands| && t.demands[t.items[i].demand].requester == s.items[i].requester
            && (i in selected <==> t.demands[t.items[i].demand].task == Some(|s.tasks|))
            && (t.items[i].demand == t.items[j].demand <==>
                  s.items[i].demand == s.items[j].demand && (i in selected <==> j in selected))
  {
    var t := DoCreateTask(s, captain, store, selected);
    assert Picks(s, store, selected);
    CreateTaskBuilds(s, captain, store, selected);
    assert ItemOk(s, i) && ItemOk(s, j) && Follows(s, t, selected, i) && Follows(s, t, selected, j);
    if i !in selected { OtherTask(s, i); }
    Together2(s, captain, store, selected, i, j);
  }

  lemma OtherTask(s: State, i: nat)
    requires Inv(s) && i in s.items
    ensures s.items[i].demand < |s.demands| && s.demands[s.items[i].demand].task != Some(|s.tasks|)
  {
  }

  lemma Together2(s: State, captain: int, store: int, selected: seq<nat>, i: nat, j: nat)
    requires Inv(s) && Picks(s, store, selected) && i in s.items && j in s.items
    ensures SyncedItem(s, selected, i).demand == SyncedItem(s, selected, j).demand <==>
              s.items[i].demand == s.items[j].demand && (i in selected <==> j in selected)
  {
    assert ItemOk(s, i) && ItemOk(s, j);
    PartialsAre(s.items, selected, |s.demands|, s.items[i].demand);
    PartialsAre(s.items, selected, |s.demands|, s.items[j].demand);
    if i in selected { SyncedSelected(s, selected, i); } else { SyncedOther(s, selected, i); }
    if j in selected { SyncedSelected(s, selected, j); } else { SyncedOther(s, selected, j); }
    if s.items[i].demand == s.items[j].demand && i in selected && j !in selected { SplitByBoth(s, selected, i, j); }
    if s.items[i].demand == s.items[j].demand && j in selected && i !in selected { SplitByBoth(s, selected, j, i); }
  }

  lemma SplitByBoth(s: State, selected: seq<nat>, i: nat, j: nat)
    requires i in s.items && j in s.items && s.items[i].demand == s.items[j].demand && i in selected && j !in selected
    ensures Partial(s.items, selected, s.items[i].demand)
  {
  }

  // ------------------------------------------------------------------ quantities

  // The quantities of every task item, in every reachable state. A cancelled task keeps the bounds for the
  // rows it keeps; only its total is no longer what those rows ask for.
  lemma QuantitiesHold(trace: seq<Step>, ti: nat)
    requires ti < |Runs(EMPTY, trace).taskItems|
    ensures var s := Runs(EMPTY, trace);
            var x := s.taskItems[ti];
            && x.task < |s.tasks|
            && (s.tasks[x.task].status != TaskCancelled ==>
                  x.required == Wrap32(SumQuantity(s.assignments, s.items, ti)))
            && (x.purchased.Some? ==> 0 <= SumDistributed(s.assignments, ti) <= x.purchased.value <= x.required)
            && (s.tasks[x.task].status in {CollectingPayment, TaskCompleted} ==>
                  x.purchased == Some(SumDistributed(s.assignments, ti)) && (x.purchased.value > 0 ==> x.price.Some?))
  {
    Reachable(trace);
    assert TaskItemOk(Runs(EMPTY, trace), ti);
    DistributedNonNegative(Runs(EMPTY, trace), Runs(EMPTY, trace).assignments, ti);
  }

  lemma {:induction false} DistributedNonNegative(s: State, rows: seq<Assignment>, ti: nat)
    requires Inv(s) && |rows| <= |s.assignments| && rows == s.assignments[..|rows|]
    ensures 0 <= SumDistributed(rows, ti)
  {
    if rows != [] {
      var n := |rows| - 1;
      assert ShareOk(s, s.assignments[n]) && rows[n] == s.assignments[n];
      DistributedNonNegative(s, rows[..n], ti);
    }
  }

  // Every share is within its demand; while collecting every row is decided.
  lemma SharesHold(trace: seq<Step>, k: nat)
    requires k < |Runs(EMPTY, trace).assignments|
    ensures var s := Runs(EMPTY, trace);
            var a := s.assignments[k];
            && a.item in s.items && a.task < |s.tasks|
            && (a.distributed.Some? ==> 0 <= a.distributed.value <= s.items[a.item].quantity)
            && (s.tasks[a.task].status in {CollectingPayment, TaskCompleted} ==> a.distributed.Some?)
  {
    Reachable(trace);
    var s := Runs(EMPTY, trace);
    assert RowOk(s, s.assignments[k]) && ShareOk(s, s.assignments[k]);
  }

  // ------------------------------------------------------------------ distribution can finish

  // Rows below k of the task are cleared, the rest of the state is as it was.
  ghost predicate OnlyShares(s: State, t: State) {
    && t == s.(assignments := t.assignments) && |t.assignments| == |s.assignments|
    && forall l :: 0 <= l < |s.assignments| ==>
          t.assignments[l] == s.assignments[l].(distributed := t.assignments[l].distributed)
  }

  ghost predicate Cleared(s: State, task: nat, from: nat, to: nat) {
    forall l :: from <= l < to && l < |s.assignments| && s.assignments[l].task == task ==>
        s.assignments[l].distributed == None
  }

  // Saving one share, and what follows.
  lemma SaveFirst(s: State, captain: int, k: nat, quantity: int, rest: seq<Step>)
    ensures Runs(s, [SaveDistributed(captain, k, quantity)] + rest)
              == Runs(DoSaveDistributed(s, captain, k, quantity), rest)
  {
  }

  lemma SharesChain(s: State, t: State, u: State)
    requires OnlyShares(s, t) && OnlyShares(t, u)
    ensures OnlyShares(s, u)
  {
  }

  function WithShare(s: State, k: nat, share: Option<int>): State
    requires k < |s.assignments|
  {
    s.(assignments := s.assignments[k := s.assignments[k].(distributed := share)])
  }

  // The captain takes every share back.
  lemma ClearFrom(s: State, task: nat, k: nat) returns (trace: seq<Step>)
    requires Inv(s) && task < |s.tasks| && s.tasks[task].status == TaskDistributing && k <= |s.assignments|
    requires Cleared(s, task, 0, k)
    ensures Inv(Runs(s, trace)) && OnlyShares(s, Runs(s, trace)) && Cleared(Runs(s, trace), task, 0, |s.assignments|)
    decreases |s.assignments| - k
  {
    if k == |s.assignments| {
      trace := [];
    } else if s.assignments[k].task != task {
      trace := ClearFrom(s, task, k + 1);
    } else {
      var captain, t := s.tasks[task].captain, WithShare(s, k, None);
      ClearOne(s, task, k);
      ClearedOne(s, task, k);
      var rest := ClearFrom(t, task, k + 1);
      SaveFirst(s, captain, k, UNDO, rest);
      SharesChain(s, t, Runs(t, rest));
      trace := [SaveDistributed(captain, k, UNDO)] + rest;
    }
  }

  lemma ClearedOne(s: State, task: nat, k: nat)
    requires Inv(s) && task < |s.tasks| && s.tasks[task].status == TaskDistributing && Cleared(s, task, 0, k)
    requires k < |s.assignments| && s.assignments[k].task == task
    ensures Inv(WithShare(s, k, None)) && OnlyShares(s, WithShare(s, k, None))
    ensures Cleared(WithShare(s, k, None), task, 0, k + 1)
  {
    ClearOne(s, task, k);
    SaveDistributedKeeps(s, s.tasks[task].captain, k, UNDO);
  }

  lemma ClearOne(s: State, task: nat, k: nat)
    requires Inv(s) && task < |s.tasks| && s.tasks[task].status == TaskDistributing && k < |s.assignments|
    requires s.assignments[k].task == task
    ensures DoSaveDistributed(s, s.tasks[task].captain, k, UNDO)
            == WithShare(s, k, None)
  {
    assert RowOk(s, s.assignments[k]) && TaskItemOk(s, s.assignments[k].taskItem);
  }

  // What the rows before k ask for of a task item.
  function AskedBefore(s: State, k: nat, ti: nat): int
    requires k <= |s.assignments|
  {
    SumQuantity(s.assignments[..k], s.items, ti)
  }

  // Before row k everybody was given what was left, in order; from row k on nobody was.
  ghost predicate Filled(s: State, task: nat, k: nat) {
    && k <= |s.assignments| && Cleared(s, task, k, |s.assignments|)
    && (forall l :: 0 <= l < k && s.assignments[l].task == task ==> s.assignments[l].distributed.Some?)
    && forall ti :: 0 <= ti < |s.taskItems| && s.taskItems[ti].task == task && s.taskItems[ti].purchased.Some? ==>
         SumDistributed(s.assignments, ti) == Min(s.taskItems[ti].purchased.value, AskedBefore(s, k, ti))
  }

  function Greedy(s: State, k: nat): int
    requires k < |s.assignments| && RowOk(s, s.assignments[k]) && s.taskItems[s.assignments[k].taskItem].purchased.Some?
  {
    var a := s.assignments[k];
    Min(s.taskItems[a.taskItem].purchased.value - SumDistributed(s.assignments, a.taskItem), s.items[a.item].quantity)
  }

  lemma FillFrom(s: State, task: nat, k: nat) returns (trace: seq<Step>)
    requires Inv(s) && task < |s.tasks| && s.tasks[task].status == TaskDistributing && Filled(s, task, k)
    ensures Inv(Runs(s, trace)) && OnlyShares(s, Runs(s, trace)) && Filled(Runs(s, trace), task, |s.assignments|)
    decreases |s.assignments| - k
  {
    if k == |s.assignments| {
      trace := [];
    } else if s.assignments[k].task != task {
      SkipRow(s, task, k);
      trace := FillFrom(s, task, k + 1);
    } else {
      assert RowOk(s, s.assignments[k]) && TaskItemOk(s, s.assignments[k].taskItem);
      var captain, share := s.tasks[task].captain, Greedy(s, k);
      var t := WithShare(s, k, Some(share));
      GiveOne(s, task, k);
      GivenFills(s, task, k);
      SaveDistributedKeeps(s, captain, k, share);
      var rest := FillFrom(t, task, k + 1);
      SaveFirst(s, captain, k, share, rest);
      SharesChain(s, t, Runs(t, rest));
      trace := [SaveDistributed(captain, k, share)] + rest;
    }
  }

  lemma AskedNext(s: State, k: nat, ti: nat)
    requires k < |s.assignments| && RowOk(s, s.assignments[k])
    ensures AskedBefore(s, k + 1, ti) == AskedBefore(s, k, ti)
                 + if s.assignments[k].taskItem == ti then s.items[s.assignments[k].item].quantity else 0
  {
    assert s.assignments[..k + 1][..k] == s.assignments[..k];
  }

  lemma SkipRow(s: State, task: nat, k: nat)
    requires Inv(s) && k < |s.assignments| && s.assignments[k].task != task && Filled(s, task, k)
    ensures Filled(s, task, k + 1)
  {
    assert RowOk(s, s.assignments[k]);
    forall ti | 0 <= ti < |s.taskItems| && s.taskItems[ti].task == task
      ensures AskedBefore(s, k + 1, ti) == AskedBefore(s, k, ti)
    {
      AskedNext(s, k, ti);
    }
  }

  lemma {:induction false} AskedNonNegative(s: State, k: nat, ti: nat)
    requires Inv(s) && k <= |s.assignments|
    ensures AskedBefore(s, k, ti) >= 0
  {
    if k > 0 {
      assert RowOk(s, s.assignments[k - 1]) && ItemOk(s, s.assignments[k - 1].item);
      AskedNext(s, k - 1, ti);
      AskedNonNegative(s, k - 1, ti);
    }
  }

  lemma GiveOne(s: State, task: nat, k: nat)
    requires Inv(s) && task < |s.tasks| && s.tasks[task].status == TaskDistributing && Filled(s, task, k)
    requires k < |s.assignments| && s.assignments[k].task == task && RowOk(s, s.assignments[k])
    requires s.taskItems[s.assignments[k].taskItem].purchased.Some?
    ensures 0 <= Greedy(s, k)
    ensures DoSaveDistributed(s, s.tasks[task].captain, k, Greedy(s, k))
            == WithShare(s, k, Some(Greedy(s, k)))
  {
  }

  lemma GivenFills(s: State, task: nat, k: nat)
    requires Inv(s) && task < |s.tasks| && s.tasks[task].status == TaskDistributing && Filled(s, task, k)
    requires k < |s.assignments| && s.assignments[k].task == task && RowOk(s, s.assignments[k])
    requires s.taskItems[s.assignments[k].taskItem].purchased.Some?
    ensures Filled(WithShare(s, k, Some(Greedy(s, k))), task, k + 1)
    ensures OnlyShares(s, WithShare(s, k, Some(Greedy(s, k))))
  {
    var t := WithShare(s, k, Some(Greedy(s, k)));
    forall ti | 0 <= ti < |t.taskItems| && t.taskItems[ti].task == task && t.taskItems[ti].purchased.Some?
      ensures SumDistributed(t.assignments, ti) == Min(t.taskItems[ti].purchased.value, AskedBefore(t, k + 1, ti))
    {
      GivenSum(s, task, k, ti);
    }
  }

  lemma GivenSum(s: State, task: nat, k: nat, ti: nat)
    requires Inv(s) && k < |s.assignments| && RowOk(s, s.assignments[k]) && s.assignments[k].distributed == None
    requires s.taskItems[s.assignments[k].taskItem].purchased.Some? && ti < |s.taskItems|
    requires s.taskItems[ti].purchased.Some?
    requires SumDistributed(s.assignments, ti) == Min(s.taskItems[ti].purchased.value, AskedBefore(s, k, ti))
    ensures var t := WithShare(s, k, Some(Greedy(s, k)));
            SumDistributed(t.assignments, ti) == Min(t.taskItems[ti].purchased.value, AskedBefore(t, k + 1, ti))
  {
    var t := WithShare(s, k, Some(Greedy(s, k)));
    assert ItemOk(s, s.assignments[k].item);
    SumReplace(s.assignments, k, t.assignments[k], ti);
    AskedSame(s, t, k + 1, ti);
    AskedNext(s, k, ti);
  }

  lemma AskedSame(s: State, t: State, k: nat, ti: nat)
    requires OnlyShares(s, t) && k <= |s.assignments|
    ensures AskedBefore(t, k, ti) == AskedBefore(s, k, ti)
  {
    SumSharesOnly(s.assignments[..k], t.assignments[..k], s.items, ti);
  }

  lemma {:induction false} SumSharesOnly(a: seq<Assignment>, b: seq<Assignment>, items: map<nat, Item>, ti: nat)
    requires |a| == |b| && forall l :: 0 <= l < |a| ==> b[l] == a[l].(distributed := b[l].distributed)
    ensures SumQuantity(a, items, ti) == SumQuantity(b, items, ti)
  {
    if a != [] {
      SumSharesOnly(a[..|a| - 1], b[..|b| - 1], items, ti);
    }
  }

  // From every reachable state that is distributing, the captain can save shares one by one,
  // each of them accepted, until the distribution is complete.
  lemma DistributionCanFinish(before: seq<Step>, task: nat) returns (after: seq<Step>)
    requires task < |Runs(EMPTY, before).tasks| && Runs(EMPTY, before).tasks[task].status == TaskDistributing
    ensures FullyDistributed(Runs(Runs(EMPTY, before), after), task)
    ensures OnlyShares(Runs(EMPTY, before), Runs(Runs(EMPTY, before), after))
  {
    var s := Runs(EMPTY, before);
    Reachable(before);
    HasTaskItem(before, task);
    var clear := ClearFrom(s, task, 0);
    var u := Runs(s, clear);
    ClearedIsFilled(u, task);
    var fill := FillFrom(u, task, 0);
    RunsConcat(s, clear, fill);
    after := clear + fill;
    FilledIsComplete(Runs(u, fill), task);
  }

  lemma RunsConcat(s: State, a: seq<Step>, b: seq<Step>)
    ensures Runs(s, a + b) == Runs(Runs(s, a), b)
    decreases |a|
  {
    if a == [] {
      assert a + b == b;
    } else {
      assert (a + b)[1..] == a[1..] + b;
      RunsConcat(Next(s, a[0]), a[1..], b);
    }
  }

  lemma ClearedIsFilled(s: State, task: nat)
    requires Inv(s) && task < |s.tasks| && s.tasks[task].status == TaskDistributing
    requires Cleared(s, task, 0, |s.assignments|)
    ensures Filled(s, task, 0)
  {
    forall ti | 0 <= ti < |s.taskItems| && s.taskItems[ti].task == task && s.taskItems[ti].purchased.Some?
      ensures SumDistributed(s.assignments, ti) == Min(s.taskItems[ti].purchased.value, AskedBefore(s, 0, ti))
    {
      forall l | 0 <= l < |s.assignments| && s.assignments[l].taskItem == ti
        ensures s.assignments[l].distributed == None
      {
        assert RowOk(s, s.assignments[l]);
      }
      SumNone(s.assignments, ti);
      assert TaskItemOk(s, ti);
      assert s.assignments[..0] == [];
    }
  }

  ghost predicate HasItems(s: State, task: nat) {
    exists k :: 0 <= k < |s.taskItems| && s.taskItems[k].task == task
  }

  lemma FilledIsComplete(s: State, task: nat)
    requires Inv(s) && task < |s.tasks| && s.tasks[task].status == TaskDistributing && Filled(s, task, |s.assignments|)
    requires HasItems(s, task)
    ensures FullyDistributed(s, task)
  {
    forall ti | 0 <= ti < |s.taskItems| && s.taskItems[ti].task == task
      ensures s.taskItems[ti].purchased.Some? && (s.taskItems[ti].purchased.value > 0 ==> s.taskItems[ti].price.Some?)
      ensures SumDistributed(s.assignments, ti) == s.taskItems[ti].purchased.value
    {
      assert TaskItemOk(s, ti);
      assert s.assignments[..|s.assignments|] == s.assignments;
      AskedNonNegative(s, |s.assignments|, ti);
      WrapNoLarger(SumQuantity(s.assignments, s.items, ti));
    }
  }

  lemma WrapNoLarger(x: int)
    requires x >= 0
    ensures Wrap32(x) <= x
  {
  }

  // Every task was created with at least one item.
  lemma {:induction false} HasTaskItem(trace: seq<Step>, task: nat)
    requires task < |Runs(EMPTY, trace).tasks|
    ensures HasItems(Runs(EMPTY, trace), task)
  {
    AllHaveItems(EMPTY, trace);
  }

  ghost predicate TasksHaveItems(s: State) {
    forall task :: 0 <= task < |s.tasks| ==> HasItems(s, task)
  }

  lemma {:induction false} AllHaveItems(s: State, trace: seq<Step>)
    requires TasksHaveItems(s)
    ensures TasksHaveItems(Runs(s, trace))
    decreases |trace|
  {
    if trace != [] {
      ItemsStay(s, trace[0]);
      AllHaveItems(Next(s, trace[0]), trace[1..]);
    }
  }

  lemma ItemsStay(s: State, step: Step)
    requires TasksHaveItems(s)
    ensures TasksHaveItems(Next(s, step))
  {
    var t := Next(s, step);
    match step
    case CreateTask(captain, store, selected) => if t != s { CreatedHasItems(s, captain, store, selected); }
    case _ =>
      assert |t.tasks| == |s.tasks| && |t.taskItems| == |s.taskItems|;
      forall task | 0 <= task < |t.tasks| ensures HasItems(t, task) {
        assert HasItems(s, task);
        var k :| 0 <= k < |s.taskItems| && s.taskItems[k].task == task;
        assert t.taskItems[k].task == task;
      }
  }

  lemma CreatedHasItems(s: State, captain: int, store: int, selected: seq<nat>)
    requires TasksHaveItems(s) && DoCreateTask(s, captain, store, selected) != s
    ensures TasksHaveItems(DoCreateTask(s, captain, store, selected))
  {
    var t, n := DoCreateTask(s, captain, store, selected), |s.taskItems|;
    ProductsHave(s.items, selected, 0);
    assert t.taskItems[n] == NewTaskItems(s.items, selected, |s.tasks|)[0];
    forall task | 0 <= task < |t.tasks| ensures HasItems(t, task) {
      if task < |s.tasks| {
        assert HasItems(s, task);
        var k :| 0 <= k < |s.taskItems| && s.taskItems[k].task == task;
        assert t.taskItems[k].task == task;
      } else {
        assert t.taskItems[n].task == task;
      }
    }
  }
}
