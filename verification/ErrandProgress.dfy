// What a captain can always still do: start a task, record what was bought and what it cost, hand the task on to
// distribution, and give everything unpaid back by cancelling.
module ErrandProgress {
  import opened Common
  import opened Errand
  import opened ErrandSafety
  import opened ErrandTheorems

  lemma StepReached(before: seq<Step>, step: Step)
    ensures var s := Runs(EMPTY, before);
            Runs(s, [step]) == Next(s, step) && Inv(s) && Inv(Next(s, step))
  {
    assert [step][1..] == [];
    Reachable(before);
    StepKeeps(Runs(EMPTY, before), step);
  }

  // ------------------------------------------------------------------ starting

  // The row of a selected item: nothing given, nothing billed, on the list of the product it asks for.
  ghost predicate NewRow(s: State, t: State, a: Assignment, i: nat) {
    && i in s.items && a.task == |s.tasks| && a.item == i && a.purchaser == s.items[i].requester
    && a.fee == s.items[i].fee && a.distributed == None && a.bill == None
    && |s.taskItems| <= a.taskItem < |t.taskItems| && t.taskItems[a.taskItem].task == |s.tasks|
    && t.taskItems[a.taskItem].product == s.items[i].product
  }

  // The captain's own task, being shopped for, with exactly one new row for every selected item, all of which are
  // open and from its store, and nothing recorded yet.
  ghost predicate Started(s: State, t: State, captain: int, store: int, selected: seq<nat>) {
    && t.tasks == s.tasks + [Task(captain, store, TaskShopping, 0)]
    && |t.assignments| == |s.assignments| + |selected| && t.assignments[..|s.assignments|] == s.assignments
    && (forall k :: 0 <= k < |selected| ==> NewRow(s, t, t.assignments[|s.assignments| + k], selected[k]))
    && (forall k :: 0 <= k < |selected| ==> s.items[selected[k]].store == store && s.items[selected[k]].status == Open)
    && |s.taskItems| <= |t.taskItems| && t.taskItems[..|s.taskItems|] == s.taskItems
    && (forall ti :: |s.taskItems| <= ti < |t.taskItems| ==>
          t.taskItems[ti].task == |s.tasks| && t.taskItems[ti].purchased.None? && t.taskItems[ti].price.None?)
  }

  // What an accepted selection starts.
  lemma TaskStarts(before: seq<Step>, captain: int, store: int, selected: seq<nat>)
    requires Runs(Runs(EMPTY, before), [CreateTask(captain, store, selected)]) != Runs(EMPTY, before)
    ensures var s := Runs(EMPTY, before);
            Started(s, Runs(s, [CreateTask(captain, store, selected)]), captain, store, selected)
  {
    StepReached(before, CreateTask(captain, store, selected));
    Starts(Runs(EMPTY, before), captain, store, selected);
  }

  lemma Starts(s: State, captain: int, store: int, selected: seq<nat>)
    requires var t := Next(s, CreateTask(captain, store, selected)); t != s && Inv(t)
    ensures Started(s, Next(s, CreateTask(captain, store, selected)), captain, store, selected)
  {
    StartedTask(s, captain, store, selected);
    StartedRows(s, captain, store, selected);
    StartedFrom(s, captain, store, selected);
  }

  lemma StartedFrom(s: State, captain: int, store: int, selected: seq<nat>)
    requires DoCreateTask(s, captain, store, selected) != s
    ensures forall k :: 0 <= k < |selected| ==>
              selected[k] in s.items && s.items[selected[k]].store == store && s.items[selected[k]].status == Open
  {
  }

  lemma StartedRows(s: State, captain: int, store: int, selected: seq<nat>)
    requires DoCreateTask(s, captain, store, selected) != s && Inv(DoCreateTask(s, captain, store, selected))
    ensures var t := DoCreateTask(s, captain, store, selected);
            forall k :: 0 <= k < |selected| ==>
              |s.assignments| + k < |t.assignments| && NewRow(s, t, t.assignments[|s.assignments| + k], selected[k])
  {
    forall k | 0 <= k < |selected|
      ensures var t := DoCreateTask(s, captain, store, selected);
              |s.assignments| + k < |t.assignments| && NewRow(s, t, t.assignments[|s.assignments| + k], selected[k])
    {
      StartedNewRow(s, captain, store, selected, k);
    }
  }

  lemma StartedNewRow(s: State, captain: int, store: int, selected: seq<nat>, k: nat)
    requires DoCreateTask(s, captain, store, selected) != s && k < |selected|
    requires Inv(DoCreateTask(s, captain, store, selected))
    ensures var t := DoCreateTask(s, captain, store, selected);
            |s.assignments| + k < |t.assignments| && NewRow(s, t, t.assignments[|s.assignments| + k], selected[k])
  {
    var t := DoCreateTask(s, captain, store, selected);
    StartedRow(s, captain, store, selected, k);
    assert RowOk(t, t.assignments[|s.assignments| + k]);
  }

  lemma StartedTask(s: State, captain: int, store: int, selected: seq<nat>)
    requires DoCreateTask(s, captain, store, selected) != s
    ensures var t := DoCreateTask(s, captain, store, selected);
            && t.tasks == s.tasks + [Task(captain, store, TaskShopping, 0)]
            && |t.assignments| == |s.assignments| + |selected| && t.assignments[..|s.assignments|] == s.assignments
            && |s.taskItems| <= |t.taskItems| && t.taskItems[..|s.taskItems|] == s.taskItems
            && (forall ti :: |s.taskItems| <= ti < |t.taskItems| ==>
                  t.taskItems[ti].task == |s.tasks| && t.taskItems[ti].purchased.None? && t.taskItems[ti].price.None?)
  {
  }

  lemma StartedRow(s: State, captain: int, store: int, selected: seq<nat>, k: nat)
    requires DoCreateTask(s, captain, store, selected) != s && k < |selected|
    ensures var t := DoCreateTask(s, captain, store, selected);
            && |s.assignments| + k < |t.assignments| && selected[k] in s.items
            && var a, x := t.assignments[|s.assignments| + k], s.items[selected[k]];
               && a.task == |s.tasks| && a.item == selected[k] && a.purchaser == x.requester && a.fee == x.fee
               && a.distributed == None && a.bill == None && a.taskItem >= |s.taskItems|
               && selected[k] in t.items && t.items[selected[k]].product == x.product
  {
  }

  // ------------------------------------------------------------------ shopping and pricing

  // The list below n has these purchases, and nothing else has changed.
  ghost predicate Recorded(s: State, t: State, task: nat, bought: nat -> int, n: nat) {
    && t == s.(taskItems := t.taskItems) && |t.taskItems| == |s.taskItems|
    && forall ti: nat :: ti < |s.taskItems| ==>
         t.taskItems[ti] == if ti < n && s.taskItems[ti].task == task
                            then s.taskItems[ti].(purchased := Some(bought(ti))) else s.taskItems[ti]
  }

  lemma {:induction false} RecordRun(s: State, task: nat, bought: nat -> int, n: nat) returns (trace: seq<Step>)
    requires task < |s.tasks| && s.tasks[task].status == TaskShopping && n <= |s.taskItems|
    requires forall ti: nat :: ti < |s.taskItems| && s.taskItems[ti].task == task ==>
               0 <= bought(ti) <= s.taskItems[ti].required
    ensures Recorded(s, Runs(s, trace), task, bought, n)
  {
    if n == 0 {
      trace := [];
    } else {
      trace := RecordRun(s, task, bought, n - 1);
      if s.taskItems[n - 1].task == task {
        var save := SavePurchased(s.tasks[task].captain, n - 1, bought(n - 1));
        RunsThrough(s, trace, save);
        RecordOne(s, Runs(s, trace), task, bought, n);
        trace := trace + [save];
      }
    }
  }

  lemma RecordOne(s: State, t: State, task: nat, bought: nat -> int, n: nat)
    requires task < |s.tasks| && s.tasks[task].status == TaskShopping && 0 < n <= |s.taskItems|
    requires s.taskItems[n - 1].task == task && 0 <= bought(n - 1) <= s.taskItems[n - 1].required
    requires Recorded(s, t, task, bought, n - 1)
    ensures Recorded(s, Next(t, SavePurchased(s.tasks[task].captain, n - 1, bought(n - 1))), task, bought, n)
  {
  }

  // The bought items below n have these prices, and nothing else has changed.
  ghost predicate PricedUpTo(s: State, t: State, task: nat, prices: nat -> int, n: nat) {
    && t == s.(taskItems := t.taskItems) && |t.taskItems| == |s.taskItems|
    && forall ti: nat :: ti < |s.taskItems| ==>
         t.taskItems[ti] == if ti < n && ToPrice(s.taskItems[ti], task)
                            then s.taskItems[ti].(price := Some(prices(ti))) else s.taskItems[ti]
  }

  predicate ToPrice(x: TaskItem, task: nat) {
    x.task == task && x.purchased.Some? && x.purchased.value > 0
  }

  lemma {:induction false} PriceRun(s: State, task: nat, prices: nat -> int, n: nat) returns (trace: seq<Step>)
    requires task < |s.tasks| && s.tasks[task].status == TaskPendingDistributing && n <= |s.taskItems|
    requires forall ti: nat :: ti < |s.taskItems| && s.taskItems[ti].task == task ==> prices(ti) >= 0
    ensures PricedUpTo(s, Runs(s, trace), task, prices, n)
  {
    if n == 0 {
      trace := [];
    } else {
      trace := PriceRun(s, task, prices, n - 1);
      if ToPrice(s.taskItems[n - 1], task) {
        var save := SetPrice(s.tasks[task].captain, n - 1, prices(n - 1));
        RunsThrough(s, trace, save);
        PriceOne(s, Runs(s, trace), task, prices, n);
        trace := trace + [save];
      }
    }
  }

  lemma PriceOne(s: State, t: State, task: nat, prices: nat -> int, n: nat)
    requires task < |s.tasks| && s.tasks[task].status == TaskPendingDistributing && 0 < n <= |s.taskItems|
    requires ToPrice(s.taskItems[n - 1], task) && prices(n - 1) >= 0 && PricedUpTo(s, t, task, prices, n - 1)
    ensures PricedUpTo(s, Next(t, SetPrice(s.tasks[task].captain, n - 1, prices(n - 1))), task, prices, n)
  {
  }

  // What the captain bought and paid is what the task then says, as is the packaging fee; rows and other tasks are
  // as they were.
  ghost predicate Shopped(s: State, t: State, task: nat, bought: nat -> int, prices: nat -> int, packaging: int)
    requires task < |s.tasks|
  {
    && t.tasks == s.tasks[task := s.tasks[task].(status := TaskDistributing, packaging := packaging)]
    && t.assignments == s.assignments && |t.taskItems| == |s.taskItems|
    && forall ti: nat :: ti < |s.taskItems| ==>
         if s.taskItems[ti].task != task then t.taskItems[ti] == s.taskItems[ti]
         else
           && t.taskItems[ti].product == s.taskItems[ti].product && t.taskItems[ti].required == s.taskItems[ti].required
           && t.taskItems[ti].purchased == Some(bought(ti))
           && (bought(ti) > 0 ==> t.taskItems[ti].price == Some(prices(ti)))
  }

  // From every reachable state in which a task is shopped for, whatever was bought within the totals and whatever
  // it cost, the captain can record it, each save being accepted, and take the task to distribution.
  lemma ShoppingCanFinish(before: seq<Step>, task: nat, bought: nat -> int, prices: nat -> int, packaging: int)
    returns (trace: seq<Step>)
    requires var s := Runs(EMPTY, before);
             && task < |s.tasks| && s.tasks[task].status == TaskShopping && packaging >= 0
             && forall ti: nat :: ti < |s.taskItems| && s.taskItems[ti].task == task ==>
                  0 <= bought(ti) <= s.taskItems[ti].required && prices(ti) >= 0
    ensures Shopped(Runs(EMPTY, before), Runs(Runs(EMPTY, before), trace), task, bought, prices, packaging)
  {
    var s := Runs(EMPTY, before);
    HasTaskItem(before, task);
    var captain := s.tasks[task].captain;
    var record := RecordRun(s, task, bought, |s.taskItems|);
    var u := Runs(s, record);
    RunsThrough(s, record, ToPendingDistributing(captain, task));
    HandedOn(s, u, task, bought);
    var v := Next(u, ToPendingDistributing(captain, task));
    var price := PriceRun(v, task, prices, |v.taskItems|);
    RunsConcat(s, record + [ToPendingDistributing(captain, task)], price);
    var w := Runs(v, price);
    trace := record + [ToPendingDistributing(captain, task)] + price;
    RunsThrough(s, trace, ToDistributing(captain, task, packaging));
    PricesDone(v, w, task, prices, packaging);
    trace := trace + [ToDistributing(captain, task, packaging)];
  }

  lemma HandedOn(s: State, u: State, task: nat, bought: nat -> int)
    requires task < |s.tasks| && s.tasks[task].status == TaskShopping && HasItems(s, task)
    requires Recorded(s, u, task, bought, |s.taskItems|)
    ensures var v := Next(u, ToPendingDistributing(s.tasks[task].captain, task));
            && v.tasks == s.tasks[task := s.tasks[task].(status := TaskPendingDistributing)]
            && v.taskItems == u.taskItems && v.assignments == s.assignments
  {
    var k :| 0 <= k < |s.taskItems| && s.taskItems[k].task == task;
    assert u.taskItems[k].task == task;
  }

  lemma PricesDone(v: State, w: State, task: nat, prices: nat -> int, packaging: int)
    requires task < |v.tasks| && v.tasks[task].status == TaskPendingDistributing && packaging >= 0
    requires PricedUpTo(v, w, task, prices, |v.taskItems|)
    requires forall ti: nat :: ti < |v.taskItems| && v.taskItems[ti].task == task ==> v.taskItems[ti].purchased.Some?
    ensures var t := Next(w, ToDistributing(v.tasks[task].captain, task, packaging));
            && t.tasks == v.tasks[task := v.tasks[task].(status := TaskDistributing, packaging := packaging)]
            && t.taskItems == w.taskItems && t.assignments == v.assignments
  {
  }

  // ------------------------------------------------------------------ cancelling

  // What cancelling does to the row and item of an assignment: unpaid items of the task go back to open demands
  // without a row, paid ones and other tasks' keep theirs.
  ghost predicate GivenBack(s: State, t: State, task: nat, a: Assignment)
    requires a.item in s.items
  {
    var i := a.item;
    && i in t.items
    && if a.task == task && s.items[i].status != Completed
       then
         && t.items[i] == s.items[i].(status := Open)
         && (forall l :: 0 <= l < |t.assignments| ==> t.assignments[l].item != i)
         && t.items[i].demand < |t.demands| && t.demands[t.items[i].demand].status == Open
         && t.demands[t.items[i].demand].task == None
       else t.items[i] == s.items[i] && a in t.assignments
  }

  // A captain may cancel the own task until it is completed. Cancelling ends the task, gives every unpaid item back
  // and touches no other.
  lemma CancelGivesBack(before: seq<Step>, captain: int, task: nat)
    ensures var s, t := Runs(EMPTY, before), Runs(Runs(EMPTY, before), [CancelTask(captain, task)]);
            if task >= |s.tasks| || s.tasks[task].captain != captain
               || s.tasks[task].status in {TaskCompleted, TaskCancelled}
            then t == s
            else
              && t.tasks == s.tasks[task := s.tasks[task].(status := TaskCancelled)] && t.taskItems == s.taskItems
              && forall k :: 0 <= k < |s.assignments| ==>
                   s.assignments[k].item in s.items && GivenBack(s, t, task, s.assignments[k])
  {
    var s, cancel := Runs(EMPTY, before), CancelTask(captain, task);
    StepReached(before, cancel);
    var t := Next(s, cancel);
    if t != s {
      forall k | 0 <= k < |s.assignments|
        ensures s.assignments[k].item in s.items && GivenBack(s, t, task, s.assignments[k])
      {
        RowGivenBack(s, captain, task, k);
      }
    }
  }

  lemma RowGivenBack(s: State, captain: int, task: nat, k: nat)
    requires Inv(s) && DoCancelTask(s, captain, task) != s && Inv(DoCancelTask(s, captain, task)) && k < |s.assignments|
    ensures s.assignments[k].item in s.items
    ensures GivenBack(s, DoCancelTask(s, captain, task), task, s.assignments[k])
  {
    var t, a := DoCancelTask(s, captain, task), s.assignments[k];
    assert RowOk(s, a);
    RowsApart(s, task, k);
    assert ItemOk(t, a.item) && (HasRow(t, a.item) <==> !Unassigned(t.items[a.item].status));
    if !Dropped(a, t.items, task) {
      var l := KeptGoes(s.assignments, t.items, task, k);
      assert t.assignments[l] == a;
    }
  }
}
