// The captain's requests, accepted and refused: what each of them writes, by fields, and that it writes nothing else.
module ErrandRequests {
  import opened Common
  import opened Errand
  import opened ErrandSafety
  import opened ErrandTheorems

  predicate Own(s: State, captain: int, task: nat, statuses: set<TaskStatus>) {
    task < |s.tasks| && s.tasks[task].captain == captain && s.tasks[task].status in statuses
  }

  // Of the list of one task only the entry ti has changed, and it is now x.
  ghost predicate OnlyEntry(s: State, t: State, ti: nat, x: TaskItem) {
    t == s.(taskItems := t.taskItems) && ti < |s.taskItems| && t.taskItems == s.taskItems[ti := x]
  }

  // ------------------------------------------------------------------ what was bought and what it cost

  // A purchase is recorded, or with -1 taken back, exactly by the captain of a task that is being shopped for, and
  // up to what is required.
  lemma RecordingIff(s: State, captain: int, ti: nat, quantity: int)
    ensures var t := Next(s, SavePurchased(captain, ti, quantity));
            if ti < |s.taskItems| && Own(s, captain, s.taskItems[ti].task, {TaskShopping})
               && (quantity == -1 || 0 <= quantity <= s.taskItems[ti].required)
            then OnlyEntry(s, t, ti, s.taskItems[ti].(purchased := if quantity == -1 then None else Some(quantity)))
            else t == s
  {
  }

  // A price is recorded exactly by the captain, after shopping and until the distribution is over, of something
  // handled, and none but zero of something that was not bought.
  lemma PricingIff(s: State, captain: int, ti: nat, price: int)
    ensures var t := Next(s, SetPrice(captain, ti, price));
            if ti < |s.taskItems| && Own(s, captain, s.taskItems[ti].task, {TaskPendingDistributing, TaskDistributing})
               && s.taskItems[ti].purchased.Some? && price >= 0 && (s.taskItems[ti].purchased.value == 0 ==> price == 0)
            then OnlyEntry(s, t, ti, s.taskItems[ti].(price := Some(price)))
            else t == s
  {
  }

  // ------------------------------------------------------------------ who gets what

  // A share is recorded, or with -1 taken back, exactly by the captain of a task that is being distributed, up to
  // what was asked for, and only if all shares of the product then sum to at most what was bought.
  lemma SharingIff(before: seq<Step>, captain: int, k: nat, quantity: int)
    requires k < |Runs(EMPTY, before).assignments|
    ensures var s, t := Runs(EMPTY, before), Runs(Runs(EMPTY, before), [SaveDistributed(captain, k, quantity)]);
            var a := s.assignments[k];
            var shared := s.assignments[k := a.(distributed := if quantity == -1 then None else Some(quantity))];
            && a.item in s.items && a.taskItem < |s.taskItems|
            && if Own(s, captain, a.task, {TaskDistributing})
                  && (quantity == -1 || 0 <= quantity <= s.items[a.item].quantity)
                  && s.taskItems[a.taskItem].purchased.Some?
                  && (quantity >= 0 ==> SumDistributed(shared, a.taskItem) <= s.taskItems[a.taskItem].purchased.value)
               then t == s.(assignments := shared)
               else t == s
  {
    var s := Runs(EMPTY, before);
    ReachableRow(before, k);
    assert [SaveDistributed(captain, k, quantity)][1..] == [];
    SharesOne(s, captain, k, quantity);
  }

  lemma ReachableRow(before: seq<Step>, k: nat)
    requires k < |Runs(EMPTY, before).assignments|
    ensures var s := Runs(EMPTY, before);
            var a := s.assignments[k];
            a.item in s.items && a.task < |s.tasks| && a.taskItem < |s.taskItems|
  {
    Reachable(before);
    assert RowOk(Runs(EMPTY, before), Runs(EMPTY, before).assignments[k]);
  }

  lemma SharesOne(s: State, captain: int, k: nat, quantity: int)
    requires k < |s.assignments| && s.assignments[k].item in s.items && s.assignments[k].taskItem < |s.taskItems|
    ensures var a, t := s.assignments[k], Next(s, SaveDistributed(captain, k, quantity));
            var shared := s.assignments[k := a.(distributed := if quantity == -1 then None else Some(quantity))];
            if Own(s, captain, a.task, {TaskDistributing})
               && (quantity == -1 || 0 <= quantity <= s.items[a.item].quantity)
               && s.taskItems[a.taskItem].purchased.Some?
               && (quantity >= 0 ==> SumDistributed(shared, a.taskItem) <= s.taskItems[a.taskItem].purchased.value)
            then t == s.(assignments := shared)
            else t == s
  {
    var a := s.assignments[k];
    SumReplace(s.assignments, k, a.(distributed := Some(quantity)), a.taskItem);
  }

  // ------------------------------------------------------------------ handing the task on

  // The items of the task are in a new phase, and nothing else is written to an item.
  ghost predicate ItemsMove(s: State, t: State, task: nat, to: Phase) {
    && t.items.Keys == s.items.Keys && t.nextItem == s.nextItem && t.taskItems == s.taskItems
    && (forall k :: 0 <= k < |s.assignments| && s.assignments[k].item in s.items ==>
          t.items[s.assignments[k].item] == if s.assignments[k].task == task
                                            then s.items[s.assignments[k].item].(status := to)
                                            else s.items[s.assignments[k].item])
    && (forall i :: i in s.items && (forall k :: 0 <= k < |s.assignments| ==> s.assignments[k].item != i) ==>
          t.items[i] == s.items[i])
  }

  lemma ItemsAdvance(s: State, t: State, task: nat, from: Phase, to: Phase)
    requires RowsInv(s) && task < |s.tasks| && PhasesOf(s.tasks[task].status) == {from}
    requires t.items == Moved(s, task, {from}, to).items && t.nextItem == s.nextItem && t.taskItems == s.taskItems
    ensures ItemsMove(s, t, task, to)
  {
    forall k | 0 <= k < |s.assignments| && s.assignments[k].item in s.items
      ensures t.items[s.assignments[k].item] == if s.assignments[k].task == task
                                                then s.items[s.assignments[k].item].(status := to)
                                                else s.items[s.assignments[k].item]
    {
      assert RowOk(s, s.assignments[k]);
      RowsApart(s, task, k);
    }
  }

  ghost predicate Recorded(s: State, task: nat) {
    forall ti :: 0 <= ti < |s.taskItems| && s.taskItems[ti].task == task ==> s.taskItems[ti].purchased.Some?
  }

  // What was bought has a price.
  ghost predicate Priced(s: State, task: nat) {
    forall ti :: 0 <= ti < |s.taskItems| && s.taskItems[ti].task == task ==>
      s.taskItems[ti].purchased.Some? && s.taskItems[ti].purchased.value > 0 ==> s.taskItems[ti].price.Some?
  }

  // Shopping is closed exactly by the captain, once everything on the list is recorded.
  lemma HandingOverIff(before: seq<Step>, captain: int, task: nat)
    ensures var s, t := Runs(EMPTY, before), Runs(Runs(EMPTY, before), [ToPendingDistributing(captain, task)]);
            if Own(s, captain, task, {TaskShopping}) && Recorded(s, task)
               && exists ti :: 0 <= ti < |s.taskItems| && s.taskItems[ti].task == task
            then
              && t.tasks == s.tasks[task := s.tasks[task].(status := TaskPendingDistributing)]
              && t.assignments == s.assignments && ItemsMove(s, t, task, PendingDistributing)
            else t == s
  {
    var s, step := Runs(EMPTY, before), ToPendingDistributing(captain, task);
    Reachable(before);
    assert [step][1..] == [];
    if Next(s, step) != s { ItemsAdvance(s, Next(s, step), task, Shopping, PendingDistributing); }
  }

  // Distribution is opened exactly by the captain, with a packaging fee, once everything bought has a price.
  lemma DistributingIff(before: seq<Step>, captain: int, task: nat, packaging: int)
    ensures var s, t := Runs(EMPTY, before), Runs(Runs(EMPTY, before), [ToDistributing(captain, task, packaging)]);
            if Own(s, captain, task, {TaskPendingDistributing}) && packaging >= 0
               && Recorded(s, task) && Priced(s, task)
            then
              && t.tasks == s.tasks[task := s.tasks[task].(status := TaskDistributing, packaging := packaging)]
              && t.assignments == s.assignments && ItemsMove(s, t, task, Distributing)
            else t == s
  {
    var s, step := Runs(EMPTY, before), ToDistributing(captain, task, packaging);
    Reachable(before);
    assert [step][1..] == [];
    if Next(s, step) != s { ItemsAdvance(s, Next(s, step), task, PendingDistributing, Distributing); }
  }

  // ------------------------------------------------------------------ collecting

  predicate Due(a: Assignment, task: nat, payer: int) {
    a.task == task && a.purchaser == payer && a.distributed.Some? && a.distributed.value > 0
  }

  // The last of the payer's bills, which is the only one if every payer is named once.
  predicate LastOf(bills: seq<(int, nat)>, b: nat, payer: int) {
    b < |bills| && bills[b].0 == payer && forall c :: b < c < |bills| ==> bills[c].0 != payer
  }

  // Every row its purchaser owes something for carries the purchaser's bill; no other row is written.
  ghost predicate Billed(s: State, t: State, task: nat, bills: seq<(int, nat)>) {
    && |t.assignments| == |s.assignments|
    && forall k :: 0 <= k < |s.assignments| ==> RowBilled(s.assignments[k], t.assignments[k], task, bills)
  }

  ghost predicate RowBilled(a: Assignment, after: Assignment, task: nat, bills: seq<(int, nat)>) {
    && after == a.(bill := after.bill)
    && (forall b: nat :: LastOf(bills, b, a.purchaser) && Due(a, task, a.purchaser) ==> after.bill == Some(bills[b].1))
    && (!Due(a, task, a.purchaser) ==> after.bill == a.bill)
    && ((forall b :: 0 <= b < |bills| ==> bills[b].0 != a.purchaser) ==> after.bill == a.bill)
  }

  lemma {:induction false} BindingBills(assignments: seq<Assignment>, task: nat, bills: seq<(int, nat)>, k: nat)
    requires k < |assignments|
    ensures RowBilled(assignments[k], Bound(assignments, task, bills)[k], task, bills)
  {
    if bills != [] {
      var n := |bills| - 1;
      BindingBills(assignments, task, bills[..n], k);
      var a := assignments[k];
      forall b: nat | LastOf(bills, b, a.purchaser) && b < n ensures LastOf(bills[..n], b, a.purchaser) { }
    }
  }

  // Every row of the task has its share, what was bought of each product is given out, and it has its price.
  ghost predicate SharedOut(s: State, task: nat) {
    && (forall k :: 0 <= k < |s.assignments| && s.assignments[k].task == task ==> s.assignments[k].distributed.Some?)
    && (forall ti :: 0 <= ti < |s.taskItems| && s.taskItems[ti].task == task ==>
          s.taskItems[ti].purchased == Some(SumDistributed(s.assignments, ti)))
    && Priced(s, task) && exists ti :: 0 <= ti < |s.taskItems| && s.taskItems[ti].task == task
  }

  ghost predicate Collectable(s: State, captain: int, task: nat, bills: seq<(int, nat)>) {
    && Own(s, captain, task, {TaskDistributing}) && bills != [] && SharedOut(s, task)
    && forall b :: 0 <= b < |bills| ==> Owes(s.assignments, task, bills[b].0)
  }

  ghost predicate Owes(assignments: seq<Assignment>, task: nat, payer: int) {
    exists k :: 0 <= k < |assignments| && Due(assignments[k], task, payer)
  }

  // Collecting starts exactly at the captain's request, once everything is shared out, with bills, and with none
  // for a payer who has nothing to pay for.
  lemma CollectingIff(before: seq<Step>, captain: int, task: nat, bills: seq<(int, nat)>)
    ensures var s, t := Runs(EMPTY, before), Runs(Runs(EMPTY, before), [ToCollecting(captain, task, bills)]);
            if Collectable(s, captain, task, bills)
            then
              && t.tasks == s.tasks[task := s.tasks[task].(status := CollectingPayment)]
              && Billed(s, t, task, bills) && ItemsMove(s, t, task, PendingPayment)
            else t == s
  {
    var s, step := Runs(EMPTY, before), ToCollecting(captain, task, bills);
    assert [step][1..] == [];
    CollectingAccepts(s, captain, task, bills);
    if Collectable(s, captain, task, bills) {
      Reachable(before);
      ItemsAdvance(s, DoToCollecting(s, captain, task, bills), task, Distributing, PendingPayment);
    }
  }

  lemma CollectingAccepts(s: State, captain: int, task: nat, bills: seq<(int, nat)>)
    ensures var t := DoToCollecting(s, captain, task, bills);
            if Collectable(s, captain, task, bills)
            then
              && t.tasks == s.tasks[task := s.tasks[task].(status := CollectingPayment)] && Billed(s, t, task, bills)
              && t.items == Moved(s, task, {Distributing}, PendingPayment).items
              && t.nextItem == s.nextItem && t.taskItems == s.taskItems
            else t == s
  {
    DistributedIff(s, task);
    SamePayers(s.assignments, task, bills);
    forall k | 0 <= k < |s.assignments|
      ensures RowBilled(s.assignments[k], Bound(s.assignments, task, bills)[k], task, bills)
    {
      BindingBills(s.assignments, task, bills, k);
    }
  }

  lemma DistributedIff(s: State, task: nat)
    ensures FullyDistributed(s, task) <==> SharedOut(s, task)
  {
  }

  lemma SamePayers(assignments: seq<Assignment>, task: nat, bills: seq<(int, nat)>)
    ensures EveryPayerOwes(assignments, task, bills)
       <==> forall b :: 0 <= b < |bills| ==> Owes(assignments, task, bills[b].0)
  {
    if EveryPayerOwes(assignments, task, bills) {
      forall b | 0 <= b < |bills| ensures Owes(assignments, task, bills[b].0) {
        var k :| 0 <= k < |assignments| && Billable(assignments[k], task, bills[b].0);
        assert Due(assignments[k], task, bills[b].0);
      }
    }
    if forall b :: 0 <= b < |bills| ==> Owes(assignments, task, bills[b].0) {
      forall b | 0 <= b < |bills|
        ensures exists k :: 0 <= k < |assignments| && Billable(assignments[k], task, bills[b].0)
      {
        var k :| 0 <= k < |assignments| && Due(assignments[k], task, bills[b].0);
        assert Billable(assignments[k], task, bills[b].0);
      }
    }
  }
}
