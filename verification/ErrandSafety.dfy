// What every run of the errand group buy keeps.
module ErrandSafety {
  import opened Common
  import opened Errand

  // ------------------------------------------------------------------ the invariant

  ghost predicate Unassigned(p: Phase) {
    p == Open || p == Cancelled
  }

  // An item is always in the phase of its demand.
  ghost predicate ItemOk(s: State, i: nat)
    requires i in s.items
  {
    var x := s.items[i];
    && i < s.nextItem && x.demand < |s.demands| && x.requester == s.demands[x.demand].requester
    && x.store == s.demands[x.demand].store
    && 0 < x.quantity <= INT32_MAX && x.fee >= 0 && x.price >= 0 && x.status == s.demands[x.demand].status
  }

  ghost predicate ItemsInv(s: State) {
    && (forall i :: i in s.items ==> ItemOk(s, i))
    && (forall d :: 0 <= d < |s.demands| && s.demands[d].status == Open ==> s.demands[d].task == None)
    && (forall d :: 0 <= d < |s.demands| && s.demands[d].task.Some? ==> s.demands[d].task.value < |s.tasks|)
  }

  // An assignment links an item to a task item of its product, in the task its demand names.
  ghost predicate RowOk(s: State, a: Assignment) {
    && a.item in s.items && a.task < |s.tasks| && a.taskItem < |s.taskItems| && s.taskItems[a.taskItem].task == a.task
    && s.taskItems[a.taskItem].product == s.items[a.item].product
    && a.purchaser == s.items[a.item].requester && a.fee == s.items[a.item].fee
    && s.items[a.item].demand < |s.demands| && s.demands[s.items[a.item].demand].task == Some(a.task)
    && s.items[a.item].status in PhasesOf(s.tasks[a.task].status)
  }

  // Where the items of a task in this status are.
  function PhasesOf(status: TaskStatus): set<Phase> {
    match status
    case TaskShopping => {Shopping}
    case TaskPendingDistributing => {PendingDistributing}
    case TaskDistributing => {Distributing}
    case CollectingPayment => {PendingPayment, Completed}
    case TaskCompleted => {Distributing, PendingPayment, Completed}
    case TaskCancelled => {Completed}
  }

  ghost predicate HasRow(s: State, i: nat) {
    exists k :: 0 <= k < |s.assignments| && s.assignments[k].item == i
  }

  ghost predicate RowsInv(s: State) {
    && (forall k :: 0 <= k < |s.assignments| ==> RowOk(s, s.assignments[k]))
    && (forall k, l :: 0 <= k < l < |s.assignments| ==> s.assignments[k].item != s.assignments[l].item)
    && (forall i :: i in s.items ==> (HasRow(s, i) <==> !Unassigned(s.items[i].status)))
  }

  function SumQuantity(assignments: seq<Assignment>, items: map<nat, Item>, ti: nat): int {
    if assignments == [] then 0
    else
      var last := assignments[|assignments| - 1];
      SumQuantity(assignments[..|assignments| - 1], items, ti)
      + if last.taskItem == ti && last.item in items then items[last.item].quantity else 0
  }

  ghost predicate TaskItemOk(s: State, ti: nat)
    requires ti < |s.taskItems|
  {
    var x := s.taskItems[ti];
    && x.task < |s.tasks| && x.required > 0
    && (x.purchased.Some? ==> 0 <= x.purchased.value <= x.required) && (x.price.Some? ==> x.price.value >= 0)
    && var status := s.tasks[x.task].status;
       && (status != TaskCancelled ==> x.required == Wrap32(SumQuantity(s.assignments, s.items, ti)))
       && (status !in {TaskShopping, TaskCancelled} ==> x.purchased.Some?)
       && (x.purchased.Some? ==> SumDistributed(s.assignments, ti) <= x.purchased.value)
       && (status in {CollectingPayment, TaskCompleted} ==> x.purchased == Some(SumDistributed(s.assignments, ti)))
       && (status in {TaskDistributing, CollectingPayment, TaskCompleted} && x.purchased.Some? && x.purchased.value > 0
           ==> x.price.Some?)
  }

  ghost predicate ShareOk(s: State, a: Assignment)
    requires RowOk(s, a)
  {
    && (a.distributed.Some? ==> 0 <= a.distributed.value <= s.items[a.item].quantity)
    && (s.tasks[a.task].status in {TaskShopping, TaskPendingDistributing} ==> a.distributed == None)
    && (s.tasks[a.task].status in {CollectingPayment, TaskCompleted} ==> a.distributed.Some?)
  }

  ghost predicate QuantitiesInv(s: State)
    requires RowsInv(s)
  {
    && (forall ti :: 0 <= ti < |s.taskItems| ==> TaskItemOk(s, ti))
    && (forall k :: 0 <= k < |s.assignments| ==> ShareOk(s, s.assignments[k]))
  }

  // A confirmation covers whole demands, of items that existed when it was read.
  ghost predicate ConfirmOk(s: State, c: Confirm) {
    && (forall i :: i in c.items ==> i < s.nextItem)
    && (forall i, j :: i in s.items && j in s.items && s.items[i].demand == s.items[j].demand && i in c.items ==>
          j in c.items)
  }

  ghost predicate ConfirmsInv(s: State) {
    forall c :: 0 <= c < |s.confirms| ==> ConfirmOk(s, s.confirms[c])
  }

  ghost predicate Inv(s: State) {
    ItemsInv(s) && RowsInv(s) && QuantitiesInv(s) && ConfirmsInv(s)
  }

  lemma EmptyInv()
    ensures Inv(EMPTY)
  {
  }

  // ------------------------------------------------------------------ moving a task's rows together

  // The items of a demand that is under way are all assigned to the one task it names.
  lemma LinkIff(s: State, task: nat, i: nat)
    requires ItemsInv(s) && RowsInv(s) && i in s.items && !Unassigned(s.items[i].status)
    ensures AssignedTo(s, task, i) <==> s.demands[s.items[i].demand].task == Some(task)
    ensures LinkedDemand(s, task, s.items[i].demand) <==> s.demands[s.items[i].demand].task == Some(task)
  {
  }

  // Items assigned to a task are assigned to no other.
  lemma RowsApart(s: State, task: nat, k: nat)
    requires RowsInv(s) && k < |s.assignments|
    ensures AssignedTo(s, task, s.assignments[k].item) <==> s.assignments[k].task == task
  {
  }

  ghost predicate Together(s: State, t: State) {
    && |t.demands| == |s.demands| && t.items.Keys == s.items.Keys && t.nextItem == s.nextItem
    && (forall d :: 0 <= d < |s.demands| ==> t.demands[d] == s.demands[d].(status := t.demands[d].status))
    && (forall i :: i in s.items ==> t.items[i] == s.items[i].(status := t.items[i].status))
  }

  lemma MovedTogether(s: State, task: nat, from: set<Phase>, to: Phase)
    ensures Together(s, Moved(s, task, from, to))
  {
  }

  lemma MovedItem(s: State, task: nat, from: set<Phase>, to: Phase, i: nat)
    requires ItemsInv(s) && RowsInv(s) && i in s.items && Open !in from && Cancelled !in from
    ensures ItemOk(Moved(s, task, from, to), i)
  {
    assert ItemOk(s, i);
    if s.items[i].status in from { LinkIff(s, task, i); }
  }

  // After a bulk update every item is still in its demand's phase.
  lemma MovedItems(s: State, task: nat, from: set<Phase>, to: Phase)
    requires ItemsInv(s) && RowsInv(s) && Open !in from && Cancelled !in from && !Unassigned(to)
    ensures ItemsInv(Moved(s, task, from, to))
  {
    var t := Moved(s, task, from, to);
    MovedTogether(s, task, from, to);
    forall i | i in t.items ensures ItemOk(t, i) { MovedItem(s, task, from, to, i); }
  }

  // Rows of the task follow the update; rows of other tasks do not notice it.
  lemma MovedRow(s: State, task: nat, from: set<Phase>, to: Phase, k: nat)
    requires RowsInv(s) && k < |s.assignments|
    ensures var i := s.assignments[k].item;
            Moved(s, task, from, to).items[i].status
            == if s.assignments[k].task == task && s.items[i].status in from then to else s.items[i].status
  {
  }

  // A step that moves a task's demands, items and status, and at most fills in bills.
  ghost predicate Advances(s: State, t: State, task: nat, from: set<Phase>, to: Phase) {
    && Together(s, t) && task < |s.tasks| == |t.tasks|
    && t.items == Moved(s, task, from, to).items && t.demands == Moved(s, task, from, to).demands
    && (forall k :: 0 <= k < |s.tasks| && k != task ==> t.tasks[k] == s.tasks[k])
    && t.taskItems == s.taskItems && t.confirms == s.confirms
    && |t.assignments| == |s.assignments|
    && (forall k :: 0 <= k < |s.assignments| ==> t.assignments[k] == s.assignments[k].(bill := t.assignments[k].bill))
  }

  lemma AdvancesRows(s: State, t: State, task: nat, from: set<Phase>, to: Phase)
    requires ItemsInv(s) && RowsInv(s) && Advances(s, t, task, from, to) && !Unassigned(to) && Open !in from
    requires Cancelled !in from
    requires forall p :: p in PhasesOf(s.tasks[task].status) ==>
              (if p in from then to else p) in PhasesOf(t.tasks[task].status)
    ensures RowsInv(t)
  {
    forall k | 0 <= k < |t.assignments| ensures RowOk(t, t.assignments[k]) {
      assert RowOk(s, s.assignments[k]);
      MovedRow(s, task, from, to, k);
    }
    forall i | i in t.items ensures HasRow(t, i) <==> !Unassigned(t.items[i].status) {
      assert HasRow(s, i) <==> HasRow(t, i) by { SameRows(s, t, i); }
    }
  }

  lemma SameRows(s: State, t: State, i: nat)
    requires |t.assignments| == |s.assignments|
    requires forall k :: 0 <= k < |s.assignments| ==> t.assignments[k].item == s.assignments[k].item
    ensures HasRow(s, i) <==> HasRow(t, i)
  {
  }

  lemma {:induction false} SumsIgnoreBills(a: seq<Assignment>, b: seq<Assignment>, items: map<nat, Item>,
        after: map<nat, Item>, ti: nat)
    requires |a| == |b| && forall k :: 0 <= k < |a| ==> b[k] == a[k].(bill := b[k].bill)
    requires items.Keys == after.Keys && forall i :: i in items ==> after[i].quantity == items[i].quantity
    ensures SumDistributed(a, ti) == SumDistributed(b, ti) && SumQuantity(a, items, ti) == SumQuantity(b, after, ti)
  {
    if a != [] {
      SumsIgnoreBills(a[..|a| - 1], b[..|b| - 1], items, after, ti);
    }
  }

  ghost predicate Handled(s: State, task: nat) {
    forall k :: 0 <= k < |s.taskItems| && s.taskItems[k].task == task ==> s.taskItems[k].purchased.Some?
  }

  lemma HandledByStatus(s: State, task: nat)
    requires RowsInv(s) && QuantitiesInv(s) && task < |s.tasks|
    ensures s.tasks[task].status !in {TaskShopping, TaskCancelled} ==> Handled(s, task)
  {
    forall k | 0 <= k < |s.taskItems| && s.taskItems[k].task == task ensures
      s.tasks[task].status !in {TaskShopping, TaskCancelled} ==> s.taskItems[k].purchased.Some?
    {
      assert TaskItemOk(s, k);
    }
  }

  lemma AdvancesQuantities(s: State, t: State, task: nat, from: set<Phase>, to: Phase)
    requires RowsInv(s) && QuantitiesInv(s) && RowsInv(t) && Advances(s, t, task, from, to)
    requires s.tasks[task].status !in {TaskCancelled, TaskCompleted}
    requires t.tasks[task].status !in {TaskShopping, TaskCancelled} && Handled(s, task)
    requires t.tasks[task].status == TaskPendingDistributing ==> s.tasks[task].status == TaskShopping
    requires t.tasks[task].status in {CollectingPayment, TaskCompleted} ==>
              FullyDistributed(s, task) || s.tasks[task].status == CollectingPayment
    requires t.tasks[task].status == TaskDistributing ==> AllPriced(s, task)
    ensures QuantitiesInv(t)
  {
    forall ti | 0 <= ti < |t.taskItems| ensures TaskItemOk(t, ti) {
      assert TaskItemOk(s, ti);
      SumsIgnoreBills(s.assignments, t.assignments, s.items, t.items, ti);
    }
    forall k | 0 <= k < |t.assignments| ensures ShareOk(t, t.assignments[k]) {
      assert ShareOk(s, s.assignments[k]);
    }
  }

  lemma TogetherConfirms(s: State, t: State)
    requires Together(s, t) && ConfirmsInv(s) && t.confirms == s.confirms
    ensures ConfirmsInv(t)
  {
  }

  lemma AdvanceKeeps(s: State, t: State, task: nat, from: set<Phase>, to: Phase)
    requires Inv(s) && Advances(s, t, task, from, to) && !Unassigned(to) && Open !in from && Cancelled !in from
    requires s.tasks[task].status !in {TaskCancelled, TaskCompleted}
    requires t.tasks[task].status !in {TaskShopping, TaskCancelled}
    requires forall p :: p in PhasesOf(s.tasks[task].status) ==>
              (if p in from then to else p) in PhasesOf(t.tasks[task].status)
    requires Handled(s, task)
    requires (t.tasks[task].status == TaskPendingDistributing ==> s.tasks[task].status == TaskShopping)
    requires t.tasks[task].status in {CollectingPayment, TaskCompleted} ==>
              FullyDistributed(s, task) || s.tasks[task].status == CollectingPayment
    requires t.tasks[task].status == TaskDistributing ==> AllPriced(s, task)
    ensures Inv(t)
  {
    MovedItems(s, task, from, to);
    assert ItemsInv(t) by {
      forall i | i in t.items ensures ItemOk(t, i) { assert ItemOk(Moved(s, task, from, to), i); }
    }
    AdvancesRows(s, t, task, from, to);
    AdvancesQuantities(s, t, task, from, to);
    TogetherConfirms(s, t);
  }

  lemma ToPendingDistributingKeeps(s: State, captain: int, task: nat)
    requires Inv(s)
    ensures Inv(DoToPendingDistributing(s, captain, task))
  {
    var t := DoToPendingDistributing(s, captain, task);
    if t != s {
      MovedTogether(s, task, {Shopping}, PendingDistributing);
      AdvanceKeeps(s, t, task, {Shopping}, PendingDistributing);
    }
  }

  lemma ToDistributingKeeps(s: State, captain: int, task: nat, packaging: int)
    requires Inv(s)
    ensures Inv(DoToDistributing(s, captain, task, packaging))
  {
    var t := DoToDistributing(s, captain, task, packaging);
    if t != s {
      HandledByStatus(s, task);
      MovedTogether(s, task, {PendingDistributing}, Distributing);
      AdvanceKeeps(s, t, task, {PendingDistributing}, Distributing);
    }
  }

  lemma ToCollectingKeeps(s: State, captain: int, task: nat, bills: seq<(int, nat)>)
    requires Inv(s)
    ensures Inv(DoToCollecting(s, captain, task, bills))
  {
    if Mine(s, captain, task, TaskDistributing) && FullyDistributed(s, task) {
      CollectingKeeps(s, task, bills);
    }
  }

  lemma CollectingKeeps(s: State, task: nat, bills: seq<(int, nat)>)
    requires Inv(s) && task < |s.tasks| && s.tasks[task].status == TaskDistributing && FullyDistributed(s, task)
    ensures Inv(SetStatus(Moved(s, task, {Distributing}, PendingPayment), task, CollectingPayment)
                .(assignments := Bound(s.assignments, task, bills)))
  {
    CollectingShape(s, task, bills);
    HandledByStatus(s, task);
    AdvanceKeeps(
      s,
      SetStatus(Moved(s, task, {Distributing}, PendingPayment), task, CollectingPayment)
      .(assignments := Bound(s.assignments, task, bills)),
                 task, {Distributing}, PendingPayment);
  }

  lemma CollectingShape(s: State, task: nat, bills: seq<(int, nat)>)
    requires task < |s.tasks|
    ensures var t := SetStatus(Moved(s, task, {Distributing}, PendingPayment), task, CollectingPayment)
                     .(assignments := Bound(s.assignments, task, bills));
            Advances(s, t, task, {Distributing}, PendingPayment) && t.tasks[task].status == CollectingPayment
  {
  }

  lemma CompletionKeeps(s: State, t: State, task: nat)
    requires Inv(s) && task < |s.tasks|
    requires t == SetStatus(Moved(s, task, {PendingPayment, Completed}, Completed), task, TaskCompleted)
    requires s.tasks[task].status == CollectingPayment
      || (s.tasks[task].status == TaskDistributing && FullyDistributed(s, task))
    ensures Inv(t)
  {
    HandledByStatus(s, task);
    MovedTogether(s, task, {PendingPayment, Completed}, Completed);
    AdvanceKeeps(s, t, task, {PendingPayment, Completed}, Completed);
  }

  // ------------------------------------------------------------------ demands

  // A step that changes no task, no row and no item in progress.
  ghost predicate OnlyDemands(s: State, t: State) {
    && t.tasks == s.tasks && t.taskItems == s.taskItems && t.assignments == s.assignments && t.confirms == s.confirms
    && |s.demands| <= |t.demands| && s.nextItem <= t.nextItem
    && (forall d :: 0 <= d < |s.demands| && !Unassigned(s.demands[d].status) ==> t.demands[d] == s.demands[d])
    && (forall i :: i in s.items && !Unassigned(s.items[i].status) ==> i in t.items && t.items[i] == s.items[i])
    && (forall i :: i in t.items && !Unassigned(t.items[i].status) ==> i in s.items && s.items[i] == t.items[i])
  }

  lemma OnlyDemandsRows(s: State, t: State)
    requires ItemsInv(s) && RowsInv(s) && OnlyDemands(s, t)
    ensures RowsInv(t)
  {
  }

  ghost predicate SameQuantity(items: map<nat, Item>, after: map<nat, Item>, i: nat) {
    i in items && i in after && after[i].quantity == items[i].quantity
  }

  lemma {:induction false} SumQuantityStays(assignments: seq<Assignment>, items: map<nat, Item>, after: map<nat, Item>,
        ti: nat)
    requires forall k :: 0 <= k < |assignments| ==> SameQuantity(items, after, assignments[k].item)
    ensures SumQuantity(assignments, items, ti) == SumQuantity(assignments, after, ti)
  {
    if assignments != [] {
      SumQuantityStays(assignments[..|assignments| - 1], items, after, ti);
    }
  }

  lemma OnlyDemandsQuantities(s: State, t: State)
    requires RowsInv(s) && QuantitiesInv(s) && OnlyDemands(s, t) && RowsInv(t)
    ensures QuantitiesInv(t)
  {
    forall k | 0 <= k < |s.assignments| ensures SameQuantity(s.items, t.items, s.assignments[k].item) {
      assert RowOk(s, s.assignments[k]) && HasRow(s, s.assignments[k].item);
    }
    forall ti | 0 <= ti < |t.taskItems| ensures TaskItemOk(t, ti) {
      assert TaskItemOk(s, ti);
      SumQuantityStays(s.assignments, s.items, t.items, ti);
    }
    forall k | 0 <= k < |t.assignments| ensures ShareOk(t, t.assignments[k]) { assert ShareOk(s, s.assignments[k]); }
  }

  // Item i was there before, outside the demand, or is new in it.
  ghost predicate JoinsDemand(s: State, t: State, i: nat, demand: nat)
    requires i in t.items
  {
    if i < s.nextItem then i in s.items && t.items[i] == s.items[i] && s.items[i].demand != demand
    else t.items[i].demand == demand
  }

  // Items that join a demand of their own belong to no confirmation.
  lemma DemandConfirms(s: State, t: State, demand: nat)
    requires ConfirmsInv(s) && t.confirms == s.confirms && s.nextItem <= t.nextItem
    requires forall i :: i in t.items ==> JoinsDemand(s, t, i, demand)
    ensures ConfirmsInv(t)
  {
  }

  lemma CreateDemandKeeps(s: State, requester: int, store: int, drafts: seq<Draft>)
    requires Inv(s)
    ensures Inv(DoCreateDemand(s, requester, store, drafts))
  {
    var t := DoCreateDemand(s, requester, store, drafts);
    if t != s {
      CreatedDemand(s, requester, store, drafts);
      OnlyDemandsRows(s, t);
      OnlyDemandsQuantities(s, t);
      DemandConfirms(s, t, |s.demands|);
    }
  }

  lemma CreatedDemand(s: State, requester: int, store: int, drafts: seq<Draft>)
    requires ItemsInv(s) && DraftsOk(drafts)
    ensures var t := DoCreateDemand(s, requester, store, drafts);
            && ItemsInv(t) && OnlyDemands(s, t)
            && forall i :: i in t.items ==> JoinsDemand(s, t, i, |s.demands|)
  {
    var t := DoCreateDemand(s, requester, store, drafts);
    CreatedDemandItems(s, requester, store, drafts);
    forall i | i in s.items ensures i in t.items && t.items[i] == s.items[i] { assert ItemOk(s, i); }
    forall i | i in t.items && !Unassigned(t.items[i].status) ensures i in s.items {
      assert JoinsDemand(s, t, i, |s.demands|);
    }
  }

  lemma CreatedDemandItems(s: State, requester: int, store: int, drafts: seq<Draft>)
    requires ItemsInv(s) && DraftsOk(drafts)
    ensures var t := DoCreateDemand(s, requester, store, drafts);
            forall i :: i in t.items ==>
              ItemOk(t, i) && JoinsDemand(s, t, i, |s.demands|) && (i >= s.nextItem ==> t.items[i].status == Open)
  {
  }

  // The rows of a new or replaced demand are open items of that demand.
  lemma NewDemandItems(s: State, t: State, demand: nat, requester: int, store: int, drafts: seq<Draft>)
    requires DraftsOk(drafts) && demand < |t.demands| && t.nextItem == s.nextItem + |drafts|
    requires t.demands[demand].requester == requester && t.demands[demand].store == store
    requires t.demands[demand].status == Open
    requires forall i :: s.nextItem <= i < t.nextItem ==>
              i in t.items && t.items[i] == NewItem(drafts[i - s.nextItem], demand, requester, store)
    ensures forall i :: s.nextItem <= i < t.nextItem ==> ItemOk(t, i) && t.items[i].status == Open
  {
  }

  lemma ReplaceDemandKeeps(s: State, requester: int, demand: nat, store: int, drafts: seq<Draft>)
    requires Inv(s)
    ensures Inv(DoReplaceDemand(s, requester, demand, store, drafts))
  {
    var t := DoReplaceDemand(s, requester, demand, store, drafts);
    if t != s {
      NewDemandItems(s, t, demand, requester, store, drafts);
      forall i | i in s.items ensures ItemOk(s, i) && i < s.nextItem {}
      forall i | i in t.items ensures ItemOk(t, i) {
        if i < s.nextItem { assert i in s.items && t.items[i] == s.items[i]; }
      }
      assert OnlyDemands(s, t);
      OnlyDemandsRows(s, t);
      OnlyDemandsQuantities(s, t);
      DemandConfirms(s, t, demand);
    }
  }

  lemma CancelDemandKeeps(s: State, requester: int, demand: nat)
    requires Inv(s)
    ensures Inv(DoCancelDemand(s, requester, demand))
  {
    var t := DoCancelDemand(s, requester, demand);
    if t != s {
      forall i | i in t.items ensures ItemOk(t, i) { assert ItemOk(s, i); }
      assert OnlyDemands(s, t);
      OnlyDemandsRows(s, t);
      OnlyDemandsQuantities(s, t);
      TogetherConfirms(s, t);
    }
  }

  // ------------------------------------------------------------------ purchases, prices and distribution

  // A step that rewrites one task item's purchase or price.
  ghost predicate RewritesTaskItem(s: State, t: State, ti: nat) {
    && ti < |s.taskItems| == |t.taskItems| && t == s.(taskItems := t.taskItems)
    && t.taskItems[ti] == s.taskItems[ti].(purchased := t.taskItems[ti].purchased, price := t.taskItems[ti].price)
    && forall k :: 0 <= k < |s.taskItems| && k != ti ==> t.taskItems[k] == s.taskItems[k]
  }

  lemma RewriteKeeps(s: State, t: State, ti: nat)
    requires Inv(s) && RewritesTaskItem(s, t, ti) && TaskItemOk(t, ti)
    ensures Inv(t)
  {
    forall i | i in t.items ensures ItemOk(t, i) { assert ItemOk(s, i); }
    forall k | 0 <= k < |t.assignments| ensures RowOk(t, t.assignments[k]) && ShareOk(t, t.assignments[k]) {
      assert RowOk(s, s.assignments[k]) && ShareOk(s, s.assignments[k]);
    }
    forall i | i in t.items ensures HasRow(t, i) <==> !Unassigned(t.items[i].status) {
      assert HasRow(s, i) <==> HasRow(t, i);
    }
    forall k | 0 <= k < |t.taskItems| ensures TaskItemOk(t, k) { assert TaskItemOk(s, k); }
    forall c | 0 <= c < |t.confirms| ensures ConfirmOk(t, t.confirms[c]) { assert ConfirmOk(s, s.confirms[c]); }
  }

  lemma {:induction false} SumNone(assignments: seq<Assignment>, ti: nat)
    requires forall k :: 0 <= k < |assignments| && assignments[k].taskItem == ti ==> assignments[k].distributed == None
    ensures SumDistributed(assignments, ti) == 0
  {
    if assignments != [] {
      SumNone(assignments[..|assignments| - 1], ti);
    }
  }

  lemma SavePurchasedKeeps(s: State, captain: int, ti: nat, quantity: int)
    requires Inv(s)
    ensures Inv(DoSavePurchased(s, captain, ti, quantity))
  {
    var t := DoSavePurchased(s, captain, ti, quantity);
    if t != s {
      assert TaskItemOk(s, ti);
      forall k | 0 <= k < |s.assignments| && s.assignments[k].taskItem == ti
        ensures s.assignments[k].distributed == None
      {
        assert RowOk(s, s.assignments[k]) && ShareOk(s, s.assignments[k]);
      }
      SumNone(s.assignments, ti);
      RewriteKeeps(s, t, ti);
    }
  }

  lemma SetPriceKeeps(s: State, captain: int, ti: nat, price: int)
    requires Inv(s)
    ensures Inv(DoSetPrice(s, captain, ti, price))
  {
    var t := DoSetPrice(s, captain, ti, price);
    if t != s {
      assert TaskItemOk(s, ti);
      RewriteKeeps(s, t, ti);
    }
  }

  lemma {:induction false} SumReplace(assignments: seq<Assignment>, k: nat, a: Assignment, ti: nat)
    requires k < |assignments| && a.taskItem == assignments[k].taskItem
    ensures SumDistributed(assignments[k := a], ti)
            == SumDistributed(assignments, ti) + if a.taskItem == ti then Given(a) - Given(assignments[k]) else 0
  {
    var n := |assignments| - 1;
    if k == n {
      assert assignments[k := a][..n] == assignments[..n];
    } else {
      assert assignments[k := a][..n] == assignments[..n][k := a];
      SumReplace(assignments[..n], k, a, ti);
    }
  }

  lemma {:induction false} SumQuantityReplace(assignments: seq<Assignment>, items: map<nat, Item>, k: nat,
        a: Assignment, ti: nat)
    requires k < |assignments| && a.taskItem == assignments[k].taskItem && a.item == assignments[k].item
    ensures SumQuantity(assignments[k := a], items, ti) == SumQuantity(assignments, items, ti)
  {
    var n := |assignments| - 1;
    if k == n {
      assert assignments[k := a][..n] == assignments[..n];
    } else {
      assert assignments[k := a][..n] == assignments[..n][k := a];
      SumQuantityReplace(assignments[..n], items, k, a, ti);
    }
  }

  lemma SaveDistributedKeeps(s: State, captain: int, k: nat, quantity: int)
    requires Inv(s)
    ensures Inv(DoSaveDistributed(s, captain, k, quantity))
  {
    var t := DoSaveDistributed(s, captain, k, quantity);
    if t != s {
      assert RowOk(s, s.assignments[k]) && ShareOk(s, s.assignments[k]);
      SavedRows(s, t, k);
      forall ti | 0 <= ti < |t.taskItems| ensures TaskItemOk(t, ti) {
        assert TaskItemOk(s, ti);
        SumReplace(s.assignments, k, t.assignments[k], ti);
        SumQuantityReplace(s.assignments, s.items, k, t.assignments[k], ti);
      }
      forall l | 0 <= l < |t.assignments| ensures ShareOk(t, t.assignments[l]) {
        if l != k { assert ShareOk(s, s.assignments[l]); }
      }
    }
  }

  lemma SavedRows(s: State, t: State, k: nat)
    requires ItemsInv(s) && RowsInv(s) && ConfirmsInv(s) && k < |s.assignments| && t == s.(assignments := t.assignments)
    requires |t.assignments| == |s.assignments|
    requires t.assignments == s.assignments[k := s.assignments[k].(distributed := t.assignments[k].distributed)]
    ensures ItemsInv(t) && RowsInv(t) && ConfirmsInv(t)
  {
    forall i | i in t.items ensures ItemOk(t, i) { assert ItemOk(s, i); }
    forall l | 0 <= l < |t.assignments| ensures RowOk(t, t.assignments[l]) { assert RowOk(s, s.assignments[l]); }
    forall i | i in t.items ensures HasRow(t, i) <==> !Unassigned(t.items[i].status) { SameRows(s, t, i); }
    forall c | 0 <= c < |t.confirms| ensures ConfirmOk(t, t.confirms[c]) { assert ConfirmOk(s, s.confirms[c]); }
  }

  // ------------------------------------------------------------------ payment confirmations

  lemma ReadConfirmKeeps(s: State, task: nat, payer: int)
    requires Inv(s)
    ensures Inv(DoReadConfirm(s, task, payer))
  {
    var t := DoReadConfirm(s, task, payer);
    if t != s {
      forall i | i in t.items ensures ItemOk(t, i) { assert ItemOk(s, i); }
      forall k | 0 <= k < |t.assignments| ensures RowOk(t, t.assignments[k]) && ShareOk(t, t.assignments[k]) {
        assert RowOk(s, s.assignments[k]) && ShareOk(s, s.assignments[k]);
      }
      forall i | i in t.items ensures HasRow(t, i) <==> !Unassigned(t.items[i].status) { SameRows(s, t, i); }
      forall ti | 0 <= ti < |t.taskItems| ensures TaskItemOk(t, ti) { assert TaskItemOk(s, ti); }
      PayerConfirmOk(s, task, payer);
      forall c | 0 <= c < |t.confirms| ensures ConfirmOk(t, t.confirms[c]) {
        if c < |s.confirms| { assert ConfirmOk(s, s.confirms[c]); }
      }
    }
  }

  // A payer's items in a task make up whole demands.
  lemma PayerConfirmOk(s: State, task: nat, payer: int)
    requires ItemsInv(s) && RowsInv(s)
    ensures ConfirmOk(s, Confirm(PayerItems(s.assignments, task, payer)))
  {
  }

  lemma ApplyConfirmKeeps(s: State, c: nat)
    requires Inv(s)
    ensures Inv(DoApplyConfirm(s, c))
  {
    var t := DoApplyConfirm(s, c);
    if t != s {
      AppliedItems(s, c);
      AppliedRows(s, c);
      forall ti | 0 <= ti < |t.taskItems| ensures TaskItemOk(t, ti) {
        assert TaskItemOk(s, ti);
        SumsIgnoreBills(s.assignments, t.assignments, s.items, t.items, ti);
      }
      forall k | 0 <= k < |t.assignments| ensures ShareOk(t, t.assignments[k]) { assert ShareOk(s, s.assignments[k]); }
      TogetherConfirms(s, t);
    }
  }

  lemma AppliedItems(s: State, c: nat)
    requires ItemsInv(s) && c < |s.confirms| && ConfirmOk(s, s.confirms[c])
    ensures ItemsInv(DoApplyConfirm(s, c)) && Together(s, DoApplyConfirm(s, c))
  {
    var t, ids := DoApplyConfirm(s, c), s.confirms[c].items;
    forall i | i in t.items ensures ItemOk(t, i) {
      assert ItemOk(s, i);
      var d := s.items[i].demand;
      if i in ids && s.items[i].status == PendingPayment {
        forall j | j in s.items && s.items[j].demand == d ensures t.items[j].status == Completed {
          assert ItemOk(s, j);
        }
        assert HasOne(t.items, ids, d);
      } else if i !in ids {
        forall j | j in s.items && s.items[j].demand == d ensures j !in ids {}
        assert !HasOne(t.items, ids, d);
      }
    }
  }

  lemma AppliedRows(s: State, c: nat)
    requires ItemsInv(s) && RowsInv(s) && c < |s.confirms| && Together(s, DoApplyConfirm(s, c))
    ensures RowsInv(DoApplyConfirm(s, c))
  {
    var t := DoApplyConfirm(s, c);
    forall k | 0 <= k < |t.assignments| ensures RowOk(t, t.assignments[k]) { AppliedRow(s, c, k); }
    forall i | i in t.items ensures HasRow(t, i) <==> !Unassigned(t.items[i].status) { SameRows(s, t, i); }
  }

  lemma AppliedRow(s: State, c: nat, k: nat)
    requires k < |s.assignments| && RowOk(s, s.assignments[k]) && c < |s.confirms| && Together(s, DoApplyConfirm(s, c))
    ensures RowOk(DoApplyConfirm(s, c), s.assignments[k])
  {
  }

  lemma AllPaymentsKeeps(s: State, task: nat)
    requires Inv(s)
    ensures Inv(DoAllPaymentsConfirmed(s, task))
  {
    var t := DoAllPaymentsConfirmed(s, task);
    if t != s {
      forall i | i in t.items ensures ItemOk(t, i) { assert ItemOk(s, i); }
      forall k | 0 <= k < |t.assignments| ensures RowOk(t, t.assignments[k]) && ShareOk(t, t.assignments[k]) {
        assert RowOk(s, s.assignments[k]) && ShareOk(s, s.assignments[k]);
      }
      forall i | i in t.items ensures HasRow(t, i) <==> !Unassigned(t.items[i].status) { SameRows(s, t, i); }
      forall ti | 0 <= ti < |t.taskItems| ensures TaskItemOk(t, ti) { assert TaskItemOk(s, ti); }
      TogetherConfirms(s, t);
    }
  }

  // ------------------------------------------------------------------ cancelling a task

  // Reopened items and demands are open again; what was completed stays.
  lemma ReopenedItems(s: State, task: nat)
    requires ItemsInv(s) && RowsInv(s)
    ensures ItemsInv(Reopened(s, task))
  {
    var t := Reopened(s, task);
    forall i | i in t.items ensures ItemOk(t, i) {
      assert ItemOk(s, i);
      if !Unassigned(s.items[i].status) {
        LinkIff(s, task, i);
      } else {
        NotLinked(s, task, i);
      }
    }
  }

  // Nobody works on an open or cancelled demand.
  lemma NotLinked(s: State, task: nat, i: nat)
    requires ItemsInv(s) && RowsInv(s) && i in s.items && Unassigned(s.items[i].status)
    ensures !AssignedTo(s, task, i) && !LinkedDemand(s, task, s.items[i].demand)
  {
  }

  lemma ReopenedItem(s: State, task: nat, k: nat)
    requires RowsInv(s) && k < |s.assignments|
    ensures var a := s.assignments[k];
            Reopened(s, task).items[a.item] == if a.task == task && !Settled(s.items[a.item].status)
            then s.items[a.item].(status := Open) else s.items[a.item]
  {
  }

  // What is kept comes from the table and is not dropped, and the other way round.
  lemma {:induction false} KeptComes(assignments: seq<Assignment>, items: map<nat, Item>, task: nat, k: nat)
    returns (l: nat)
    requires k < |WithoutReopened(assignments, items, task)|
    ensures l < |assignments| && assignments[l] == WithoutReopened(assignments, items, task)[k]
    ensures !Dropped(assignments[l], items, task)
  {
    var n := |assignments| - 1;
    var r := WithoutReopened(assignments[..n], items, task);
    if k < |r| {
      l := KeptComes(assignments[..n], items, task, k);
    } else {
      l := n;
    }
  }

  lemma {:induction false} KeptGoes(assignments: seq<Assignment>, items: map<nat, Item>, task: nat, l: nat)
    returns (k: nat)
    requires l < |assignments| && !Dropped(assignments[l], items, task)
    ensures k < |WithoutReopened(assignments, items, task)|
    ensures WithoutReopened(assignments, items, task)[k] == assignments[l]
  {
    var n := |assignments| - 1;
    if l == n {
      k := |WithoutReopened(assignments[..n], items, task)|;
    } else {
      k := KeptGoes(assignments[..n], items, task, l);
    }
  }

  ghost predicate OneRowEach(assignments: seq<Assignment>) {
    forall k, l :: 0 <= k < l < |assignments| ==> assignments[k].item != assignments[l].item
  }

  lemma {:induction false} FilterDistinct(assignments: seq<Assignment>, items: map<nat, Item>, task: nat)
    requires OneRowEach(assignments)
    ensures OneRowEach(WithoutReopened(assignments, items, task))
  {
    if assignments != [] {
      var n := |assignments| - 1;
      var r := WithoutReopened(assignments[..n], items, task);
      assert OneRowEach(assignments[..n]);
      FilterDistinct(assignments[..n], items, task);
      forall k | 0 <= k < |r| ensures r[k].item != assignments[n].item {
        var l := KeptComes(assignments[..n], items, task, k);
        assert assignments[l] == r[k];
      }
      assert OneRowEach(r + [assignments[n]]);
    }
  }

  lemma {:induction false} FilterSums(assignments: seq<Assignment>, items: map<nat, Item>, task: nat,
        before: map<nat, Item>, ti: nat)
    requires forall k :: 0 <= k < |assignments| && assignments[k].task == task ==> assignments[k].taskItem != ti
    requires forall k :: 0 <= k < |assignments| ==> SameQuantity(before, items, assignments[k].item)
    ensures SumDistributed(WithoutReopened(assignments, items, task), ti) == SumDistributed(assignments, ti)
    ensures SumQuantity(WithoutReopened(assignments, items, task), items, ti) == SumQuantity(assignments, before, ti)
  {
    if assignments != [] {
      var front, last := assignments[..|assignments| - 1], assignments[|assignments| - 1];
      FilterSums(front, items, task, before, ti);
      assert SameQuantity(before, items, last.item);
      var r := WithoutReopened(front, items, task);
      if !Dropped(last, items, task) { assert (r + [last])[..|r|] == r; }
    }
  }

  // The state a cancelled task leaves.
  ghost predicate Cancels(s: State, t: State, task: nat) {
    && task < |s.tasks| && s.tasks[task].status != TaskCompleted
    && t.tasks == s.tasks[task := s.tasks[task].(status := TaskCancelled)] && t.taskItems == s.taskItems
    && t.demands == Reopened(s, task).demands && t.items == Reopened(s, task).items && t.nextItem == s.nextItem
    && t.assignments == WithoutReopened(s.assignments, t.items, task) && t.confirms == s.confirms
  }

  // A row of the task that is kept belongs to a completed item.
  lemma KeptRow(s: State, t: State, task: nat, l: nat)
    requires ItemsInv(s) && RowsInv(s) && Cancels(s, t, task) && l < |s.assignments|
    requires !Dropped(s.assignments[l], t.items, task)
    ensures RowOk(t, s.assignments[l])
  {
    var a := s.assignments[l];
    assert RowOk(s, a) && ItemOk(s, a.item) && HasRow(s, a.item);
    ReopenedItem(s, task, l);
    LinkIff(s, task, a.item);
  }

  lemma KeptHasRow(s: State, t: State, task: nat, i: nat)
    requires ItemsInv(s) && RowsInv(s) && Cancels(s, t, task) && i in s.items
    ensures HasRow(t, i) <==> !Unassigned(t.items[i].status)
  {
    assert ItemOk(s, i);
    if HasRow(s, i) {
      var k :| 0 <= k < |s.assignments| && s.assignments[k].item == i;
      assert RowOk(s, s.assignments[k]);
      ReopenedItem(s, task, k);
      if !Unassigned(t.items[i].status) {
        var j := KeptGoes(s.assignments, t.items, task, k);
        assert t.assignments[j].item == i;
      }
    }
    if HasRow(t, i) {
      var k :| 0 <= k < |t.assignments| && t.assignments[k].item == i;
      var l := KeptComes(s.assignments, t.items, task, k);
      assert RowOk(s, s.assignments[l]) && HasRow(s, i);
      ReopenedItem(s, task, l);
    }
  }

  lemma CancelledRows(s: State, t: State, task: nat)
    requires ItemsInv(s) && RowsInv(s) && Cancels(s, t, task)
    ensures RowsInv(t)
  {
    FilterDistinct(s.assignments, t.items, task);
    assert OneRowEach(t.assignments);
    forall k | 0 <= k < |t.assignments| ensures RowOk(t, t.assignments[k]) { CancelledRow(s, t, task, k); }
    forall i | i in t.items ensures HasRow(t, i) <==> !Unassigned(t.items[i].status) { KeptHasRow(s, t, task, i); }
  }

  lemma CancelledRow(s: State, t: State, task: nat, k: nat)
    requires ItemsInv(s) && RowsInv(s) && Cancels(s, t, task) && k < |t.assignments|
    ensures RowOk(t, t.assignments[k])
  {
    var l := KeptComes(s.assignments, t.items, task, k);
    KeptRow(s, t, task, l);
  }

  lemma CancelledQuantities(s: State, t: State, task: nat)
    requires RowsInv(s) && QuantitiesInv(s) && Cancels(s, t, task) && RowsInv(t)
    ensures QuantitiesInv(t)
  {
    forall k | 0 <= k < |s.assignments| ensures SameQuantity(s.items, t.items, s.assignments[k].item) {
      assert RowOk(s, s.assignments[k]);
    }
    forall ti | 0 <= ti < |t.taskItems| ensures TaskItemOk(t, ti) { CancelledTaskItem(s, t, task, ti); }
    forall k | 0 <= k < |t.assignments| ensures ShareOk(t, t.assignments[k]) {
      var l := KeptComes(s.assignments, t.items, task, k);
      assert ShareOk(s, s.assignments[l]) && RowOk(t, t.assignments[k]) && RowOk(s, s.assignments[l]);
    }
  }

  lemma CancelledTaskItem(s: State, t: State, task: nat, ti: nat)
    requires RowsInv(s) && QuantitiesInv(s) && Cancels(s, t, task) && RowsInv(t) && ti < |t.taskItems|
    requires forall k :: 0 <= k < |s.assignments| ==> SameQuantity(s.items, t.items, s.assignments[k].item)
    ensures TaskItemOk(t, ti)
  {
    assert TaskItemOk(s, ti);
    if s.taskItems[ti].task != task {
      forall k | 0 <= k < |s.assignments| && s.assignments[k].task == task ensures s.assignments[k].taskItem != ti {
        assert RowOk(s, s.assignments[k]);
      }
      FilterSums(s.assignments, t.items, task, s.items, ti);
    } else {
      forall k | 0 <= k < |s.assignments| ensures Given(s.assignments[k]) >= 0 { assert ShareOk(s, s.assignments[k]); }
      FilterSumsNoMore(s.assignments, t.items, task, ti);
    }
  }

  lemma {:induction false} FilterSumsNoMore(assignments: seq<Assignment>, items: map<nat, Item>, task: nat, ti: nat)
    requires forall k :: 0 <= k < |assignments| ==> Given(assignments[k]) >= 0
    ensures SumDistributed(WithoutReopened(assignments, items, task), ti) <= SumDistributed(assignments, ti)
  {
    if assignments != [] {
      var front, last := assignments[..|assignments| - 1], assignments[|assignments| - 1];
      FilterSumsNoMore(front, items, task, ti);
      var r := WithoutReopened(front, items, task);
      if !Dropped(last, items, task) { assert (r + [last])[..|r|] == r; }
    }
  }

  lemma CancelTaskKeeps(s: State, captain: int, task: nat)
    requires Inv(s)
    ensures Inv(DoCancelTask(s, captain, task))
  {
    var t := DoCancelTask(s, captain, task);
    if t != s {
      assert Cancels(s, t, task);
      CancelledItems(s, t, task);
      CancelledRows(s, t, task);
      CancelledQuantities(s, t, task);
    }
  }

  lemma CancelledItems(s: State, t: State, task: nat)
    requires ItemsInv(s) && RowsInv(s) && ConfirmsInv(s) && Cancels(s, t, task)
    ensures ItemsInv(t) && ConfirmsInv(t)
  {
    ReopenedItems(s, task);
    forall i | i in t.items ensures ItemOk(t, i) { assert ItemOk(Reopened(s, task), i); }
    forall c | 0 <= c < |t.confirms| ensures ConfirmOk(t, t.confirms[c]) { assert ConfirmOk(s, s.confirms[c]); }
  }

  // ------------------------------------------------------------------ creating a task

  // A selection the table accepts.
  ghost predicate Picks(s: State, store: int, selected: seq<nat>) {
    && Selectable(s, store, selected)
    && (forall k, l :: 0 <= k < |selected| && 0 <= l < |s.assignments| ==> s.assignments[l].item != selected[k])
    && (forall k :: 0 <= k < |NewTaskItems(s.items, selected, |s.tasks|)| ==>
          NewTaskItems(s.items, selected, |s.tasks|)[k].required > 0)
  }

  lemma {:induction false} PartialsAre(items: map<nat, Item>, selected: seq<nat>, n: nat, d: nat)
    requires d < n
    ensures d in Partials(items, selected, n) <==> Partial(items, selected, d)
  {
    if d < n - 1 { PartialsAre(items, selected, n - 1, d); }
  }

  // What becomes of item i and its demand: a selected item is in a demand of the new task, and
  // the demand of any other item is left alone.
  ghost predicate Follows(s: State, t: State, selected: seq<nat>, i: nat)
    requires i in s.items && i in t.items
  {
    var x, d := t.items[i], s.items[i].demand;
    && d < |s.demands| && x.demand < |t.demands|
    && if i in selected
       then && x == s.items[i].(status := Shopping, demand := x.demand)
            && t.demands[x.demand].status == Shopping && t.demands[x.demand].task == Some(|s.tasks|)
            && t.demands[x.demand].requester == s.demands[d].requester
            && t.demands[x.demand].store == s.demands[d].store
       else x == s.items[i] && t.demands[d] == s.demands[d]
  }

  // Where the items of a demand went: they stay, or they move to the demand split from it.
  ghost predicate ComesFrom(s: State, t: State, i: nat)
    requires i in s.items && i in t.items
  {
    var x, d := t.items[i].demand, s.items[i].demand;
    x == d || (x >= |s.demands| && x < |t.demands| && t.demands[x].splitFrom == Some(d))
  }

  // The tables a new task adds to, and those it leaves alone.
  ghost predicate BuildsTables(s: State, t: State, selected: seq<nat>)
    requires forall k :: 0 <= k < |selected| ==> selected[k] in s.items
  {
    && |t.tasks| == |s.tasks| + 1 && t.tasks[..|s.tasks|] == s.tasks && t.tasks[|s.tasks|].status == TaskShopping
    && t.taskItems == s.taskItems + NewTaskItems(s.items, selected, |s.tasks|)
    && t.assignments == s.assignments + NewAssignments(s.items, selected, |s.tasks|, |s.taskItems|)
    && t.items.Keys == s.items.Keys && t.nextItem == s.nextItem && t.confirms == s.confirms
  }

  ghost predicate Builds(s: State, t: State, selected: seq<nat>)
    requires forall k :: 0 <= k < |selected| ==> selected[k] in s.items
  {
    && BuildsTables(s, t, selected)
    && (forall i :: i in s.items ==> Follows(s, t, selected, i) && ComesFrom(s, t, i))
    && (forall d :: 0 <= d < |t.demands| && t.demands[d].status == Open ==> t.demands[d].task == None)
    && (forall d :: 0 <= d < |t.demands| && t.demands[d].task.Some? ==> t.demands[d].task.value <= |s.tasks|)
  }

  lemma SyncedSelected(s: State, selected: seq<nat>, i: nat)
    requires i in s.items && ItemOk(s, i) && i in selected
    ensures var r, x, d := SyncedDemands(s, selected, |s.tasks|), SyncedItem(s, selected, i), s.items[i].demand;
            && x == s.items[i].(status := Shopping, demand := x.demand) && x.demand < |r|
            && r[x.demand].status == Shopping && r[x.demand].task == Some(|s.tasks|)
            && r[x.demand].requester == s.demands[d].requester && r[x.demand].store == s.demands[d].store
            && (x.demand == d || (x.demand >= |s.demands| && r[x.demand].splitFrom == Some(d)))
  {
    var d := s.items[i].demand;
    PartialsAre(s.items, selected, |s.demands|, d);
    var k :| 0 <= k < |selected| && selected[k] == i;
    assert Touched(s.items, selected, d);
  }

  lemma SyncedOther(s: State, selected: seq<nat>, i: nat)
    requires i in s.items && ItemOk(s, i) && i !in selected
    ensures SyncedItem(s, selected, i) == s.items[i]
    ensures SyncedDemands(s, selected, |s.tasks|)[s.items[i].demand] == s.demands[s.items[i].demand]
  {
  }

  lemma SyncedFollows(s: State, t: State, selected: seq<nat>, i: nat)
    requires i in s.items && ItemOk(s, i)
    requires t.demands == SyncedDemands(s, selected, |s.tasks|) && i in t.items
    requires t.items[i] == SyncedItem(s, selected, i)
    ensures Follows(s, t, selected, i) && ComesFrom(s, t, i)
  {
    if i in selected { SyncedSelected(s, selected, i); } else { SyncedOther(s, selected, i); }
  }

  lemma BuiltItem(s: State, captain: int, store: int, selected: seq<nat>, i: nat)
    requires ItemsInv(s) && Picks(s, store, selected) && i in s.items
    ensures Follows(s, DoCreateTask(s, captain, store, selected), selected, i)
    ensures ComesFrom(s, DoCreateTask(s, captain, store, selected), i)
  {
    assert ItemOk(s, i);
    SyncedFollows(s, DoCreateTask(s, captain, store, selected), selected, i);
  }

  lemma BuiltDemands(s: State, captain: int, store: int, selected: seq<nat>)
    requires ItemsInv(s) && Picks(s, store, selected)
    ensures var t := DoCreateTask(s, captain, store, selected);
            && (forall d :: 0 <= d < |t.demands| && t.demands[d].status == Open ==> t.demands[d].task == None)
            && (forall d :: 0 <= d < |t.demands| && t.demands[d].task.Some? ==> t.demands[d].task.value <= |s.tasks|)
  {
    var t := SyncedDemands(s, selected, |s.tasks|);
    forall d | 0 <= d < |t|
      ensures (t[d].status == Open ==> t[d].task == None) && (t[d].task.Some? ==> t[d].task.value <= |s.tasks|)
    {
      if d >= |s.demands| { assert t[d] == t[|s.demands| + (d - |s.demands|)]; }
    }
  }

  lemma CreateTaskTables(s: State, captain: int, store: int, selected: seq<nat>)
    requires Picks(s, store, selected)
    ensures BuildsTables(s, DoCreateTask(s, captain, store, selected), selected)
  {
  }

  lemma BuildsFrom(s: State, t: State, selected: seq<nat>)
    requires forall k :: 0 <= k < |selected| ==> selected[k] in s.items
    requires BuildsTables(s, t, selected)
    requires forall i :: i in s.items ==> Follows(s, t, selected, i) && ComesFrom(s, t, i)
    requires forall d :: 0 <= d < |t.demands| && t.demands[d].status == Open ==> t.demands[d].task == None
    requires forall d :: 0 <= d < |t.demands| && t.demands[d].task.Some? ==> t.demands[d].task.value <= |s.tasks|
    ensures Builds(s, t, selected)
  {
  }

  lemma CreateTaskBuilds(s: State, captain: int, store: int, selected: seq<nat>)
    requires ItemsInv(s) && Picks(s, store, selected)
    ensures Builds(s, DoCreateTask(s, captain, store, selected), selected)
  {
    CreateTaskTables(s, captain, store, selected);
    forall i | i in s.items
      ensures Follows(s, DoCreateTask(s, captain, store, selected), selected, i)
      ensures ComesFrom(s, DoCreateTask(s, captain, store, selected), i)
    {
      BuiltItem(s, captain, store, selected, i);
    }
    BuiltDemands(s, captain, store, selected);
    BuildsFrom(s, DoCreateTask(s, captain, store, selected), selected);
  }

  lemma BuiltItems(s: State, t: State, store: int, selected: seq<nat>)
    requires ItemsInv(s) && Picks(s, store, selected) && Builds(s, t, selected)
    ensures ItemsInv(t)
  {
  }

  lemma BuiltOldRow(s: State, t: State, store: int, selected: seq<nat>, k: nat)
    requires RowsInv(s) && Picks(s, store, selected) && Builds(s, t, selected) && k < |s.assignments|
    ensures t.assignments[k] == s.assignments[k] && RowOk(t, t.assignments[k])
  {
  }

  lemma BuiltNewRow(s: State, t: State, store: int, selected: seq<nat>, k: nat)
    requires Picks(s, store, selected) && Builds(s, t, selected) && k < |selected|
    ensures t.assignments[|s.assignments| + k].item == selected[k] && RowOk(t, t.assignments[|s.assignments| + k])
    ensures t.assignments[|s.assignments| + k].distributed == None
  {
    var i := selected[k];
    assert Follows(s, t, selected, i) && i in selected;
    var products := Products(s.items, selected);
    var p := IndexOf(products, s.items[i].product);
    ProductsHave(s.items, selected, k);
    IndexFinds(products, s.items[i].product);
    assert t.taskItems[|s.taskItems| + p] == NewTaskItems(s.items, selected, |s.tasks|)[p];
  }

  ghost predicate RowIn(rows: seq<Assignment>, i: nat) {
    exists k :: 0 <= k < |rows| && rows[k].item == i
  }

  lemma AppendedRowIn(rows: seq<Assignment>, added: seq<Assignment>, i: nat)
    ensures RowIn(rows + added, i) <==> RowIn(rows, i) || RowIn(added, i)
  {
    forall k | 0 <= k < |rows| && rows[k].item == i ensures RowIn(rows + added, i) {
      assert (rows + added)[k].item == i;
    }
    forall k | 0 <= k < |added| && added[k].item == i ensures RowIn(rows + added, i) {
      assert (rows + added)[|rows| + k].item == i;
    }
  }

  // The new rows are those of the selected items.
  lemma SelectedRowIn(items: map<nat, Item>, selected: seq<nat>, task: nat, first: nat, i: nat)
    requires forall k :: 0 <= k < |selected| ==> selected[k] in items
    ensures RowIn(NewAssignments(items, selected, task, first), i) <==> i in selected
  {
    var added := NewAssignments(items, selected, task, first);
    forall k | 0 <= k < |selected| && selected[k] == i ensures RowIn(added, i) { assert added[k].item == i; }
  }

  lemma BuiltHasRow(s: State, t: State, store: int, selected: seq<nat>, i: nat)
    requires RowsInv(s) && Picks(s, store, selected) && Builds(s, t, selected) && i in s.items
    ensures HasRow(t, i) <==> !Unassigned(t.items[i].status)
  {
    assert Follows(s, t, selected, i);
    AppendedRowIn(s.assignments, NewAssignments(s.items, selected, |s.tasks|, |s.taskItems|), i);
    SelectedRowIn(s.items, selected, |s.tasks|, |s.taskItems|, i);
    assert HasRow(t, i) <==> RowIn(t.assignments, i);
    assert HasRow(s, i) <==> RowIn(s.assignments, i);
  }

  ghost predicate RowsOk(s: State, rows: seq<Assignment>) {
    forall k :: 0 <= k < |rows| ==> RowOk(s, rows[k])
  }

  lemma BuiltOldRows(s: State, t: State, store: int, selected: seq<nat>)
    requires RowsInv(s) && Picks(s, store, selected) && Builds(s, t, selected)
    ensures RowsOk(t, s.assignments)
  {
    forall k | 0 <= k < |s.assignments| ensures RowOk(t, s.assignments[k]) { BuiltOldRow(s, t, store, selected, k); }
  }

  lemma BuiltNewRows(s: State, t: State, store: int, selected: seq<nat>)
    requires Picks(s, store, selected) && Builds(s, t, selected)
    ensures RowsOk(t, NewAssignments(s.items, selected, |s.tasks|, |s.taskItems|))
  {
    var added := NewAssignments(s.items, selected, |s.tasks|, |s.taskItems|);
    forall k | 0 <= k < |added| ensures RowOk(t, added[k]) {
      BuiltNewRow(s, t, store, selected, k);
      assert t.assignments[|s.assignments| + k] == added[k];
    }
  }

  lemma AppendedRowsOk(s: State, rows: seq<Assignment>, added: seq<Assignment>)
    requires RowsOk(s, rows) && RowsOk(s, added)
    ensures RowsOk(s, rows + added)
  {
  }

  // Rows put behind others for items which have none.
  lemma AppendedOneRowEach(rows: seq<Assignment>, added: seq<Assignment>)
    requires OneRowEach(rows) && OneRowEach(added)
    requires forall k, l :: 0 <= k < |added| && 0 <= l < |rows| ==> rows[l].item != added[k].item
    ensures OneRowEach(rows + added)
  {
  }

  lemma BuiltOneRowEach(s: State, store: int, selected: seq<nat>, task: nat, first: nat)
    requires OneRowEach(s.assignments) && Picks(s, store, selected)
    ensures OneRowEach(s.assignments + NewAssignments(s.items, selected, task, first))
  {
    AppendedOneRowEach(s.assignments, NewAssignments(s.items, selected, task, first));
  }

  lemma BuiltRows(s: State, t: State, store: int, selected: seq<nat>)
    requires RowsInv(s) && Picks(s, store, selected) && Builds(s, t, selected)
    ensures RowsInv(t)
  {
    assert OneRowEach(t.assignments) by { BuiltOneRowEach(s, store, selected, |s.tasks|, |s.taskItems|); }
    assert RowsOk(t, t.assignments) by {
      BuiltOldRows(s, t, store, selected);
      BuiltNewRows(s, t, store, selected);
      AppendedRowsOk(t, s.assignments, NewAssignments(s.items, selected, |s.tasks|, |s.taskItems|));
    }
    forall i | i in t.items ensures HasRow(t, i) <==> !Unassigned(t.items[i].status) {
      BuiltHasRow(s, t, store, selected, i);
    }
  }

  // ------------------------------------------------------------------ required quantities

  // The plain sum of what was selected of one product.
  function PlainQuantity(items: map<nat, Item>, selected: seq<nat>, product: int): int
    requires forall k :: 0 <= k < |selected| ==> selected[k] in items
  {
    if selected == [] then 0
    else
      var last := items[selected[|selected| - 1]];
      PlainQuantity(items, selected[..|selected| - 1], product) + if last.product == product then last.quantity else 0
  }

  lemma WrapAdds(a: int, b: int)
    ensures Wrap32(Wrap32(a) + b) == Wrap32(a + b)
  {
  }

  // The group's int32 accumulator is the wrapped sum.
  lemma {:induction false} GroupWraps(items: map<nat, Item>, selected: seq<nat>, product: int)
    requires forall k :: 0 <= k < |selected| ==> selected[k] in items
    ensures GroupQuantity(items, selected, product) == Wrap32(PlainQuantity(items, selected, product))
  {
    if selected != [] {
      var n := |selected| - 1;
      GroupWraps(items, selected[..n], product);
      WrapAdds(PlainQuantity(items, selected[..n], product), items[selected[n]].quantity);
    }
  }

  ghost predicate NoRepeats(products: seq<int>) {
    forall k, l :: 0 <= k < l < |products| ==> products[k] != products[l]
  }

  lemma {:induction false} ProductsOnce(items: map<nat, Item>, selected: seq<nat>)
    requires forall k :: 0 <= k < |selected| ==> selected[k] in items
    ensures NoRepeats(Products(items, selected))
  {
    if selected != [] { ProductsOnce(items, selected[..|selected| - 1]); }
  }

  lemma {:induction false} ProductsHave(items: map<nat, Item>, selected: seq<nat>, k: nat)
    requires (forall j :: 0 <= j < |selected| ==> selected[j] in items) && k < |selected|
    ensures items[selected[k]].product in Products(items, selected)
  {
    if k < |selected| - 1 { ProductsHave(items, selected[..|selected| - 1], k); }
  }

  lemma {:induction false} IndexFinds(products: seq<int>, product: int)
    requires product in products
    ensures IndexOf(products, product) < |products| && products[IndexOf(products, product)] == product
  {
    if products[|products| - 1] != product { IndexFinds(products[..|products| - 1], product); }
  }

  // The rows written for the selection, summed by task item, are the selection summed by product.
  lemma {:induction false} NewRowsSum(items: map<nat, Item>, after: map<nat, Item>, selected: seq<nat>,
        rows: seq<Assignment>, products: seq<int>, first: nat, ti: nat)
    requires forall j :: 0 <= j < |selected| ==> selected[j] in items && SameQuantity(items, after, selected[j])
    requires forall j :: 0 <= j < |selected| ==> items[selected[j]].product in products
    requires |rows| == |selected| && first <= ti < first + |products|
    requires forall j :: 0 <= j < |rows| ==>
              rows[j].item == selected[j] && rows[j].taskItem == first + IndexOf(products, items[selected[j]].product)
    requires NoRepeats(products)
    ensures SumQuantity(rows, after, ti) == PlainQuantity(items, selected, products[ti - first])
  {
    if rows != [] {
      var n := |rows| - 1;
      IndexFinds(products, items[selected[n]].product);
      NewRowsSum(items, after, selected[..n], rows[..n], products, first, ti);
      assert SameQuantity(items, after, selected[n]);
    }
  }

  lemma {:induction false} SumsAppend(a: seq<Assignment>, b: seq<Assignment>, items: map<nat, Item>, ti: nat)
    ensures SumQuantity(a + b, items, ti) == SumQuantity(a, items, ti) + SumQuantity(b, items, ti)
    ensures SumDistributed(a + b, ti) == SumDistributed(a, ti) + SumDistributed(b, ti)
  {
    if b == [] {
      assert a + b == a;
    } else {
      assert (a + b)[..|a + b| - 1] == a + b[..|b| - 1];
      SumsAppend(a, b[..|b| - 1], items, ti);
    }
  }

  lemma {:induction false} SumElsewhere(assignments: seq<Assignment>, items: map<nat, Item>, ti: nat)
    requires forall k :: 0 <= k < |assignments| ==> assignments[k].taskItem != ti
    ensures SumQuantity(assignments, items, ti) == 0 && SumDistributed(assignments, ti) == 0
  {
    if assignments != [] {
      SumElsewhere(assignments[..|assignments| - 1], items, ti);
    }
  }

  lemma BuiltOldTaskItem(s: State, t: State, store: int, selected: seq<nat>, ti: nat)
    requires RowsInv(s) && QuantitiesInv(s) && Picks(s, store, selected) && Builds(s, t, selected) && ti < |s.taskItems|
    ensures TaskItemOk(t, ti)
  {
    assert TaskItemOk(s, ti);
    BuiltOldSums(s, t, selected, ti);
    assert t.taskItems[ti] == s.taskItems[ti]
      && t.tasks[..|s.tasks|][s.taskItems[ti].task] == s.tasks[s.taskItems[ti].task];
  }

  lemma BuiltOldSums(s: State, t: State, selected: seq<nat>, ti: nat)
    requires RowsInv(s) && (forall k :: 0 <= k < |selected| ==> selected[k] in s.items) && Builds(s, t, selected)
    requires ti < |s.taskItems|
    ensures SumQuantity(t.assignments, t.items, ti) == SumQuantity(s.assignments, s.items, ti)
    ensures SumDistributed(t.assignments, ti) == SumDistributed(s.assignments, ti)
  {
    var rows := NewAssignments(s.items, selected, |s.tasks|, |s.taskItems|);
    SumsAppend(s.assignments, rows, t.items, ti);
    SumElsewhere(rows, t.items, ti);
    forall k | 0 <= k < |s.assignments| ensures SameQuantity(s.items, t.items, s.assignments[k].item) {
      assert RowOk(s, s.assignments[k]) && Follows(s, t, selected, s.assignments[k].item);
    }
    SumQuantityStays(s.assignments, s.items, t.items, ti);
  }

  lemma NewRowsSums(items: map<nat, Item>, after: map<nat, Item>, selected: seq<nat>, task: nat, first: nat, ti: nat)
    requires (forall j :: 0 <= j < |selected| ==> selected[j] in items && SameQuantity(items, after, selected[j]))
    requires first <= ti < first + |Products(items, selected)|
    ensures SumQuantity(NewAssignments(items, selected, task, first), after, ti)
              == PlainQuantity(items, selected, Products(items, selected)[ti - first])
    ensures SumDistributed(NewAssignments(items, selected, task, first), ti) == 0
  {
    var rows := NewAssignments(items, selected, task, first);
    forall j | 0 <= j < |selected| ensures items[selected[j]].product in Products(items, selected) {
      ProductsHave(items, selected, j);
    }
    ProductsOnce(items, selected);
    NewRowsSum(items, after, selected, rows, Products(items, selected), first, ti);
    SumNone(rows, ti);
  }

  lemma AppendedSums(prior: seq<Assignment>, rows: seq<Assignment>, items: map<nat, Item>, ti: nat)
    requires forall l :: 0 <= l < |prior| ==> prior[l].taskItem != ti
    ensures SumQuantity(prior + rows, items, ti) == SumQuantity(rows, items, ti)
    ensures SumDistributed(prior + rows, ti) == SumDistributed(rows, ti)
  {
    SumElsewhere(prior, items, ti);
    SumsAppend(prior, rows, items, ti);
  }

  lemma SelectedKeepQuantity(s: State, t: State, selected: seq<nat>)
    requires (forall j :: 0 <= j < |selected| ==> selected[j] in s.items) && Builds(s, t, selected)
    ensures forall j :: 0 <= j < |selected| ==> SameQuantity(s.items, t.items, selected[j])
  {
  }

  lemma BuiltNewTaskItem(s: State, t: State, store: int, selected: seq<nat>, ti: nat)
    requires RowsInv(s) && Picks(s, store, selected) && Builds(s, t, selected) && |s.taskItems| <= ti < |t.taskItems|
    ensures TaskItemOk(t, ti)
  {
    forall l | 0 <= l < |s.assignments| ensures s.assignments[l].taskItem != ti { assert RowOk(s, s.assignments[l]); }
    SelectedKeepQuantity(s, t, selected);
    NewTaskItemOk(s, t, selected, ti);
  }

  lemma NewTaskItemOk(s: State, t: State, selected: seq<nat>, ti: nat)
    requires (forall j :: 0 <= j < |selected| ==> selected[j] in s.items && SameQuantity(s.items, t.items, selected[j]))
    requires |s.taskItems| <= ti < |s.taskItems| + |Products(s.items, selected)|
    requires NewTaskItems(s.items, selected, |s.tasks|)[ti - |s.taskItems|].required > 0
    requires forall l :: 0 <= l < |s.assignments| ==> s.assignments[l].taskItem != ti
    requires t.assignments == s.assignments + NewAssignments(s.items, selected, |s.tasks|, |s.taskItems|)
    requires t.taskItems == s.taskItems + NewTaskItems(s.items, selected, |s.tasks|)
    requires |t.tasks| == |s.tasks| + 1 && t.tasks[|s.tasks|].status == TaskShopping
    ensures TaskItemOk(t, ti)
  {
    var rows, k := NewAssignments(s.items, selected, |s.tasks|, |s.taskItems|), ti - |s.taskItems|;
    NewRowsSums(s.items, t.items, selected, |s.tasks|, |s.taskItems|, ti);
    AppendedSums(s.assignments, rows, t.items, ti);
    GroupWraps(s.items, selected, Products(s.items, selected)[k]);
    assert t.taskItems[ti] == NewTaskItems(s.items, selected, |s.tasks|)[k];
  }

  lemma BuiltTaskItems(s: State, t: State, store: int, selected: seq<nat>)
    requires RowsInv(s) && QuantitiesInv(s) && Picks(s, store, selected) && Builds(s, t, selected)
    ensures forall ti :: 0 <= ti < |t.taskItems| ==> TaskItemOk(t, ti)
  {
    forall ti | 0 <= ti < |s.taskItems| ensures TaskItemOk(t, ti) { BuiltOldTaskItem(s, t, store, selected, ti); }
    forall ti | |s.taskItems| <= ti < |t.taskItems| ensures TaskItemOk(t, ti) {
      BuiltNewTaskItem(s, t, store, selected, ti);
    }
  }

  lemma BuiltQuantities(s: State, t: State, store: int, selected: seq<nat>)
    requires RowsInv(s) && QuantitiesInv(s) && Picks(s, store, selected) && Builds(s, t, selected) && RowsInv(t)
    ensures QuantitiesInv(t)
  {
    BuiltTaskItems(s, t, store, selected);
    forall k | 0 <= k < |t.assignments| ensures ShareOk(t, t.assignments[k]) { BuiltShare(s, t, store, selected, k); }
  }

  lemma BuiltShare(s: State, t: State, store: int, selected: seq<nat>, k: nat)
    requires RowsInv(s) && QuantitiesInv(s) && Picks(s, store, selected) && Builds(s, t, selected)
    requires k < |t.assignments| && RowOk(t, t.assignments[k])
    ensures ShareOk(t, t.assignments[k])
  {
  }

  // Items that end up in one demand were in one demand before.
  lemma BuiltConfirms(s: State, t: State, selected: seq<nat>)
    requires ItemsInv(s) && ConfirmsInv(s) && (forall k :: 0 <= k < |selected| ==> selected[k] in s.items)
    requires Builds(s, t, selected)
    ensures ConfirmsInv(t)
  {
  }

  lemma CreateTaskKeeps(s: State, captain: int, store: int, selected: seq<nat>)
    requires Inv(s)
    ensures Inv(DoCreateTask(s, captain, store, selected))
  {
    var t := DoCreateTask(s, captain, store, selected);
    if t != s {
      assert Picks(s, store, selected);
      CreateTaskBuilds(s, captain, store, selected);
      BuiltItems(s, t, store, selected);
      BuiltRows(s, t, store, selected);
      BuiltQuantities(s, t, store, selected);
      BuiltConfirms(s, t, selected);
    }
  }

  lemma StepKeeps(s: State, step: Step)
    requires Inv(s)
    ensures Inv(Next(s, step))
  {
    match step
    case CreateDemand(requester, store, drafts) => CreateDemandKeeps(s, requester, store, drafts);
    case ReplaceDemand(requester, demand, store, drafts) => ReplaceDemandKeeps(s, requester, demand, store, drafts);
    case CancelDemand(requester, demand) => CancelDemandKeeps(s, requester, demand);
    case CreateTask(captain, store, selected) => CreateTaskKeeps(s, captain, store, selected);
    case SavePurchased(captain, ti, quantity) => SavePurchasedKeeps(s, captain, ti, quantity);
    case ToPendingDistributing(captain, task) => ToPendingDistributingKeeps(s, captain, task);
    case SetPrice(captain, ti, price) => SetPriceKeeps(s, captain, ti, price);
    case ToDistributing(captain, task, packaging) => ToDistributingKeeps(s, captain, task, packaging);
    case SaveDistributed(captain, k, quantity) => SaveDistributedKeeps(s, captain, k, quantity);
    case ToCollecting(captain, task, bills) => ToCollectingKeeps(s, captain, task, bills);
    case CompleteWithoutBills(captain, task) =>
      if DoCompleteWithoutBills(s, captain, task) != s {
        CompletionKeeps(s, DoCompleteWithoutBills(s, captain, task), task);
      }
    case ToCompleted(captain, task, paid) =>
      if DoToCompleted(s, captain, task, paid) != s { CompletionKeeps(s, DoToCompleted(s, captain, task, paid), task); }
    case CancelTask(captain, task) => CancelTaskKeeps(s, captain, task);
    case ReadConfirm(task, payer) => ReadConfirmKeeps(s, task, payer);
    case ApplyConfirm(c) => ApplyConfirmKeeps(s, c);
    case AllPaymentsConfirmed(task) => AllPaymentsKeeps(s, task);
  }

  lemma {:induction false} RunsKeep(s: State, trace: seq<Step>)
    requires Inv(s)
    ensures Inv(Runs(s, trace))
    decreases |trace|
  {
    if trace != [] {
      StepKeeps(s, trace[0]);
      RunsKeep(Next(s, trace[0]), trace[1..]);
    }
  }
}
