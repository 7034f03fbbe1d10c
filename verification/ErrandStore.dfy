// The errand tables as errandservice updates them, row by row inside one transaction. Each method takes the
// tables to what the corresponding step of the model gives.
module ErrandStore {
  import opened Common
  import opened Errand
  import opened ErrandOffers

  class ErrandTables {
    var demands: seq<Demand>
    var items: map<nat, Item>
    var nextItem: nat
    var tasks: seq<Task>
    var taskItems: seq<TaskItem>
    var assignments: seq<Assignment>
    var confirms: seq<Confirm>

    function Snapshot(): State
      reads this
    {
      State(demands, items, nextItem, tasks, taskItems, assignments, confirms)
    }

    constructor ()
      ensures Snapshot() == EMPTY
    {
      demands, items, nextItem, tasks, taskItems, assignments, confirms := [], map[], 0, [], [], [], [];
    }

    // ---------------------------------------------------------------- demands

    // The item rows of a new or replaced demand, inserted one after the other.
    method InsertItems(drafts: seq<Draft>, demand: nat, requester: int, store: int)
      modifies this`items, this`nextItem
      ensures items == old(items) + NewItems(drafts, demand, requester, store, old(nextItem))
      ensures nextItem == old(nextItem) + |drafts|
      ensures ItemsAsk(items, drafts, demand, requester, store, old(nextItem))
    {
      ghost var before, first := items, nextItem;
      for k := 0 to |drafts|
        invariant items == before + NewItems(drafts[..k], demand, requester, store, first)
        invariant nextItem == first + k
      {
        InsertNext(before, drafts, k, demand, requester, store, first);
        items := items[nextItem := NewItem(drafts[k], demand, requester, store)];
        nextItem := nextItem + 1;
      }
      assert drafts[..|drafts|] == drafts;
      NewItemsAsk(before, drafts, demand, requester, store, first);
    }

    method CreateDemand(requester: int, store: int, drafts: seq<Draft>) returns (ok: bool)
      modifies this
      ensures Snapshot() == DoCreateDemand(old(Snapshot()), requester, store, drafts)
      ensures ok <==> DraftsOk(drafts)
      ensures ok ==> demands == old(demands) + [Demand(requester, store, Open, None, None)]
      ensures ok ==> ItemsAsk(items, drafts, |old(demands)|, requester, store, old(nextItem))
    {
      if !DraftsOk(drafts) { return false; }
      InsertItems(drafts, |demands|, requester, store);
      demands := demands + [Demand(requester, store, Open, None, None)];
      ok := true;
    }

    method ReplaceDemand(requester: int, demand: nat, store: int, drafts: seq<Draft>) returns (ok: bool)
      modifies this
      ensures Snapshot() == DoReplaceDemand(old(Snapshot()), requester, demand, store, drafts)
      ensures ok <==> OwnOpenDemand(old(Snapshot()), requester, demand) && DraftsOk(drafts)
      ensures ok ==> ItemsAsk(items, drafts, demand, requester, store, old(nextItem))
    {
      if demand >= |demands| || demands[demand].requester != requester || demands[demand].status != Open {
        return false;
      }
      if !DraftsOk(drafts) { return false; }
      items := ItemsOutside(items, demand);
      InsertItems(drafts, demand, requester, store);
      demands := demands[demand := demands[demand].(store := store)];
      ok := true;
    }

    // ---------------------------------------------------------------- creating a task

    // One task item per product, its quantity summed over the selected rows.
    method InsertTaskItems(selected: seq<nat>, task: nat) returns (added: seq<TaskItem>)
      requires forall k :: 0 <= k < |selected| ==> selected[k] in items
      ensures added == NewTaskItems(items, selected, task)
    {
      var products, quantities := BuildGroups(selected);
      added := [];
      for k := 0 to |products|
        invariant |added| == k
        invariant forall j :: 0 <= j < k ==>
          added[j] == TaskItem(task, products[j], GroupQuantity(items, selected, products[j]), None, None)
      {
        var product := products[k];
        assert product in products;
        added := added + [TaskItem(task, product, quantities[product], None, None)];
      }
    }

    // buildTaskItemGroups.
    method BuildGroups(selected: seq<nat>) returns (products: seq<int>, quantities: map<int, int>)
      requires forall k :: 0 <= k < |selected| ==> selected[k] in items
      ensures products == Products(items, selected)
      ensures forall p :: p in products ==> p in quantities && quantities[p] == GroupQuantity(items, selected, p)
    {
      products, quantities := [], map[];
      for k := 0 to |selected|
        invariant products == Products(items, selected[..k])
        invariant forall p :: p in products ==>
                  p in quantities && quantities[p] == GroupQuantity(items, selected[..k], p)
      {
        assert selected[..k + 1][..k] == selected[..k];
        var row := items[selected[k]];
        if row.product !in products {
          NothingGrouped(items, selected[..k], row.product);
          products, quantities := products + [row.product], quantities[row.product := 0];
        }
        quantities := quantities[row.product := Wrap32(quantities[row.product] + row.quantity)];
      }
      assert selected[..|selected|] == selected;
    }

    // syncSelectedDemandStatus: one demand after the other.
    method SyncDemands(selected: seq<nat>, task: nat)
      requires SelectedRows(Snapshot(), selected)
      modifies this`demands, this`items
      ensures demands == SyncedDemands(old(Snapshot()), selected, task)
      ensures items == map i | i in old(items) :: SyncedItem(old(Snapshot()), selected, i)
    {
      ghost var s := Snapshot();
      var n, rows, ds, rs := |demands|, items, demands, items;
      for d := 0 to n
        invariant DemandsSynced(s, selected, task, d, Partials(rows, selected, d), ds)
        invariant RowsSynced(s, selected, d, Partials(rows, selected, d), rs)
      {
        ds, rs := SyncSingleDemand(s, rows, selected, task, d, ds, rs);
      }
      DemandsDone(s, selected, task, Partials(rows, selected, n), ds);
      RowsDone(s, selected, Partials(rows, selected, n), rs);
      demands, items := ds, rs;
    }

    // createTaskAssignments: one row per selected item, pointing at its product's task item.
    method BuildAssignments(selected: seq<nat>, task: nat, first: nat) returns (added: seq<Assignment>)
      requires forall k :: 0 <= k < |selected| ==> selected[k] in items
      ensures added == NewAssignments(items, selected, task, first)
    {
      var products, _ := BuildGroups(selected);
      added := [];
      for k := 0 to |selected|
        invariant |added| == k
        invariant forall j :: 0 <= j < k ==>
          added[j] == Assignment(task, first + IndexOf(products, items[selected[j]].product), selected[j],
                                 items[selected[j]].requester, items[selected[j]].fee, None, None)
      {
        var row := items[selected[k]];
        added := added + [Assignment(task, first + IndexOf(products, row.product), selected[k], row.requester, row.fee,
            None, None)];
      }
    }

    // The whole transaction; the table's unique key and check take it back.
    method CreateTask(captain: int, store: int, selected: seq<nat>) returns (ok: bool)
      modifies this
      ensures Snapshot() == DoCreateTask(old(Snapshot()), captain, store, selected)
      ensures !ok ==> Snapshot() == old(Snapshot())
      ensures ok ==> |tasks| == old(|tasks|) + 1
    {
      if !Selectable(Snapshot(), store, selected) { return false; }
      var task := |tasks|;
      var added := InsertTaskItems(selected, task);
      var rows := BuildAssignments(selected, task, |taskItems|);
      if exists k, l :: 0 <= k < |selected| && 0 <= l < |assignments| && assignments[l].item == selected[k] {
        return false;
      }
      if exists k :: 0 <= k < |added| && added[k].required <= 0 { return false; }
      SyncDemands(selected, task);
      tasks := tasks + [Task(captain, store, TaskShopping, 0)];
      taskItems := taskItems + added;
      assignments := assignments + rows;
      ok := true;
    }

    // ---------------------------------------------------------------- phases

    // The demands and items the bulk updates select through the task's assignments.
    method Linked(task: nat) returns (linked: set<nat>, chosen: set<nat>)
      ensures forall d :: d in linked <==> LinkedDemand(Snapshot(), task, d)
      ensures forall i :: i in chosen <==> AssignedTo(Snapshot(), task, i)
    {
      linked, chosen := {}, {};
      for k := 0 to |assignments|
        invariant forall d :: d in linked <==>
          (exists j :: 0 <= j < k && assignments[j].task == task && assignments[j].item in items
            && items[assignments[j].item].demand == d)
        invariant forall i :: i in chosen <==>
                  exists j :: 0 <= j < k && assignments[j].task == task && assignments[j].item == i
      {
        var a := assignments[k];
        if a.task == task {
          chosen := chosen + {a.item};
          if a.item in items { linked := linked + {items[a.item].demand}; }
        }
      }
    }

    method MovePhase(task: nat, from: set<Phase>, to: Phase)
      modifies this`demands, this`items
      ensures Snapshot() == Moved(old(Snapshot()), task, from, to)
    {
      var linked, chosen := Linked(task);
      demands := seq(|demands|, d requires 0 <= d < |demands| reads this =>
        if d in linked && demands[d].status in from then demands[d].(status := to) else demands[d]);
      items := map i | i in items :: if i in chosen && items[i].status in from then items[i].(status := to)
      else items[i];
    }

    method ToPendingDistributing(captain: int, task: nat) returns (ok: bool)
      modifies this
      ensures Snapshot() == DoToPendingDistributing(old(Snapshot()), captain, task)
      ensures ok <==> Mine(old(Snapshot()), captain, task, TaskShopping) && AllHandled(old(Snapshot()), task)
    {
      if !Mine(Snapshot(), captain, task, TaskShopping) || !AllHandled(Snapshot(), task) { return false; }
      tasks := tasks[task := tasks[task].(status := TaskPendingDistributing)];
      MovePhase(task, {Shopping}, PendingDistributing);
      ok := true;
    }

    method ToDistributing(captain: int, task: nat, packaging: int) returns (ok: bool)
      modifies this
      ensures Snapshot() == DoToDistributing(old(Snapshot()), captain, task, packaging)
      ensures ok <==>
                packaging >= 0 && Mine(old(Snapshot()), captain, task, TaskPendingDistributing)
                  && AllPriced(old(Snapshot()), task)
    {
      if packaging < 0 || !Mine(Snapshot(), captain, task, TaskPendingDistributing) || !AllPriced(Snapshot(), task) {
        return false;
      }
      tasks := tasks[task := tasks[task].(status := TaskDistributing, packaging := packaging)];
      MovePhase(task, {PendingDistributing}, Distributing);
      ok := true;
    }

    // ---------------------------------------------------------------- distribution

    method DistributedSum(ti: nat) returns (sum: int)
      ensures sum == SumDistributed(assignments, ti)
    {
      sum := 0;
      for k := 0 to |assignments|
        invariant sum == SumDistributed(assignments[..k], ti)
      {
        assert assignments[..k + 1][..k] == assignments[..k];
        if assignments[k].taskItem == ti { sum := sum + Given(assignments[k]); }
      }
      assert assignments[..|assignments|] == assignments;
    }

    // SaveDistributedQuantity: a share may not exceed the request, nor all shares what was bought.
    method SaveDistributed(captain: int, k: nat, quantity: int) returns (ok: bool)
      modifies this
      ensures Snapshot() == DoSaveDistributed(old(Snapshot()), captain, k, quantity)
      ensures !ok ==> Snapshot() == old(Snapshot())
      ensures ok ==>
                k < |assignments| && assignments[k].distributed == if quantity == UNDO then None else Some(quantity)
    {
      if k >= |assignments| || quantity < UNDO { return false; }
      var a := assignments[k];
      if !Mine(Snapshot(), captain, a.task, TaskDistributing) || a.taskItem >= |taskItems| || a.item !in items {
        return false;
      }
      if taskItems[a.taskItem].purchased.None? { return false; }
      if quantity == UNDO {
        assignments := assignments[k := a.(distributed := None)];
        return true;
      }
      if quantity > items[a.item].quantity { return false; }
      var sum := DistributedSum(a.taskItem);
      if sum - Given(a) + quantity > taskItems[a.taskItem].purchased.value { return false; }
      assignments := assignments[k := a.(distributed := Some(quantity))];
      ok := true;
    }

    // ---------------------------------------------------------------- payment

    // UpdateTaskAssignmentPaymentBillIDByPayer, one payer after the other; a payer without rows is an error.
    method BindBills(task: nat, bills: seq<(int, nat)>) returns (ok: bool, bound: seq<Assignment>)
      ensures ok <==> EveryPayerOwes(assignments, task, bills)
      ensures ok ==> bound == Bound(assignments, task, bills)
    {
      bound := assignments;
      for b := 0 to |bills|
        invariant bound == Bound(assignments, task, bills[..b])
        invariant forall c :: 0 <= c < b ==>
                  exists k :: 0 <= k < |assignments| && Billable(assignments[k], task, bills[c].0)
      {
        assert bills[..b + 1][..b] == bills[..b];
        var (payer, bill) := bills[b];
        var next, affected := BindPayer(bound, task, payer, bill);
        if affected == 0 { return false, []; }
        bound := next;
      }
      assert bills[..|bills|] == bills;
      ok := true;
    }

    method ToCollecting(captain: int, task: nat, bills: seq<(int, nat)>) returns (ok: bool)
      modifies this
      ensures Snapshot() == DoToCollecting(old(Snapshot()), captain, task, bills)
      ensures !ok ==> Snapshot() == old(Snapshot())
      ensures ok ==> task < |tasks| && tasks[task].status == CollectingPayment
    {
      if !Mine(Snapshot(), captain, task, TaskDistributing) || !FullyDistributed(Snapshot(), task) || bills == [] {
        return false;
      }
      var bound;
      ok, bound := BindBills(task, bills);
      if !ok { return false; }
      MovePhase(task, {Distributing}, PendingPayment);
      tasks := tasks[task := tasks[task].(status := CollectingPayment)];
      assignments := bound;
    }

    // OnErrandTaskPaymentConfirmed: the item ids of the payer's assignments are collected first.
    method ReadConfirm(task: nat, payer: int) returns (ok: bool)
      modifies this
      ensures Snapshot() == DoReadConfirm(old(Snapshot()), task, payer)
      ensures ok <==> |confirms| == old(|confirms|) + 1
    {
      if task >= |tasks| || tasks[task].status != CollectingPayment { return false; }
      var ids: seq<nat> := [];
      for k := 0 to |assignments|
        invariant ids == PayerItems(assignments[..k], task, payer)
      {
        assert assignments[..k + 1][..k] == assignments[..k];
        if assignments[k].task == task && assignments[k].purchaser == payer { ids := ids + [assignments[k].item]; }
      }
      assert assignments[..|assignments|] == assignments;
      if ids == [] { return false; }
      confirms := confirms + [Confirm(ids)];
      ok := true;
    }

    // Items first; a demand follows once none of its items is left to pay.
    method ApplyConfirm(c: nat)
      modifies this
      ensures Snapshot() == DoApplyConfirm(old(Snapshot()), c)
    {
      if c >= |confirms| { return; }
      var ids := confirms[c].items;
      items := map i | i in items :: if i in ids && items[i].status == PendingPayment
      then items[i].(status := Completed) else items[i];
      var rows := items;
      demands := seq(|demands|, d requires 0 <= d < |demands| reads this =>
        if demands[d].status == PendingPayment && HasOne(rows, ids, d) && AllDone(rows, d)
        then demands[d].(status := Completed) else demands[d]);
    }

    // ---------------------------------------------------------------- cancelling a task

    // What is not settled goes back to open, and the assignments of reopened items are deleted.
    method CancelTask(captain: int, task: nat) returns (ok: bool)
      modifies this
      ensures Snapshot() == DoCancelTask(old(Snapshot()), captain, task)
      ensures ok <==> task < old(|tasks|) && old(tasks)[task].captain == captain
                      && old(tasks)[task].status != TaskCompleted && old(tasks)[task].status != TaskCancelled
    {
      if task >= |tasks| || tasks[task].captain != captain { return false; }
      if tasks[task].status == TaskCompleted || tasks[task].status == TaskCancelled { return false; }
      Reopen(task);
      tasks := tasks[task := tasks[task].(status := TaskCancelled)];
      var kept: seq<Assignment> := [];
      for k := 0 to |assignments|
        invariant kept == WithoutReopened(assignments[..k], items, task)
      {
        assert assignments[..k + 1][..k] == assignments[..k];
        if !Dropped(assignments[k], items, task) { kept := kept + [assignments[k]]; }
      }
      assert assignments[..|assignments|] == assignments;
      assignments := kept;
      ok := true;
    }

    method Reopen(task: nat)
      modifies this`demands, this`items
      ensures Snapshot() == Reopened(old(Snapshot()), task)
    {
      var linked, chosen := Linked(task);
      demands := seq(|demands|, d requires 0 <= d < |demands| reads this =>
        if d in linked && !Settled(demands[d].status) then demands[d].(status := Open, task := None) else demands[d]);
      items := map i | i in items :: if i in chosen && !Settled(items[i].status) then items[i].(status := Open)
      else items[i];
    }
  }

  // One UPDATE by payer and how many rows it affected.
  method BindPayer(rows: seq<Assignment>, task: nat, payer: int, bill: nat)
    returns (next: seq<Assignment>, affected: nat)
    ensures next
              == seq(|rows|,
              k requires 0 <= k < |rows| => if Billable(rows[k], task, payer) then rows[k].(bill := Some(bill))
              else rows[k])
    ensures affected > 0 <==> exists k :: 0 <= k < |rows| && Billable(rows[k], task, payer)
  {
    next, affected := [], 0;
    for k := 0 to |rows|
      invariant |next| == k
      invariant forall j :: 0 <= j < k ==>
                next[j] == if Billable(rows[j], task, payer) then rows[j].(bill := Some(bill)) else rows[j]
      invariant affected > 0 <==> exists j :: 0 <= j < k && Billable(rows[j], task, payer)
    {
      if Billable(rows[k], task, payer) {
        next, affected := next + [rows[k].(bill := Some(bill))], affected + 1;
      } else {
        next := next + [rows[k]];
      }
    }
  }

  lemma InsertNext(before: map<nat, Item>, drafts: seq<Draft>, k: nat, demand: nat, requester: int, store: int,
        first: nat)
    requires k < |drafts|
    ensures (before + NewItems(drafts[..k], demand, requester, store, first))[first + k := NewItem(drafts[k], demand,
              requester, store)]
         == before + NewItems(drafts[..k + 1], demand, requester, store, first)
  {
  }

  ghost predicate SelectedRows(s: State, selected: seq<nat>) {
    forall k :: 0 <= k < |selected| ==> selected[k] in s.items && s.items[selected[k]].demand < |s.demands|
  }

  lemma {:induction false} NothingGrouped(items: map<nat, Item>, selected: seq<nat>, product: int)
    requires forall k :: 0 <= k < |selected| ==> selected[k] in items
    requires product !in Products(items, selected)
    ensures GroupQuantity(items, selected, product) == 0
  {
    if selected != [] {
      NothingGrouped(items, selected[..|selected| - 1], product);
    }
  }

  function SyncedDemand(s: State, selected: seq<nat>, task: nat, d: nat): Demand
    requires d < |s.demands|
  {
    if Touched(s.items, selected, d) && !Partial(s.items, selected, d)
    then s.demands[d].(status := Shopping, task := Some(task)) else s.demands[d]
  }

  function SplitDemand(s: State, task: nat, d: nat): Demand
    requires d < |s.demands|
  {
    Demand(s.demands[d].requester, s.demands[d].store, Shopping, Some(task), Some(d))
  }

  // A row once the demands split so far are known.
  function Synced(row: Item, i: nat, selected: seq<nat>, n: nat, splits: seq<nat>): Item {
    if i !in selected then row
    else if row.demand in splits then row.(status := Shopping, demand := n + Place(splits, row.demand))
    else row.(status := Shopping)
  }

  // The demand table when the first d demands have been looked at, and the rows then.
  ghost predicate DemandsSynced(s: State, selected: seq<nat>, task: nat, d: nat, splits: seq<nat>,
        demands: seq<Demand>) {
    && |demands| == |s.demands| + |splits|
    && (forall e :: 0 <= e < |s.demands| ==>
          demands[e] == if e < d then SyncedDemand(s, selected, task, e) else s.demands[e])
    && (forall k :: 0 <= k < |splits| ==>
          splits[k] < |s.demands| && demands[|s.demands| + k] == SplitDemand(s, task, splits[k]))
  }

  ghost predicate RowsSynced(s: State, selected: seq<nat>, d: nat, splits: seq<nat>, items: map<nat, Item>) {
    && items.Keys == s.items.Keys
    && forall i :: i in s.items ==>
         items[i] == if s.items[i].demand < d then Synced(s.items[i], i, selected, |s.demands|, splits) else s.items[i]
  }

  // UPDATE of a demand's selected rows: to shopping, and to the split demand if there is one.
  function MoveRows(items: map<nat, Item>, rows: map<nat, Item>, selected: seq<nat>, d: nat,
        split: Option<nat>): map<nat, Item>
    requires items.Keys == rows.Keys
  {
    map i | i in items :: if i !in selected || rows[i].demand != d then items[i]
                          else if split.Some? then items[i].(status := Shopping, demand := split.value)
                          else items[i].(status := Shopping)
  }

  // syncSingleDemand.
  method SyncSingleDemand(ghost s: State, rows: map<nat, Item>, selected: seq<nat>, task: nat, d: nat,
      demands: seq<Demand>, items: map<nat, Item>)
    returns (demands': seq<Demand>, items': map<nat, Item>)
    requires rows == s.items && d < |s.demands|
    requires DemandsSynced(s, selected, task, d, Partials(rows, selected, d), demands)
    requires RowsSynced(s, selected, d, Partials(rows, selected, d), items)
    ensures DemandsSynced(s, selected, task, d + 1, Partials(rows, selected, d + 1), demands')
    ensures RowsSynced(s, selected, d + 1, Partials(rows, selected, d + 1), items')
  {
    ghost var splits := Partials(rows, selected, d);
    demands', items' := demands, items;
    DemandStep(s, selected, task, d, splits, demands);
    if !Touched(rows, selected, d) {
      UntouchedRows(s, selected, d, splits, items);
    } else if !Partial(rows, selected, d) {
      demands' := demands[d := demands[d].(status := Shopping, task := Some(task))];
      items' := MoveRows(items, rows, selected, d, None);
      WholeRows(s, selected, d, splits, items);
    } else {
      demands' := demands + [Demand(demands[d].requester, demands[d].store, Shopping, Some(task), Some(d))];
      items' := MoveRows(items, rows, selected, d, Some(|demands|));
      SplitRows(s, selected, d, splits, items);
    }
  }

  // The demands after one more of them.
  lemma DemandStep(s: State, selected: seq<nat>, task: nat, d: nat, splits: seq<nat>, demands: seq<Demand>)
    requires d < |s.demands| && DemandsSynced(s, selected, task, d, splits, demands)
    requires splits == Partials(s.items, selected, d)
    ensures demands[d] == s.demands[d]
    ensures !Touched(s.items, selected, d) ==>
              Partials(s.items, selected, d + 1) == splits && DemandsSynced(s, selected, task, d + 1, splits, demands)
    ensures Touched(s.items, selected, d) && !Partial(s.items, selected, d) ==>
              && Partials(s.items, selected, d + 1) == splits
              && DemandsSynced(s, selected, task, d + 1, splits,
                   demands[d := demands[d].(status := Shopping, task := Some(task))])
    ensures Partial(s.items, selected, d) ==>
              && Partials(s.items, selected, d + 1) == splits + [d]
              && DemandsSynced(s, selected, task, d + 1, splits + [d],
                   demands + [Demand(demands[d].requester, demands[d].store, Shopping, Some(task), Some(d))])
  {
  }

  lemma UntouchedRows(s: State, selected: seq<nat>, d: nat, splits: seq<nat>, items: map<nat, Item>)
    requires RowsSynced(s, selected, d, splits, items) && !Touched(s.items, selected, d)
    ensures RowsSynced(s, selected, d + 1, splits, items)
  {
  }

  lemma WholeRows(s: State, selected: seq<nat>, d: nat, splits: seq<nat>, items: map<nat, Item>)
    requires RowsSynced(s, selected, d, splits, items) && splits == Partials(s.items, selected, d)
    ensures RowsSynced(s, selected, d + 1, splits, MoveRows(items, s.items, selected, d, None))
  {
  }

  lemma SplitRows(s: State, selected: seq<nat>, d: nat, splits: seq<nat>, items: map<nat, Item>)
    requires RowsSynced(s, selected, d, splits, items) && splits == Partials(s.items, selected, d)
    ensures RowsSynced(s, selected, d + 1, splits + [d],
              MoveRows(items, s.items, selected, d, Some(|s.demands| + |splits|)))
  {
  }

  lemma DemandsDone(s: State, selected: seq<nat>, task: nat, splits: seq<nat>, demands: seq<Demand>)
    requires splits == Partials(s.items, selected, |s.demands|)
    requires DemandsSynced(s, selected, task, |s.demands|, splits, demands)
    ensures demands == SyncedDemands(s, selected, task)
  {
  }

  lemma RowsDone(s: State, selected: seq<nat>, splits: seq<nat>, items: map<nat, Item>)
    requires SelectedRows(s, selected) && splits == Partials(s.items, selected, |s.demands|)
    requires RowsSynced(s, selected, |s.demands|, splits, items)
    ensures items == map i | i in s.items :: SyncedItem(s, selected, i)
  {
  }
}
