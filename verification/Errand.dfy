// The errand group buy of errandservice: demands with items, the tasks captains build from
// them, assignments and their distribution, and the confirmation of payments. A step is one
// database transaction; a payment confirmation is read and applied in two.
module Errand {
  import opened Common

  datatype Phase = Open | Shopping | PendingDistributing | Distributing | PendingPayment | Completed | Cancelled

  datatype TaskStatus =
    | TaskShopping | TaskPendingDistributing | TaskDistributing | CollectingPayment | TaskCompleted | TaskCancelled

  datatype Demand = Demand(requester: int, store: int, status: Phase, task: Option<nat>, splitFrom: Option<nat>)

  // fee and price are the service fee and the estimated price of one unit.
  datatype Item = Item(demand: nat, requester: int, store: int, product: int, quantity: int, fee: int, price: int,
      status: Phase)

  datatype Task = Task(captain: int, store: int, status: TaskStatus, packaging: int)

  datatype TaskItem = TaskItem(task: nat, product: int, required: int, purchased: Option<int>, price: Option<int>)

  datatype Assignment = Assignment(
    task: nat, taskItem: nat, item: nat, purchaser: int, fee: int, distributed: Option<int>, bill: Option<nat>)

  // A payment confirmation that has read the rows of its payer.
  datatype Confirm = Confirm(items: seq<nat>)

  datatype State = State(
    demands: seq<Demand>, items: map<nat, Item>, nextItem: nat, tasks: seq<Task>, taskItems: seq<TaskItem>,
    assignments: seq<Assignment>, confirms: seq<Confirm>)

  datatype Draft = Draft(product: int, quantity: int, fee: int, price: int)

  datatype Step =
    // the requester
    | CreateDemand(requester: int, store: int, drafts: seq<Draft>)
    | ReplaceDemand(requester: int, demand: nat, store: int, drafts: seq<Draft>)
    | CancelDemand(requester: int, demand: nat)
    // the captain
    | CreateTask(captain: int, store: int, selected: seq<nat>)
    | SavePurchased(captain: int, taskItem: nat, quantity: int)
    | ToPendingDistributing(captain: int, task: nat)
    | SetPrice(captain: int, taskItem: nat, price: int)
    | ToDistributing(captain: int, task: nat, packaging: int)
    | SaveDistributed(captain: int, assignment: nat, quantity: int)
    | ToCollecting(captain: int, task: nat, bills: seq<(int, nat)>)
    | CompleteWithoutBills(captain: int, task: nat)
    | ToCompleted(captain: int, task: nat, paid: set<nat>)
    | CancelTask(captain: int, task: nat)
    // paymentservice
    | ReadConfirm(task: nat, payer: int) | ApplyConfirm(confirm: nat) | AllPaymentsConfirmed(task: nat)

  const UNDO: int := -1

  // int32 addition as Go does it.
  function Wrap32(x: int): (r: int)
    ensures -0x8000_0000 <= r <= INT32_MAX
    ensures -0x8000_0000 <= x <= INT32_MAX ==> r == x
  {
    (x + 0x8000_0000) % 0x1_0000_0000 - 0x8000_0000
  }

  // ------------------------------------------------------------------ demands

  predicate DraftsOk(drafts: seq<Draft>) {
    && (forall k :: 0 <= k < |drafts| ==>
          0 < drafts[k].quantity <= INT32_MAX && drafts[k].fee >= 0 && drafts[k].price >= 0)
    && (forall k, l :: 0 <= k < l < |drafts| ==> drafts[k].product != drafts[l].product)
  }

  function NewItem(d: Draft, demand: nat, requester: int, store: int): Item {
    Item(demand, requester, store, d.product, d.quantity, d.fee, d.price, Open)
  }

  function NewItems(drafts: seq<Draft>, demand: nat, requester: int, store: int, first: nat): (r: map<nat, Item>)
    ensures forall k :: k in r <==> first <= k < first + |drafts|
    ensures forall k :: k in r ==> r[k] == NewItem(drafts[k - first], demand, requester, store)
  {
    if drafts == [] then map[]
    else
      var n := |drafts| - 1;
      NewItems(drafts[..n], demand, requester, store, first)[first + n := NewItem(drafts[n], demand, requester, store)]
  }

  function DoCreateDemand(s: State, requester: int, store: int, drafts: seq<Draft>): State {
    if !DraftsOk(drafts) then s
    else s.(demands := s.demands + [Demand(requester, store, Open, None, None)],
            items := s.items + NewItems(drafts, |s.demands|, requester, store, s.nextItem),
            nextItem := s.nextItem + |drafts|)
  }

  predicate OwnOpenDemand(s: State, requester: int, demand: nat) {
    demand < |s.demands| && s.demands[demand].requester == requester && s.demands[demand].status == Open
  }

  function ItemsOutside(items: map<nat, Item>, demand: nat): map<nat, Item> {
    map i | i in items && items[i].demand != demand :: items[i]
  }

  // The item rows are replaced as a whole.
  function DoReplaceDemand(s: State, requester: int, demand: nat, store: int, drafts: seq<Draft>): State {
    if !OwnOpenDemand(s, requester, demand) || !DraftsOk(drafts) then s
    else s.(demands := s.demands[demand := s.demands[demand].(store := store)],
            items := ItemsOutside(s.items, demand) + NewItems(drafts, demand, requester, store, s.nextItem),
            nextItem := s.nextItem + |drafts|)
  }

  function DoCancelDemand(s: State, requester: int, demand: nat): State {
    if !OwnOpenDemand(s, requester, demand) then s
    else s.(demands := s.demands[demand := s.demands[demand].(status := Cancelled)],
            items := map i | i in s.items ::
              if s.items[i].demand == demand && s.items[i].status == Open then s.items[i].(status := Cancelled)
              else s.items[i])
  }

  // ------------------------------------------------------------------ creating a task

  predicate Selectable(s: State, store: int, selected: seq<nat>) {
    && selected != []
    && (forall k, l :: 0 <= k < l < |selected| ==> selected[k] != selected[l])
    && (forall k :: 0 <= k < |selected| ==>
          && selected[k] in s.items && s.items[selected[k]].store == store && s.items[selected[k]].status == Open
          && s.items[selected[k]].demand < |s.demands| && s.demands[s.items[selected[k]].demand].status == Open)
  }

  // The products of the selected rows, each once.
  function Products(items: map<nat, Item>, selected: seq<nat>): seq<int>
    requires forall k :: 0 <= k < |selected| ==> selected[k] in items
  {
    if selected == [] then []
    else
      var r := Products(items, selected[..|selected| - 1]);
      var p := items[selected[|selected| - 1]].product;
      if p in r then r else r + [p]
  }

  function IndexOf(products: seq<int>, product: int): nat {
    if products == [] then 0
    else if products[|products| - 1] == product then |products| - 1
    else IndexOf(products[..|products| - 1], product)
  }

  // group.RequiredQuantity += row.RequiredQuantity, in int32.
  function GroupQuantity(items: map<nat, Item>, selected: seq<nat>, product: int): int
    requires forall k :: 0 <= k < |selected| ==> selected[k] in items
  {
    if selected == [] then 0
    else
      var last := items[selected[|selected| - 1]];
      var r := GroupQuantity(items, selected[..|selected| - 1], product);
      if last.product == product then Wrap32(r + last.quantity) else r
  }

  function NewTaskItems(items: map<nat, Item>, selected: seq<nat>, task: nat): (r: seq<TaskItem>)
    requires forall k :: 0 <= k < |selected| ==> selected[k] in items
    ensures |r| == |Products(items, selected)|
    ensures forall k :: 0 <= k < |r| ==>
              r[k] == TaskItem(task, Products(items, selected)[k],
                  GroupQuantity(items, selected, Products(items, selected)[k]), None, None)
  {
    var products := Products(items, selected);
    seq(|products|,
        k requires 0 <= k < |products| => TaskItem(task, products[k], GroupQuantity(items, selected, products[k]),
        None, None))
  }

  function NewAssignments(items: map<nat, Item>, selected: seq<nat>, task: nat,
        firstTaskItem: nat): (r: seq<Assignment>)
    requires forall k :: 0 <= k < |selected| ==> selected[k] in items
    ensures |r| == |selected|
    ensures forall k :: 0 <= k < |r| ==>
              r[k] == Assignment(task, firstTaskItem + IndexOf(Products(items, selected), items[selected[k]].product),
                  selected[k],
                                 items[selected[k]].requester, items[selected[k]].fee, None, None)
  {
    seq(|selected|, k requires 0 <= k < |selected| =>
      Assignment(task, firstTaskItem + IndexOf(Products(items, selected), items[selected[k]].product), selected[k],
                 items[selected[k]].requester, items[selected[k]].fee, None, None))
  }

  // A demand some of whose items were selected, and one that keeps an unselected item.
  predicate Touched(items: map<nat, Item>, selected: seq<nat>, demand: nat) {
    exists k :: 0 <= k < |selected| && selected[k] in items && items[selected[k]].demand == demand
  }

  predicate Partial(items: map<nat, Item>, selected: seq<nat>, demand: nat) {
    Touched(items, selected, demand) && exists i :: i in items && items[i].demand == demand && i !in selected
  }

  // The demands below n that have to be split.
  function Partials(items: map<nat, Item>, selected: seq<nat>, n: nat): (r: seq<nat>)
    ensures forall k :: 0 <= k < |r| ==> r[k] < n
  {
    if n == 0 then []
    else
      var r := Partials(items, selected, n - 1);
      if Partial(items, selected, n - 1) then r + [n - 1] else r
  }

  function Place(splits: seq<nat>, demand: nat): (k: nat)
    requires demand in splits
    ensures k < |splits| && splits[k] == demand
  {
    if splits[|splits| - 1] == demand then |splits| - 1 else Place(splits[..|splits| - 1], demand)
  }

  // syncSingleDemand: a demand selected as a whole moves on; of a partly selected one the
  // selected items move to a new demand and the rest stays open.
  function SyncedDemands(s: State, selected: seq<nat>, task: nat): (r: seq<Demand>)
    ensures var splits := Partials(s.items, selected, |s.demands|);
            && |r| == |s.demands| + |splits|
            && (forall d :: 0 <= d < |s.demands| ==>
                  r[d] == if Touched(s.items, selected, d) && !Partial(s.items, selected, d)
                          then s.demands[d].(status := Shopping, task := Some(task)) else s.demands[d])
            && (forall k :: 0 <= k < |splits| ==>
                  r[|s.demands| + k] == Demand(s.demands[splits[k]].requester, s.demands[splits[k]].store, Shopping,
                      Some(task), Some(splits[k])))
  {
    var splits := Partials(s.items, selected, |s.demands|);
    seq(|s.demands|, d requires 0 <= d < |s.demands| =>
      if Touched(s.items, selected, d) && !Partial(s.items, selected, d)
      then s.demands[d].(status := Shopping, task := Some(task)) else s.demands[d])
    + seq(|splits|, k requires 0 <= k < |splits| =>
      Demand(s.demands[splits[k]].requester, s.demands[splits[k]].store, Shopping, Some(task), Some(splits[k])))
  }

  function SyncedItem(s: State, selected: seq<nat>, i: nat): Item
    requires i in s.items
  {
    var splits := Partials(s.items, selected, |s.demands|);
    if i !in selected then s.items[i]
    else if s.items[i].demand in splits
    then s.items[i].(status := Shopping, demand := |s.demands| + Place(splits, s.items[i].demand))
    else s.items[i].(status := Shopping)
  }

  function DoCreateTask(s: State, captain: int, store: int, selected: seq<nat>): State {
    if !Selectable(s, store, selected) then s
    else
      var t := |s.tasks|;
      var added := NewTaskItems(s.items, selected, t);
      // the unique key on demand items and the check on required_quantity
      if (exists k, l :: 0 <= k < |selected| && 0 <= l < |s.assignments| && s.assignments[l].item == selected[k])
         || (exists k :: 0 <= k < |added| && added[k].required <= 0) then s
      else s.(tasks := s.tasks + [Task(captain, store, TaskShopping, 0)],
              taskItems := s.taskItems + added,
              assignments := s.assignments + NewAssignments(s.items, selected, t, |s.taskItems|),
              demands := SyncedDemands(s, selected, t),
              items := map i | i in s.items :: SyncedItem(s, selected, i))
  }

  // ------------------------------------------------------------------ bulk updates over a task's rows

  predicate AssignedTo(s: State, task: nat, i: nat) {
    exists k :: 0 <= k < |s.assignments| && s.assignments[k].task == task && s.assignments[k].item == i
  }

  predicate LinkedDemand(s: State, task: nat, d: nat) {
    exists k :: 0 <= k < |s.assignments| && s.assignments[k].task == task
                && s.assignments[k].item in s.items && s.items[s.assignments[k].item].demand == d
  }

  // UPDATE of the demands linked to a task and of the items assigned to it, from some phases to one.
  function Moved(s: State, task: nat, from: set<Phase>, to: Phase): State {
    s.(demands := seq(|s.demands|, d requires 0 <= d < |s.demands| =>
         if LinkedDemand(s, task, d) && s.demands[d].status in from then s.demands[d].(status := to) else s.demands[d]),
       items := map i | i in s.items ::
         if AssignedTo(s, task, i) && s.items[i].status in from then s.items[i].(status := to) else s.items[i])
  }

  function SetStatus(s: State, task: nat, status: TaskStatus): State
    requires task < |s.tasks|
  {
    s.(tasks := s.tasks[task := s.tasks[task].(status := status)])
  }

  predicate Mine(s: State, captain: int, task: nat, status: TaskStatus) {
    task < |s.tasks| && s.tasks[task].captain == captain && s.tasks[task].status == status
  }

  // ------------------------------------------------------------------ shopping and pricing

  function DoSavePurchased(s: State, captain: int, ti: nat, quantity: int): State {
    if ti >= |s.taskItems| || !Mine(s, captain, s.taskItems[ti].task, TaskShopping) then s
    else if quantity != UNDO && !(0 <= quantity <= s.taskItems[ti].required) then s
    else
      var bought := if quantity == UNDO then None else Some(quantity);
      s.(taskItems := s.taskItems[ti := s.taskItems[ti].(purchased := bought)])
  }

  predicate AllHandled(s: State, task: nat) {
    && (exists k :: 0 <= k < |s.taskItems| && s.taskItems[k].task == task)
    && (forall k :: 0 <= k < |s.taskItems| && s.taskItems[k].task == task ==> s.taskItems[k].purchased.Some?)
  }

  function DoToPendingDistributing(s: State, captain: int, task: nat): State {
    if !Mine(s, captain, task, TaskShopping) || !AllHandled(s, task) then s
    else SetStatus(Moved(s, task, {Shopping}, PendingDistributing), task, TaskPendingDistributing)
  }

  function DoSetPrice(s: State, captain: int, ti: nat, price: int): State {
    if ti >= |s.taskItems| || price < 0 then s
    else
      var t := s.taskItems[ti].task;
      if !Mine(s, captain, t, TaskPendingDistributing) && !Mine(s, captain, t, TaskDistributing) then s
      else if s.taskItems[ti].purchased.None? || (s.taskItems[ti].purchased == Some(0) && price != 0) then s
      else s.(taskItems := s.taskItems[ti := s.taskItems[ti].(price := Some(price))])
  }

  predicate AllPriced(s: State, task: nat) {
    forall k :: 0 <= k < |s.taskItems| && s.taskItems[k].task == task ==>
      s.taskItems[k].purchased.Some? && (s.taskItems[k].purchased.value > 0 ==> s.taskItems[k].price.Some?)
  }

  function DoToDistributing(s: State, captain: int, task: nat, packaging: int): State {
    if packaging < 0 || !Mine(s, captain, task, TaskPendingDistributing) || !AllPriced(s, task) then s
    else
      var moved := Moved(s, task, {PendingDistributing}, Distributing);
      moved.(tasks := s.tasks[task := s.tasks[task].(status := TaskDistributing, packaging := packaging)])
  }

  // ------------------------------------------------------------------ distribution

  function Given(a: Assignment): int {
    if a.distributed.Some? then a.distributed.value else 0
  }

  function SumDistributed(assignments: seq<Assignment>, ti: nat): int {
    if assignments == [] then 0
    else
      var last := assignments[|assignments| - 1];
      SumDistributed(assignments[..|assignments| - 1], ti) + if last.taskItem == ti then Given(last) else 0
  }

  function DoSaveDistributed(s: State, captain: int, k: nat, quantity: int): State {
    if k >= |s.assignments| || quantity < UNDO then s
    else
      var a := s.assignments[k];
      if !Mine(s, captain, a.task, TaskDistributing) || a.taskItem >= |s.taskItems| || a.item !in s.items then s
      else if s.taskItems[a.taskItem].purchased.None? then s
      else if quantity == UNDO then s.(assignments := s.assignments[k := a.(distributed := None)])
      else if quantity > s.items[a.item].quantity then s
      else if SumDistributed(s.assignments, a.taskItem) - Given(a) + quantity > s.taskItems[a.taskItem].purchased.value
      then s
      else s.(assignments := s.assignments[k := a.(distributed := Some(quantity))])
  }

  // ensureTaskDistributionCompleted over the distribution summary.
  predicate FullyDistributed(s: State, task: nat) {
    && AllHandled(s, task) && AllPriced(s, task)
    && (forall k :: 0 <= k < |s.assignments| && s.assignments[k].task == task ==> s.assignments[k].distributed.Some?)
    && (forall ti :: 0 <= ti < |s.taskItems| && s.taskItems[ti].task == task && s.taskItems[ti].purchased.Some? ==>
          SumDistributed(s.assignments, ti) == s.taskItems[ti].purchased.value)
  }

  predicate Billable(a: Assignment, task: nat, payer: int) {
    a.task == task && a.purchaser == payer && a.distributed.Some? && a.distributed.value > 0
  }

  // The bill id is written to every row the payer owes for.
  function Bound(assignments: seq<Assignment>, task: nat, bills: seq<(int, nat)>): (r: seq<Assignment>)
    ensures |r| == |assignments|
    ensures forall k :: 0 <= k < |r| ==> r[k] == assignments[k].(bill := r[k].bill)
  {
    if bills == [] then assignments
    else
      var done := Bound(assignments, task, bills[..|bills| - 1]);
      var (payer, bill) := bills[|bills| - 1];
      seq(|assignments|, k requires 0 <= k < |assignments| =>
        if Billable(done[k], task, payer) then done[k].(bill := Some(bill)) else done[k])
  }

  predicate EveryPayerOwes(assignments: seq<Assignment>, task: nat, bills: seq<(int, nat)>) {
    forall b :: 0 <= b < |bills| ==> exists k :: 0 <= k < |assignments| && Billable(assignments[k], task, bills[b].0)
  }

  function DoToCollecting(s: State, captain: int, task: nat, bills: seq<(int, nat)>): State {
    if !Mine(s, captain, task, TaskDistributing) || !FullyDistributed(s, task) || bills == []
       || !EveryPayerOwes(s.assignments, task, bills) then s
    else
      var moved := Moved(s, task, {Distributing}, PendingPayment);
      SetStatus(moved, task, CollectingPayment).(assignments := Bound(s.assignments, task, bills))
  }

  // completeTaskWithoutBills: the two updates only match pending_payment and completed rows.
  function DoCompleteWithoutBills(s: State, captain: int, task: nat): State {
    if !Mine(s, captain, task, TaskDistributing) || !FullyDistributed(s, task) then s
    else SetStatus(Moved(s, task, {PendingPayment, Completed}, Completed), task, TaskCompleted)
  }

  // ------------------------------------------------------------------ payment

  // ensureTaskPaymentsCompleted: every payer's rows carry one bill, and it is completed.
  predicate PaymentsCompleted(s: State, task: nat, paid: set<nat>)
    requires task < |s.tasks|
  {
    && (forall k :: 0 <= k < |s.assignments| && Owing(s, task, k) ==>
          s.assignments[k].bill.Some? && s.assignments[k].bill.value in paid)
    && (forall k, l :: 0 <= k < l < |s.assignments| && Owing(s, task, k) && Owing(s, task, l) ==>
          s.assignments[k].purchaser != s.assignments[l].purchaser || s.assignments[k].bill == s.assignments[l].bill)
  }

  predicate Owing(s: State, task: nat, k: nat)
    requires task < |s.tasks| && k < |s.assignments|
  {
    Billable(s.assignments[k], task, s.assignments[k].purchaser) && s.assignments[k].purchaser != s.tasks[task].captain
  }

  function DoToCompleted(s: State, captain: int, task: nat, paid: set<nat>): State {
    if !Mine(s, captain, task, CollectingPayment) || !PaymentsCompleted(s, task, paid) then s
    else SetStatus(Moved(s, task, {PendingPayment, Completed}, Completed), task, TaskCompleted)
  }

  // The item ids of a payer's assignments.
  function PayerItems(assignments: seq<Assignment>, task: nat, payer: int): (r: seq<nat>)
    ensures forall i :: i in r <==>
              exists k :: 0 <= k < |assignments| && assignments[k].task == task && assignments[k].purchaser == payer
                && assignments[k].item == i
  {
    if assignments == [] then []
    else
      var last := assignments[|assignments| - 1];
      var r := PayerItems(assignments[..|assignments| - 1], task, payer);
      assert assignments == assignments[..|assignments| - 1] + [last];
      if last.task == task && last.purchaser == payer then r + [last.item] else r
  }

  function DoReadConfirm(s: State, task: nat, payer: int): State {
    if task >= |s.tasks| || s.tasks[task].status != CollectingPayment || PayerItems(s.assignments, task, payer) == []
    then s
    else s.(confirms := s.confirms + [Confirm(PayerItems(s.assignments, task, payer))])
  }

  function PaidItems(items: map<nat, Item>, ids: seq<nat>): map<nat, Item> {
    map i | i in items :: if i in ids && items[i].status == PendingPayment then items[i].(status := Completed)
    else items[i]
  }

  predicate AllDone(items: map<nat, Item>, demand: nat) {
    forall i :: i in items && items[i].demand == demand ==> items[i].status == Completed
  }

  predicate HasOne(items: map<nat, Item>, ids: seq<nat>, demand: nat) {
    exists i :: i in items && i in ids && items[i].demand == demand
  }

  // Items first, then each of their demands that has nothing left to pay.
  function DoApplyConfirm(s: State, c: nat): State {
    if c >= |s.confirms| then s
    else
      var ids := s.confirms[c].items;
      var items := PaidItems(s.items, ids);
      s.(items := items,
         demands := seq(|s.demands|, d requires 0 <= d < |s.demands| =>
           if HasOne(items, ids, d) && s.demands[d].status == PendingPayment && AllDone(items, d)
           then s.demands[d].(status := Completed) else s.demands[d]))
  }

  // OnErrandTaskAllPaymentsConfirmed completes the task alone.
  function DoAllPaymentsConfirmed(s: State, task: nat): State {
    if task >= |s.tasks| || s.tasks[task].status != CollectingPayment then s else SetStatus(s, task, TaskCompleted)
  }

  // ------------------------------------------------------------------ cancelling a task

  predicate Settled(p: Phase) {
    p == Completed || p == Cancelled
  }

  function Reopened(s: State, task: nat): State {
    s.(demands := seq(|s.demands|, d requires 0 <= d < |s.demands| =>
         if LinkedDemand(s, task, d) && !Settled(s.demands[d].status) then s.demands[d].(status := Open, task := None)
         else s.demands[d]),
       items := map i | i in s.items ::
         if AssignedTo(s, task, i) && !Settled(s.items[i].status) then s.items[i].(status := Open) else s.items[i])
  }

  // DELETE of the task's assignments whose item is open again.
  predicate Dropped(a: Assignment, items: map<nat, Item>, task: nat) {
    a.task == task && a.item in items && items[a.item].status == Open
  }

  function WithoutReopened(assignments: seq<Assignment>, items: map<nat, Item>, task: nat): seq<Assignment> {
    if assignments == [] then []
    else
      var last := assignments[|assignments| - 1];
      var r := WithoutReopened(assignments[..|assignments| - 1], items, task);
      if Dropped(last, items, task) then r else r + [last]
  }

  function DoCancelTask(s: State, captain: int, task: nat): State {
    if task >= |s.tasks| || s.tasks[task].captain != captain || s.tasks[task].status in {TaskCompleted, TaskCancelled}
    then s
    else
      var open := Reopened(s, task);
      SetStatus(open, task, TaskCancelled).(assignments := WithoutReopened(s.assignments, open.items, task))
  }

  // ------------------------------------------------------------------ runs

  function Next(s: State, step: Step): State {
    match step
    case CreateDemand(requester, store, drafts) => DoCreateDemand(s, requester, store, drafts)
    case ReplaceDemand(requester, demand, store, drafts) => DoReplaceDemand(s, requester, demand, store, drafts)
    case CancelDemand(requester, demand) => DoCancelDemand(s, requester, demand)
    case CreateTask(captain, store, selected) => DoCreateTask(s, captain, store, selected)
    case SavePurchased(captain, ti, quantity) => DoSavePurchased(s, captain, ti, quantity)
    case ToPendingDistributing(captain, task) => DoToPendingDistributing(s, captain, task)
    case SetPrice(captain, ti, price) => DoSetPrice(s, captain, ti, price)
    case ToDistributing(captain, task, packaging) => DoToDistributing(s, captain, task, packaging)
    case SaveDistributed(captain, k, quantity) => DoSaveDistributed(s, captain, k, quantity)
    case ToCollecting(captain, task, bills) => DoToCollecting(s, captain, task, bills)
    case CompleteWithoutBills(captain, task) => DoCompleteWithoutBills(s, captain, task)
    case ToCompleted(captain, task, paid) => DoToCompleted(s, captain, task, paid)
    case CancelTask(captain, task) => DoCancelTask(s, captain, task)
    case ReadConfirm(task, payer) => DoReadConfirm(s, task, payer)
    case ApplyConfirm(c) => DoApplyConfirm(s, c)
    case AllPaymentsConfirmed(task) => DoAllPaymentsConfirmed(s, task)
  }

  const EMPTY := State([], map[], 0, [], [], [], [])

  function Runs(s: State, trace: seq<Step>): State
    decreases |trace|
  {
    if trace == [] then s else Runs(Next(s, trace[0]), trace[1..])
  }

  lemma {:induction false} RunsThrough(s: State, trace: seq<Step>, step: Step)
    ensures Runs(s, trace + [step]) == Next(Runs(s, trace), step)
    decreases |trace|
  {
    if trace == [] {
      assert [step][1..] == [] && trace + [step] == [step];
    } else {
      RunsThrough(Next(s, trace[0]), trace[1..], step);
      assert (trace + [step])[1..] == trace[1..] + [step];
    }
  }
}
