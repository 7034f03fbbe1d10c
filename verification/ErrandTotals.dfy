// The quantity a captain has to buy of a product is summed in int32 without a check: when it is right, which
// selections are accepted, and a run where it is wrong.
module ErrandTotals {
  import opened Common
  import opened Errand
  import opened ErrandSafety

  lemma {:induction false} SumNonNegative(s: State, rows: seq<Assignment>, ti: nat)
    requires Inv(s)
    ensures SumQuantity(rows, s.items, ti) >= 0
  {
    if rows != [] {
      SumNonNegative(s, rows[..|rows| - 1], ti);
      var i := rows[|rows| - 1].item;
      if i in s.items { assert ItemOk(s, i); }
    }
  }

  // In every reachable state the total of a task item that is not cancelled is what its rows ask for exactly
  // when that is an int32.
  lemma RequiredIsExactIff(trace: seq<Step>, ti: nat)
    requires ti < |Runs(EMPTY, trace).taskItems|
    requires var s := Runs(EMPTY, trace);
             s.taskItems[ti].task < |s.tasks| && s.tasks[s.taskItems[ti].task].status != TaskCancelled
    ensures var s := Runs(EMPTY, trace);
            s.taskItems[ti].required == SumQuantity(s.assignments, s.items, ti)
            <==> SumQuantity(s.assignments, s.items, ti) <= INT32_MAX
  {
    var s := Runs(EMPTY, trace);
    EmptyInv();
    RunsKeep(EMPTY, trace);
    assert TaskItemOk(s, ti);
    SumNonNegative(s, s.assignments, ti);
  }

  // ------------------------------------------------------------------ which selections are accepted

  // The sum of a product, left to itself, is positive in its low 32 bits read with their sign.
  predicate LooksPositive(sum: int) {
    0 < sum % 0x1_0000_0000 <= INT32_MAX
  }

  lemma WrapPositiveIff(sum: int)
    ensures Wrap32(sum) > 0 <==> LooksPositive(sum)
  {
    var q, r := sum / 0x1_0000_0000, sum % 0x1_0000_0000;
    if r <= INT32_MAX {
      LowBits(sum + 0x8000_0000, q, r + 0x8000_0000);
    } else {
      LowBits(sum + 0x8000_0000, q + 1, r - 0x8000_0000);
    }
  }

  lemma LowBits(n: int, q: int, r: int)
    requires n == q * 0x1_0000_0000 + r && 0 <= r < 0x1_0000_0000
    ensures n % 0x1_0000_0000 == r
  {
  }

  // A selection of open rows is accepted exactly when the plain sum of every product, which the service never
  // looks at, leaves a remainder modulo 2^32 that is a positive int32.
  lemma CreateTaskAcceptedIff(s: State, captain: int, store: int, selected: seq<nat>)
    requires Inv(s)
    ensures DoCreateTask(s, captain, store, selected) != s <==>
      && Selectable(s, store, selected)
      && forall p :: p in Products(s.items, selected) ==> LooksPositive(PlainQuantity(s.items, selected, p))
  {
    if Selectable(s, store, selected) {
      NoRowIsSelected(s, store, selected);
      var products, added := Products(s.items, selected), NewTaskItems(s.items, selected, |s.tasks|);
      forall k | 0 <= k < |added|
        ensures added[k].required > 0 <==> LooksPositive(PlainQuantity(s.items, selected, products[k]))
      {
        GroupWraps(s.items, selected, products[k]);
        WrapPositiveIff(PlainQuantity(s.items, selected, products[k]));
      }
      AllProducts(s.items, selected, added);
    }
  }

  lemma AllProducts(items: map<nat, Item>, selected: seq<nat>, added: seq<TaskItem>)
    requires forall k :: 0 <= k < |selected| ==> selected[k] in items
    requires var products := Products(items, selected);
             |added| == |products|
             && forall k :: 0 <= k < |added| ==>
                  (added[k].required > 0 <==> LooksPositive(PlainQuantity(items, selected, products[k])))
    ensures (forall k :: 0 <= k < |added| ==> added[k].required > 0) <==>
            (forall p :: p in Products(items, selected) ==> LooksPositive(PlainQuantity(items, selected, p)))
  {
    var products := Products(items, selected);
    if forall p :: p in products ==> LooksPositive(PlainQuantity(items, selected, p)) {
      forall k | 0 <= k < |added| ensures added[k].required > 0 { assert products[k] in products; }
    }
  }

  lemma NoRowIsSelected(s: State, store: int, selected: seq<nat>)
    requires Inv(s) && Selectable(s, store, selected)
    ensures forall k, l :: 0 <= k < |selected| && 0 <= l < |s.assignments| ==> s.assignments[l].item != selected[k]
  {
    forall k, l | 0 <= k < |selected| && 0 <= l < |s.assignments| ensures s.assignments[l].item != selected[k] {
      assert RowOk(s, s.assignments[l]) && ItemOk(s, selected[k]);
      assert HasRow(s, s.assignments[l].item);
    }
  }

  // ------------------------------------------------------------------ a wrong total is reachable

  const BIG := [Draft(7, INT32_MAX, 0, 0)]
  const FEW := [Draft(7, 3, 0, 0)]
  const ASKED: map<nat, Item> := map[
    0 := Item(0, 1, 1, 7, INT32_MAX, 0, 0, Open),
    1 := Item(1, 2, 1, 7, INT32_MAX, 0, 0, Open),
    2 := Item(2, 3, 1, 7, 3, 0, 0, Open)]
  const ASKING := State(
    [Demand(1, 1, Open, None, None), Demand(2, 1, Open, None, None), Demand(3, 1, Open, None, None)],
    ASKED, 3, [], [], [], [])
  const ASKS := [CreateDemand(1, 1, BIG), CreateDemand(2, 1, BIG), CreateDemand(3, 1, FEW)]

  lemma OneNewItem(d: Draft, demand: nat, requester: int, store: int, first: nat)
    ensures NewItems([d], demand, requester, store, first) == map[first := NewItem(d, demand, requester, store)]
  {
    assert [d][..0] == [];
  }

  const ASKED_ONE := State([ASKING.demands[0]], map[0 := ASKED[0]], 1, [], [], [], [])
  const ASKED_TWO := State(ASKING.demands[..2], map[0 := ASKED[0], 1 := ASKED[1]], 2, [], [], [], [])

  lemma AskOnce()
    ensures Next(EMPTY, ASKS[0]) == ASKED_ONE
  {
    OneNewItem(BIG[0], 0, 1, 1, 0);
  }

  lemma AskTwice()
    ensures Next(ASKED_ONE, ASKS[1]) == ASKED_TWO
  {
    OneNewItem(BIG[0], 1, 2, 1, 1);
  }

  lemma AskAgain()
    ensures Next(ASKED_TWO, ASKS[2]) == ASKING
  {
    OneNewItem(FEW[0], 2, 3, 1, 2);
  }

  lemma AskingIsReached()
    ensures Runs(EMPTY, ASKS) == ASKING
  {
    AskOnce();
    AskTwice();
    AskAgain();
    RunsThrough(EMPTY, [], ASKS[0]);
    RunsThrough(EMPTY, [ASKS[0]], ASKS[1]);
    RunsThrough(EMPTY, [ASKS[0], ASKS[1]], ASKS[2]);
    assert [] + [ASKS[0]] == [ASKS[0]] && [ASKS[0]] + [ASKS[1]] == [ASKS[0], ASKS[1]];
    assert [ASKS[0], ASKS[1]] + [ASKS[2]] == ASKS;
  }

  lemma SelectMore(items: map<nat, Item>, selected: seq<nat>, i: nat, product: int)
    requires i in items && forall k :: 0 <= k < |selected| ==> selected[k] in items
    ensures PlainQuantity(items, selected + [i], product)
         == PlainQuantity(items, selected, product) + if items[i].product == product then items[i].quantity else 0
    ensures Products(items, selected + [i])
         == Products(items, selected) + if items[i].product in Products(items, selected) then [] else [items[i].product]
  {
    assert (selected + [i])[..|selected|] == selected;
  }

  lemma PlainTotal()
    ensures PlainQuantity(ASKED, [0, 1, 2], 7) == 0x1_0000_0001 && Products(ASKED, [0, 1, 2]) == [7]
  {
    SelectMore(ASKED, [], 0, 7);
    SelectMore(ASKED, [0], 1, 7);
    SelectMore(ASKED, [0, 1], 2, 7);
    assert [] + [0] == [0] && [0] + [1] == [0, 1] && [0, 1] + [2] == [0, 1, 2];
  }

  const CREATED := DoCreateTask(ASKING, 4, 1, [0, 1, 2])

  lemma AskingInv()
    ensures Inv(ASKING)
  {
    AskingIsReached();
    EmptyInv();
    RunsKeep(EMPTY, ASKS);
  }

  lemma OverflowIsAccepted()
    ensures CREATED != ASKING && Builds(ASKING, CREATED, [0, 1, 2])
  {
    AskingInv();
    PlainTotal();
    CreateTaskAcceptedIff(ASKING, 4, 1, [0, 1, 2]);
    assert Selectable(ASKING, 1, [0, 1, 2]);
    CreateTaskBuilds(ASKING, 4, 1, [0, 1, 2]);
  }

  lemma OverflowedList()
    ensures CREATED.tasks == [Task(4, 1, TaskShopping, 0)] && CREATED.taskItems == [TaskItem(0, 7, 1, None, None)]
    ensures CREATED.assignments == NewAssignments(ASKED, [0, 1, 2], 0, 0)
  {
    OverflowIsAccepted();
    PlainTotal();
    GroupWraps(ASKED, [0, 1, 2], 7);
  }

  lemma OverflowedSum()
    ensures SumQuantity(CREATED.assignments, CREATED.items, 0) == 0x1_0000_0001
  {
    OverflowIsAccepted();
    OverflowedList();
    PlainTotal();
    SelectedKeepQuantity(ASKING, CREATED, [0, 1, 2]);
    NewRowsSums(ASKED, CREATED.items, [0, 1, 2], 0, 0, 0);
  }

  // A run in which three requests for 2^32 + 1 units in all become a task with a single unit to buy.
  lemma OverflowedTask() returns (trace: seq<Step>)
    ensures Runs(EMPTY, trace) == CREATED
    ensures CREATED.tasks == [Task(4, 1, TaskShopping, 0)] && CREATED.taskItems == [TaskItem(0, 7, 1, None, None)]
    ensures SumQuantity(CREATED.assignments, CREATED.items, 0) == 0x1_0000_0001
  {
    var create := CreateTask(4, 1, [0, 1, 2]);
    trace := ASKS + [create];
    AskingIsReached();
    RunsThrough(EMPTY, ASKS, create);
    assert Next(ASKING, create) == CREATED;
    OverflowedList();
    OverflowedSum();
  }
}
