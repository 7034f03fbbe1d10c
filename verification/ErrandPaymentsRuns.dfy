// Two runs from empty tables to a completed errand task with an item that is not completed. A buyer (2) and the
// captain (1) each ask for one unit of a product.
module ErrandPaymentsRuns {
  import opened Common
  import opened Errand
  import opened ErrandSafety
  import opened ErrandPayments
  import Theorems = ErrandPaymentsTheorems
  import P = PaymentBills

  const WANTED := Draft(7, 1, 0, 100)

  function Row(demand: nat, requester: int, phase: Phase): Item {
    Item(demand, requester, 5, 7, 1, 0, 100, phase)
  }

  // The errand tables once the task exists: phases of the two items, status, purchase, price, shares and bill.
  function Two(
      p0: Phase, p1: Phase, status: TaskStatus, bought: Option<int>, price: Option<int>, d0: Option<int>,
      d1: Option<int>,
      bill: Option<nat>, confirms: seq<Confirm>): State
  {
    State(
      [Demand(2, 5, p0, Some(0), None), Demand(1, 5, p1, Some(0), None)],
      map[0 := Row(0, 2, p0), 1 := Row(1, 1, p1)], 2,
      [Task(1, 5, status, 0)], [TaskItem(0, 7, 2, bought, price)],
      [Assignment(0, 0, 0, 2, 0, d0, bill), Assignment(0, 0, 1, 1, 0, d1, None)], confirms)
  }

  // ------------------------------------------------------------------ up to a task

  const ASKED_ONE := State([Demand(2, 5, Open, None, None)], map[0 := Row(0, 2, Open)], 1, [], [], [], [])
  const ASKED_TWO := State(
    [Demand(2, 5, Open, None, None), Demand(1, 5, Open, None, None)],
    map[0 := Row(0, 2, Open), 1 := Row(1, 1, Open)], 2, [], [], [], [])
  const SHOPPING := Two(Shopping, Shopping, TaskShopping, None, None, None, None, None, [])

  lemma OneNewItem(demand: nat, requester: int, first: nat)
    ensures NewItems([WANTED], demand, requester, 5, first) == map[first := Row(demand, requester, Open)]
  {
    assert [WANTED][..0] == [];
  }

  lemma Asks()
    ensures DoCreateDemand(EMPTY, 2, 5, [WANTED]) == ASKED_ONE
    ensures DoCreateDemand(ASKED_ONE, 1, 5, [WANTED]) == ASKED_TWO
  {
    OneNewItem(0, 2, 0);
    OneNewItem(1, 1, 1);
  }

  lemma Groups(items: map<nat, Item>)
    requires items == ASKED_TWO.items
    ensures Products(items, [0, 1]) == [7] && GroupQuantity(items, [0, 1], 7) == 2
  {
    assert [0, 1][..1] == [0] && [0][..0] == [];
    assert Products(items, [0]) == [7] && GroupQuantity(items, [0], 7) == 1;
  }

  lemma NoPartials(items: map<nat, Item>)
    requires items == ASKED_TWO.items
    ensures Partials(items, [0, 1], 2) == [] && Touched(items, [0, 1], 0) && Touched(items, [0, 1], 1)
  {
    assert [0, 1][0] == 0 && [0, 1][1] == 1;
    assert !Partial(items, [0, 1], 0) && !Partial(items, [0, 1], 1);
    assert Partials(items, [0, 1], 0) == [] && Partials(items, [0, 1], 1) == [];
  }

  lemma TaskRows()
    ensures NewTaskItems(ASKED_TWO.items, [0, 1], 0) == SHOPPING.taskItems
    ensures NewAssignments(ASKED_TWO.items, [0, 1], 0, 0) == SHOPPING.assignments
  {
    Groups(ASKED_TWO.items);
  }

  lemma TaskDemands()
    ensures SyncedDemands(ASKED_TWO, [0, 1], 0) == SHOPPING.demands
    ensures forall i :: i in ASKED_TWO.items ==> SyncedItem(ASKED_TWO, [0, 1], i) == SHOPPING.items[i]
  {
    NoPartials(ASKED_TWO.items);
  }

  lemma TaskItems()
    ensures (map i | i in ASKED_TWO.items :: SyncedItem(ASKED_TWO, [0, 1], i)) == SHOPPING.items
  {
    TaskDemands();
  }

  lemma IsSelectable()
    ensures Selectable(ASKED_TWO, 5, [0, 1])
  {
  }

  lemma Creates()
    ensures DoCreateTask(ASKED_TWO, 1, 5, [0, 1]) == SHOPPING
  {
    IsSelectable();
    TaskRows();
    TaskDemands();
    TaskItems();
  }

  // ------------------------------------------------------------------ bulk updates

  function Going(p: Phase, from: set<Phase>, to: Phase): Phase {
    if p in from then to else p
  }

  // Both rows belong to the task.
  ghost predicate Paired(s: State) {
    && |s.demands| == 2 && s.items.Keys == {0, 1} && s.items[0].demand == 0 && s.items[1].demand == 1
    && |s.assignments| == 2 && s.assignments[0].task == 0 && s.assignments[1].task == 0
    && s.assignments[0].item == 0 && s.assignments[1].item == 1
  }

  lemma BothLinked(s: State)
    requires Paired(s)
    ensures AssignedTo(s, 0, 0) && AssignedTo(s, 0, 1) && LinkedDemand(s, 0, 0) && LinkedDemand(s, 0, 1)
  {
    assert s.assignments[0].item in s.items && s.assignments[1].item in s.items;
  }

  lemma MovedDemands(s: State, from: set<Phase>, to: Phase)
    requires Paired(s)
    ensures Moved(s, 0, from, to).demands == [s.demands[0].(status := Going(s.demands[0].status, from, to)),
                                              s.demands[1].(status := Going(s.demands[1].status, from, to))]
  {
    BothLinked(s);
  }

  lemma MovedItems(s: State, from: set<Phase>, to: Phase)
    requires Paired(s)
    ensures Moved(s, 0, from, to).items == map[0 := s.items[0].(status := Going(s.items[0].status, from, to)),
                                               1 := s.items[1].(status := Going(s.items[1].status, from, to))]
  {
    BothLinked(s);
  }

  lemma MovesTwo(
      p: Phase, status: TaskStatus, bought: Option<int>, price: Option<int>, d0: Option<int>, d1: Option<int>,
      bill: Option<nat>,
      from: set<Phase>, to: Phase)
    ensures Moved(Two(p, p, status, bought, price, d0, d1, bill, []), 0, from, to)
         == Two(Going(p, from, to), Going(p, from, to), status, bought, price, d0, d1, bill, [])
  {
    var s := Two(p, p, status, bought, price, d0, d1, bill, []);
    MovedDemands(s, from, to);
    MovedItems(s, from, to);
    MovedOnly(s, from, to);
  }

  lemma MovedOnly(s: State, from: set<Phase>, to: Phase)
    ensures var t := Moved(s, 0, from, to); t == s.(demands := t.demands, items := t.items)
  {
  }

  lemma SumTwo(s: State)
    requires |s.assignments| == 2 && s.assignments[0].taskItem == 0 && s.assignments[1].taskItem == 0
    ensures SumDistributed(s.assignments, 0) == Given(s.assignments[0]) + Given(s.assignments[1])
  {
    assert s.assignments[..1] == [s.assignments[0]] && [s.assignments[0]][..0] == [];
    assert SumDistributed([s.assignments[0]], 0) == Given(s.assignments[0]);
  }

  // ------------------------------------------------------------------ shopping and distribution

  // The steps from shopping to a full distribution, when so much was bought and shared out.
  lemma Shops(bought: nat)
    requires bought <= 2
    ensures DoSavePurchased(SHOPPING, 1, 0, bought)
              == Two(Shopping, Shopping, TaskShopping, Some(bought), None, None, None, None, [])
  {
  }

  lemma Packs(bought: nat)
    ensures DoToPendingDistributing(Two(Shopping, Shopping, TaskShopping, Some(bought), None, None, None, None, []), 1,
              0)
         == Two(PendingDistributing, PendingDistributing, TaskPendingDistributing, Some(bought), None, None, None,
             None, [])
  {
    var s := Two(Shopping, Shopping, TaskShopping, Some(bought), None, None, None, None, []);
    MovesTwo(Shopping, TaskShopping, Some(bought), None, None, None, None, {Shopping}, PendingDistributing);
    assert s.taskItems[0].task == 0;
  }

  lemma Prices(bought: nat)
    requires bought > 0
    ensures DoSetPrice(Two(PendingDistributing, PendingDistributing, TaskPendingDistributing, Some(bought), None, None,
              None, None, []), 1, 0, 100)
         == Two(PendingDistributing, PendingDistributing, TaskPendingDistributing, Some(bought), Some(100), None, None,
             None, [])
  {
  }

  lemma Opens(bought: nat)
    ensures DoToDistributing(Two(PendingDistributing, PendingDistributing, TaskPendingDistributing, Some(bought),
              Some(100), None, None, None, []), 1, 0, 0)
         == Two(Distributing, Distributing, TaskDistributing, Some(bought), Some(100), None, None, None, [])
  {
    MovesTwo(PendingDistributing, TaskPendingDistributing, Some(bought), Some(100), None, None, None,
        {PendingDistributing}, Distributing);
  }

  lemma Shares(bought: nat, first: nat)
    requires first <= 1 && first + 1 == bought
    ensures DoSaveDistributed(Two(Distributing, Distributing, TaskDistributing, Some(bought), Some(100), None, None,
              None, []), 1, 0, first)
         == Two(Distributing, Distributing, TaskDistributing, Some(bought), Some(100), Some(first), None, None, [])
    ensures DoSaveDistributed(Two(Distributing, Distributing, TaskDistributing, Some(bought), Some(100), Some(first),
              None, None, []), 1, 1, 1)
         == Two(Distributing, Distributing, TaskDistributing, Some(bought), Some(100), Some(first), Some(1), None, [])
  {
    SumTwo(Two(Distributing, Distributing, TaskDistributing, Some(bought), Some(100), None, None, None, []));
    SumTwo(Two(Distributing, Distributing, TaskDistributing, Some(bought), Some(100), Some(first), None, None, []));
  }

  function Shared(bought: nat, first: nat): State {
    Two(Distributing, Distributing, TaskDistributing, Some(bought), Some(100), Some(first), Some(1), None, [])
  }

  lemma SharedFully(bought: nat, first: nat)
    requires first <= 1 && first + 1 == bought
    ensures Mine(Shared(bought, first), 1, 0, TaskDistributing) && FullyDistributed(Shared(bought, first), 0)
  {
    SumTwo(Shared(bought, first));
    assert Shared(bought, first).taskItems[0].task == 0;
  }

  // ------------------------------------------------------------------ the moves so far

  lemma {:induction false} AftersThrough(w: Whole, moves: seq<Move>, move: Move)
    ensures Afters(w, moves + [move]) == After(Afters(w, moves), move)
    decreases |moves|
  {
    if moves == [] {
      assert [move][1..] == [] && moves + [move] == [move];
    } else {
      AftersThrough(After(w, moves[0]), moves[1..], move);
      assert (moves + [move])[1..] == moves[1..] + [move];
    }
  }

  lemma Extend(moves: seq<Move>, from: Whole, move: Move, to: Whole) returns (longer: seq<Move>)
    requires Afters(NOTHING, moves) == from && After(from, move) == to
    ensures Afters(NOTHING, longer) == to && longer == moves + [move]
  {
    longer := moves + [move];
    AftersThrough(NOTHING, moves, move);
  }

  // No call, bill or notice yet.
  function Bare(s: State): Whole {
    Whole(s, [], 0, [], [], {})
  }

  ghost predicate AllWithin(moves: seq<Move>) {
    forall k :: 0 <= k < |moves| ==> moves[k].Within?
  }

  lemma ExtendBare(moves: seq<Move>, from: State, step: Step, to: State) returns (longer: seq<Move>)
    requires Afters(NOTHING, moves) == Bare(from) && AllWithin(moves) && Inner(step) && Next(from, step) == to
    ensures Afters(NOTHING, longer) == Bare(to) && AllWithin(longer)
  {
    longer := Extend(moves, Bare(from), Within(step), Bare(to));
    assert longer == moves + [Within(step)];
  }

  lemma RunToShopping() returns (moves: seq<Move>)
    ensures Afters(NOTHING, moves) == Bare(SHOPPING) && AllWithin(moves)
  {
    Asks();
    Creates();
    moves := ExtendBare([], EMPTY, CreateDemand(2, 5, [WANTED]), ASKED_ONE);
    moves := ExtendBare(moves, ASKED_ONE, CreateDemand(1, 5, [WANTED]), ASKED_TWO);
    moves := ExtendBare(moves, ASKED_TWO, CreateTask(1, 5, [0, 1]), SHOPPING);
  }

  lemma RunToDistributing(bought: nat) returns (moves: seq<Move>)
    requires 1 <= bought <= 2
    ensures Afters(NOTHING, moves)
              == Bare(Two(Distributing, Distributing, TaskDistributing, Some(bought), Some(100), None, None, None, []))
    ensures AllWithin(moves)
  {
    moves := RunToShopping();
    Shops(bought);
    Packs(bought);
    Prices(bought);
    Opens(bought);
    var s1 := Two(Shopping, Shopping, TaskShopping, Some(bought), None, None, None, None, []);
    var s2 := Two(PendingDistributing, PendingDistributing, TaskPendingDistributing, Some(bought), None, None, None,
        None, []);
    var s3 := Two(PendingDistributing, PendingDistributing, TaskPendingDistributing, Some(bought), Some(100), None,
        None, None, []);
    moves := ExtendBare(moves, SHOPPING, SavePurchased(1, 0, bought), s1);
    moves := ExtendBare(moves, s1, ToPendingDistributing(1, 0), s2);
    moves := ExtendBare(moves, s2, SetPrice(1, 0, 100), s3);
    moves := ExtendBare(moves, s3, ToDistributing(1, 0, 0),
        Two(Distributing, Distributing, TaskDistributing, Some(bought), Some(100), None, None, None, []));
  }

  lemma RunToShared(bought: nat, first: nat) returns (moves: seq<Move>)
    requires first <= 1 && first + 1 == bought
    ensures Afters(NOTHING, moves) == Bare(Shared(bought, first)) && AllWithin(moves)
  {
    moves := RunToDistributing(bought);
    Shares(bought, first);
    var s4 := Two(Distributing, Distributing, TaskDistributing, Some(bought), Some(100), None, None, None, []);
    var s5 := Two(Distributing, Distributing, TaskDistributing, Some(bought), Some(100), Some(first), None, None, []);
    moves := ExtendBare(moves, s4, SaveDistributed(1, 0, first), s5);
    moves := ExtendBare(moves, s5, SaveDistributed(1, 1, 1), Shared(bought, first));
  }

  // ------------------------------------------------------------------ completed without bills

  lemma NoDrafts()
    ensures Chargees(Shared(1, 0).assignments, 0, 1) == []
  {
    var rows := Shared(1, 0).assignments;
    assert rows[..1] == [rows[0]] && [rows[0]][..0] == [];
    assert Chargees([rows[0]], 0, 1) == [];
  }

  lemma CompletesAtOnce()
    ensures DoCompleteWithoutBills(Shared(1, 0), 1, 0)
         == Two(Distributing, Distributing, TaskCompleted, Some(1), Some(100), Some(0), Some(1), None, [])
  {
    SharedFully(1, 0);
    MovesTwo(Distributing, TaskDistributing, Some(1), Some(100), Some(0), Some(1), None, {PendingPayment, Completed},
        Completed);
  }

  // One unit was bought and the captain took it: nobody is billed, the task is completed, and both items are
  // left distributing.
  lemma RunWithoutBills() returns (moves: seq<Move>)
    ensures var s := Afters(NOTHING, moves).errand;
            && s.tasks == [Task(1, 5, TaskCompleted, 0)] && s.items.Keys == {0, 1}
            && s.items[0].status == Distributing && s.items[1].status == Distributing
            && |s.assignments| == 2 && s.assignments[0].item == 0 && s.assignments[1].item == 1
            && s.assignments[0].task == 0 && s.assignments[1].task == 0
  {
    moves := RunToShared(1, 0);
    NoDrafts();
    CompletesAtOnce();
    var w := Bare(Shared(1, 0));
    var read := w.(calls := [Call(1, 0, [], [])]);
    moves := Extend(moves, w, ReadDrafts(1, 0), read);
    moves := Extend(moves, read, Transition(0), read.(errand := DoCompleteWithoutBills(Shared(1, 0), 1, 0)));
  }

  // ------------------------------------------------------------------ completed by the callback

  const COLLECTING := Two(PendingPayment, PendingPayment, CollectingPayment, Some(2), Some(100), Some(1), Some(1),
      Some(0), [])
  const PAID_ONE := Two(Completed, PendingPayment, CollectingPayment, Some(2), Some(100), Some(1), Some(1), Some(0),
      [Confirm([0])])

  function BillAt(status: P.BillStatus, version: nat): P.Bill {
    P.Bill(P.ErrandTaskSource(0), 2, 1, 100, status, version)
  }

  lemma OneDraft()
    ensures Chargees(Shared(2, 1).assignments, 0, 1) == [2]
  {
    var rows := Shared(2, 1).assignments;
    assert rows[..1] == [rows[0]] && [rows[0]][..0] == [];
    assert Chargees([rows[0]], 0, 1) == [2];
  }

  lemma BindsOne()
    ensures Bound(Shared(2, 1).assignments, 0, [(2, 0)]) == COLLECTING.assignments
    ensures EveryPayerOwes(Shared(2, 1).assignments, 0, [(2, 0)])
  {
    var rows, bills := Shared(2, 1).assignments, [(2, 0)];
    assert bills[..0] == [] && Bound(rows, 0, []) == rows;
    assert Billable(rows[0], 0, 2) && !Billable(rows[1], 0, 2);
  }

  lemma StartsCollecting()
    ensures DoToCollecting(Shared(2, 1), 1, 0, [(2, 0)]) == COLLECTING
  {
    SharedFully(2, 1);
    BindsOne();
    MovesTwo(Distributing, TaskDistributing, Some(2), Some(100), Some(1), Some(1), None, {Distributing},
        PendingPayment);
  }

  const READ := COLLECTING.(confirms := [Confirm([0])])

  lemma ReadsOne()
    ensures PayerItems(COLLECTING.assignments, 0, 2) == [0] && DoReadConfirm(COLLECTING, 0, 2) == READ
  {
    var rows := COLLECTING.assignments;
    assert rows[..1] == [rows[0]] && [rows[0]][..0] == [];
    assert PayerItems([rows[0]], 0, 2) == [0];
  }

  lemma PaysItem()
    ensures PaidItems(READ.items, [0]) == PAID_ONE.items
  {
    var ids: seq<nat> := [0];
    assert ids[0] == 0 && 0 in ids && 1 !in ids;
  }

  lemma PaysDemand()
    ensures HasOne(PAID_ONE.items, [0], 0) && !HasOne(PAID_ONE.items, [0], 1) && AllDone(PAID_ONE.items, 0)
  {
    var ids: seq<nat> := [0];
    assert ids[0] == 0 && 0 in ids && 1 !in ids;
    assert HasOne(PAID_ONE.items, ids, 0) && !HasOne(PAID_ONE.items, ids, 1);
  }

  lemma AppliesOne()
    ensures DoApplyConfirm(READ, 0) == PAID_ONE
  {
    PaysItem();
    PaysDemand();
  }

  lemma PaysOne()
    ensures PayerItems(COLLECTING.assignments, 0, 2) == [0]
    ensures ConfirmPayer(COLLECTING, 0, 2) == PAID_ONE
  {
    ReadsOne();
    AppliesOne();
  }

  const SHARED_TWO := Bare(Shared(2, 1))
  const DRAFTED := SHARED_TWO.(calls := [Call(1, 0, [2], [])])
  const BILLED := DRAFTED.(bills := [BillAt(P.Unpaid, 0)], clock := 1, calls := [Call(1, 0, [2], [0])])
  const OPENED := BILLED.(errand := COLLECTING)
  const SUBMITTED := OPENED.(bills := [BillAt(P.Submitted, 1)], clock := 2)
  const CONFIRMED := OPENED.(bills := [BillAt(P.Completed, 2)], clock := 3, notices := [Notice(0, 2, Told)])
  const TOLD := CONFIRMED.(errand := PAID_ONE, notices := [Notice(0, 2, Applied)], applied := {(0, 2)})
  const COUNTED := TOLD.(notices := [Notice(0, 2, Counted)])

  lemma Drafts()
    ensures After(SHARED_TWO, ReadDrafts(1, 0)) == DRAFTED
    ensures After(DRAFTED, BillNext(0, 100)) == BILLED
  {
    OneDraft();
    assert P.FindLive([], P.ErrandTaskSource(0), 2).None?;
    assert [] + [BillAt(P.Unpaid, 0)] == [BillAt(P.Unpaid, 0)] && [] + [0] == [0];
  }

  lemma OpensCollection()
    ensures After(BILLED, Transition(0)) == OPENED
  {
    StartsCollecting();
    assert Pairs([2], [0]) == [(2, 0)];
  }

  lemma Confirms()
    ensures After(OPENED, UseBill(0, P.Pay)) == SUBMITTED && After(SUBMITTED, UseBill(0, P.Confirm)) == CONFIRMED
  {
  }

  lemma TellsAndCounts()
    ensures After(CONFIRMED, Tell(0)) == TOLD && After(TOLD, Count(0)) == COUNTED
  {
    PaysOne();
  }

  lemma RunToBilled() returns (moves: seq<Move>)
    ensures Afters(NOTHING, moves) == BILLED
  {
    moves := RunToShared(2, 1);
    Drafts();
    moves := Extend(moves, SHARED_TWO, ReadDrafts(1, 0), DRAFTED);
    moves := Extend(moves, DRAFTED, BillNext(0, 100), BILLED);
  }

  lemma RunToCounted() returns (moves: seq<Move>)
    ensures Afters(NOTHING, moves) == COUNTED
  {
    moves := RunToBilled();
    OpensCollection();
    Confirms();
    TellsAndCounts();
    moves := Extend(moves, BILLED, Transition(0), OPENED);
    moves := Extend(moves, OPENED, UseBill(0, P.Pay), SUBMITTED);
    moves := Extend(moves, SUBMITTED, UseBill(0, P.Confirm), CONFIRMED);
    moves := Extend(moves, CONFIRMED, Tell(0), TOLD);
    moves := Extend(moves, TOLD, Count(0), COUNTED);
  }

  // Both units were bought and shared out, the buyer's bill is paid, confirmed and told, and the callback
  // completes the task: the captain's own item waits for a payment nobody will make.
  lemma RunByCallback() returns (moves: seq<Move>)
    ensures Afters(NOTHING, moves) == COUNTED && Theorems.AllSettled(COUNTED, 0) && Theorems.DraftsUpToDate(COUNTED, 0)
    ensures var s := After(COUNTED, Announce(0)).errand;
            && s.tasks == [Task(1, 5, TaskCompleted, 0)] && s.items.Keys == {0, 1}
            && s.items[0].status == Completed && s.items[1].status == PendingPayment
            && |s.assignments| == 2 && s.assignments[1].item == 1 && s.assignments[1].task == 0
  {
    moves := RunToCounted();
    SettledAndUpToDate();
    assert After(COUNTED, Announce(0)).errand == PAID_ONE.(tasks := [Task(1, 5, TaskCompleted, 0)]);
  }

  lemma SettledAndUpToDate()
    ensures Theorems.AllSettled(COUNTED, 0) && Theorems.DraftsUpToDate(COUNTED, 0)
  {
    forall p ensures p in [2] <==> Theorems.Owes(PAID_ONE, 0, p) {
      assert Chargeable(PAID_ONE.assignments[0], 0, 1) && !Chargeable(PAID_ONE.assignments[1], 0, 1);
      if p == 2 { assert Theorems.Owes(PAID_ONE, 0, p) by { assert PAID_ONE.assignments[0].purchaser == 2; } }
    }
  }
}
