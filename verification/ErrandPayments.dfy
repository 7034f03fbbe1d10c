// The errand tables together with the bills of paymentservice and the calls between the two services: drafts
// are read before the task is locked, bills are created one call at a time, and a confirmed payment is told to
// the errand service, which may complete the task once no bill is open. Any call may be lost.
module ErrandPayments {
  import opened Common
  import opened Errand
  import P = PaymentBills

  // A transition to collecting under way: the payers its drafts were read for, and the bills made so far.
  datatype Call = Call(captain: int, task: nat, payers: seq<int>, bills: seq<nat>)

  datatype Stage = Told | Applied | Counted | Over

  // What paymentservice does after a payer's bill was confirmed.
  datatype Notice = Notice(task: nat, payer: int, stage: Stage)

  // applied remembers whose confirmation the errand service carried out, for which task.
  datatype Whole = Whole(
    errand: State, bills: seq<P.Bill>, clock: nat, calls: seq<Call>, notices: seq<Notice>, applied: set<(nat, int)>)

  datatype Move =
    | Within(step: Step)
    // the captain
    | ReadDrafts(captain: int, task: nat) | BillNext(call: nat, amount: int) | Transition(call: nat)
    | Complete(captain: int, task: nat) | CloseBills(task: nat)
    // payer and payee, and what their confirmation sets off
    | UseBill(bill: nat, op: P.Op)
    | Tell(notice: nat) | Count(notice: nat) | Announce(notice: nat) | Lose(notice: nat)

  const NOTHING := Whole(EMPTY, [], 0, [], [], {})

  // ------------------------------------------------------------------ making the bills

  // A row the payer has to pay for.
  predicate Chargeable(a: Assignment, task: nat, captain: int) {
    a.task == task && a.distributed.Some? && a.distributed.value > 0 && a.purchaser != captain
  }

  // The purchasers of the rows ListTaskPaymentBillAssignments returns, each once.
  function Chargees(assignments: seq<Assignment>, task: nat, captain: int): seq<int> {
    if assignments == [] then []
    else
      var r := Chargees(assignments[..|assignments| - 1], task, captain);
      var last := assignments[|assignments| - 1];
      if Chargeable(last, task, captain) && last.purchaser !in r then r + [last.purchaser] else r
  }

  function CaptainOf(s: State, task: nat): int {
    if task < |s.tasks| then s.tasks[task].captain else 0
  }

  function DoReadDrafts(w: Whole, captain: int, task: nat): Whole {
    w.(calls := w.calls + [Call(captain, task, Chargees(w.errand.assignments, task, CaptainOf(w.errand, task)), [])])
  }

  // One CreateBillForOrder; the amount is whatever the drafts say.
  function DoBillNext(w: Whole, c: nat, amount: int): Whole {
    if c >= |w.calls| || |w.calls[c].bills| >= |w.calls[c].payers| then w
    else
      var call := w.calls[c];
      var payer := call.payers[|call.bills|];
      var (id, bills) := P.CreateForOrder(
        w.bills, P.ErrandTaskSource(call.task), payer, CaptainOf(w.errand, call.task), amount, w.clock);
      if id.None? then w
      else w.(bills := bills, clock := w.clock + 1, calls := w.calls[c := call.(bills := call.bills + [id.value])])
  }

  function Pairs(payers: seq<int>, bills: seq<nat>): seq<(int, nat)>
    requires |payers| == |bills|
  {
    seq(|payers|, k requires 0 <= k < |payers| => (payers[k], bills[k]))
  }

  predicate ReadyCall(w: Whole, c: nat) {
    c < |w.calls| && |w.calls[c].bills| == |w.calls[c].payers|
  }

  // With no draft there is nothing to collect, and the task is completed at once.
  function DoTransition(w: Whole, c: nat): Whole {
    if !ReadyCall(w, c) then w
    else
      var call := w.calls[c];
      w.(errand := if call.payers == [] then DoCompleteWithoutBills(w.errand, call.captain, call.task)
                   else DoToCollecting(w.errand, call.captain, call.task, Pairs(call.payers, call.bills)))
  }

  // ------------------------------------------------------------------ paying

  function DoUseBill(w: Whole, b: nat, op: P.Op): Whole {
    if b >= |w.bills| || w.bills[b].status != op.From() then w
    else
      var bill := w.bills[b];
      w.(bills := w.bills[b := bill.(status := op.To(), updatedAt := w.clock)], clock := w.clock + 1,
         notices := if op.Confirm? && bill.source.ErrandTaskSource? && bill.source.taskId >= 0
                    then w.notices + [Notice(bill.source.taskId, bill.payerId, Told)] else w.notices)
  }

  predicate Collects(s: State, task: nat) {
    task < |s.tasks| && s.tasks[task].status == CollectingPayment
  }

  predicate IsCompleted(s: State, task: nat) {
    task < |s.tasks| && s.tasks[task].status == TaskCompleted
  }

  // OnErrandTaskPaymentConfirmed as one transaction.
  function ConfirmPayer(s: State, task: nat, payer: int): State {
    DoApplyConfirm(DoReadConfirm(s, task, payer), |s.confirms|)
  }

  function WithStage(w: Whole, n: nat, stage: Stage): Whole
    requires n < |w.notices|
  {
    w.(notices := w.notices[n := w.notices[n].(stage := stage)])
  }

  // The payment is carried out: the task collects and the payer has rows in it.
  predicate Tells(w: Whole, n: nat) {
    && n < |w.notices| && w.notices[n].stage == Told && Collects(w.errand, w.notices[n].task)
    && PayerItems(w.errand.assignments, w.notices[n].task, w.notices[n].payer) != []
  }

  // A task that is already completed is skipped without an error.
  function DoTell(w: Whole, n: nat): Whole {
    if n >= |w.notices| || w.notices[n].stage != Told then w
    else
      var note := w.notices[n];
      if Tells(w, n) then
        WithStage(w, n, Applied).(errand := ConfirmPayer(w.errand, note.task, note.payer),
                                  applied := w.applied + {(note.task, note.payer)})
      else WithStage(w, n, if IsCompleted(w.errand, note.task) then Applied else Over)
  }

  // CountIncompleteBillsBySource.
  predicate AnyOpen(bills: seq<P.Bill>, task: nat) {
    exists b :: 0 <= b < |bills| && bills[b].source == P.ErrandTaskSource(task) && P.Open(bills[b])
  }

  function DoCount(w: Whole, n: nat): Whole {
    if n >= |w.notices| || w.notices[n].stage != Applied then w
    else WithStage(w, n, if AnyOpen(w.bills, w.notices[n].task) then Over else Counted)
  }

  function DoAnnounce(w: Whole, n: nat): Whole {
    if n >= |w.notices| || w.notices[n].stage != Counted then w
    else WithStage(w, n, Over).(errand := DoAllPaymentsConfirmed(w.errand, w.notices[n].task))
  }

  function PaidBills(bills: seq<P.Bill>): set<nat> {
    set b: nat | b < |bills| && bills[b].status == P.Completed
  }

  // The bills of a cancelled task are closed by a call of its own.
  function DoCloseBills(w: Whole, task: nat): Whole {
    if task >= |w.errand.tasks| || w.errand.tasks[task].status != TaskCancelled then w
    else w.(bills := P.CloseBills(w.bills, P.ErrandTaskSource(task), None, w.clock), clock := w.clock + 1)
  }

  // ------------------------------------------------------------------ runs

  // The steps that involve no bill.
  predicate Inner(step: Step) {
    || step.CreateDemand? || step.ReplaceDemand? || step.CancelDemand? || step.CreateTask? || step.SavePurchased?
    || step.ToPendingDistributing? || step.SetPrice? || step.ToDistributing? || step.SaveDistributed?
    || step.CancelTask?
  }

  function After(w: Whole, move: Move): Whole {
    match move
    case Within(step) => if Inner(step) then w.(errand := Next(w.errand, step)) else w
    case ReadDrafts(captain, task) => DoReadDrafts(w, captain, task)
    case BillNext(c, amount) => DoBillNext(w, c, amount)
    case Transition(c) => DoTransition(w, c)
    case Complete(captain, task) => w.(errand := DoToCompleted(w.errand, captain, task, PaidBills(w.bills)))
    case CloseBills(task) => DoCloseBills(w, task)
    case UseBill(b, op) => DoUseBill(w, b, op)
    case Tell(n) => DoTell(w, n)
    case Count(n) => DoCount(w, n)
    case Announce(n) => DoAnnounce(w, n)
    case Lose(n) => if n < |w.notices| then WithStage(w, n, Over) else w
  }

  function Afters(w: Whole, moves: seq<Move>): Whole
    decreases |moves|
  {
    if moves == [] then w else Afters(After(w, moves[0]), moves[1..])
  }

  // What a move does to the errand tables, in steps of the errand model.
  function ErrandSteps(w: Whole, move: Move): seq<Step> {
    match move
    case Within(step) => if Inner(step) then [step] else []
    case Transition(c) =>
      if !ReadyCall(w, c) then []
      else
        var call := w.calls[c];
        if call.payers == [] then [CompleteWithoutBills(call.captain, call.task)]
        else [ToCollecting(call.captain, call.task, Pairs(call.payers, call.bills))]
    case Complete(captain, task) => [ToCompleted(captain, task, PaidBills(w.bills))]
    case Tell(n) =>
      if !Tells(w, n) then []
      else [ReadConfirm(w.notices[n].task, w.notices[n].payer), ApplyConfirm(|w.errand.confirms|)]
    case Announce(n) =>
      if n >= |w.notices| || w.notices[n].stage != Counted then [] else [AllPaymentsConfirmed(w.notices[n].task)]
    case _ => []
  }
}
