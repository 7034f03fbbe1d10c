// The West Pocket collection protocol: one pocket of westpocketservice, the bills it has in
// paymentservice, the worker that holds the pocket's advisory lock, and every remote call and
// user action that is in flight. A step is one database transaction, one remote read or one
// crash; steps interleave freely.
module WestPocket {
  import opened Common
  import opened Split
  import opened PaymentBills

  datatype PocketStatus = Draft | Publishing | Collecting | Settled | Cancelling | Cancelled

  // published is PublishedAt != nil. Members are kept in the order membersTx reads them.
  datatype Pocket = Pocket(
    id: int, ownerId: int, totalCents: int, status: PocketStatus, revision: nat,
    members: seq<Member>, ownerShare: int, receivable: int, published: bool)

  // A remote call to paymentservice. It runs in its own transaction and may outlive the worker
  // that sent it: waiting for the source lock, holding it, holding it with the pocket's state
  // checked, or answered.
  datatype Stage = Waiting | Locked | Authorized | Done(reply: Reply)

  datatype Call = CreateCall(payerId: int, payeeId: int, amountCents: int, stage: Stage) | CancelCall(stage: Stage)

  // The program counter of the job that holds the pocket's advisory lock.
  datatype Run =
    | Idle
    | PublishLoop(rows: seq<Member>, i: nat)
    | PublishWait(rows: seq<Member>, i: nat, call: nat)
    | PublishRecord(rows: seq<Member>, i: nat, bill: nat)
    | CancelWait(call: nat)
    | CancelRefused
    | CancelAccepted

  // A payer or payee request: the bill was read, then the collection state checked, then the
  // guarded update is attempted.
  datatype ActStage = Read | Checked | Over

  datatype Act = Act(op: Op, bill: nat, seen: Bill, stage: ActStage)

  // A Refresh: the pocket and its bill ids were read, then the bills.
  datatype Refresh = Refresh(ids: seq<nat>, collecting: bool, stage: ActStage)

  datatype State = State(
    pocket: Pocket, bills: seq<Bill>, clock: nat, calls: seq<Call>, sourceLock: Option<nat>,
    run: Run, acts: seq<Act>, refreshes: seq<Refresh>)

  datatype Step =
    // the owner's requests
    | SetTotal(actor: int, revision: nat, total: int)
    | SetMembers(actor: int, revision: nat, users: seq<int>)
    | Publish(actor: int, revision: nat)
    | Cancel(actor: int, revision: nat)
    // the worker
    | StartPublish | NextMember | TakeBill | RecordBill | FinishPublish
    | StartCancel | TakeVerdict | ReturnToCollecting | FinishCancel
    | StopRun
    // paymentservice, one call at a time inside the source lock
    | LockSource(call: nat) | Authorize(call: nat) | Apply(call: nat) | FailCall(call: nat)
    // payer and payee
    | ReadBill(op: Op, bill: nat) | CheckCollecting(act: nat) | WriteBill(act: nat)
    // reconciliation
    | ReadPocket | CheckBills(refresh: nat) | Settle(refresh: nat)

  // ------------------------------------------------------------------ the owner's transactions

  predicate Editable(p: Pocket, actor: int, revision: nat) {
    p.ownerId == actor && revision > 0 && p.revision == revision && p.status == Draft
  }

  function NewRows(users: seq<int>): (r: seq<Member>)
    ensures |r| == |users| && forall i :: 0 <= i < |users| ==> r[i] == Member(users[i], 0, None)
  {
    seq(|users|, i requires 0 <= i < |users| => Member(users[i], 0, None))
  }

  predicate UsersOk(users: seq<int>) {
    && 1 <= |users| <= 50
    && (forall i :: 0 <= i < |users| ==> users[i] > 0)
    && (forall i, j :: 0 <= i < j < |users| ==> users[i] != users[j])
  }

  function DoSetTotal(s: State, actor: int, revision: nat, total: int): State {
    if total > 0 && Editable(s.pocket, actor, revision)
    then s.(pocket := s.pocket.(totalCents := total, revision := revision + 1))
    else s
  }

  function DoSetMembers(s: State, actor: int, revision: nat, users: seq<int>): State {
    if UsersOk(users) && Editable(s.pocket, actor, revision)
    then s.(pocket := s.pocket.(members := SortById(NewRows(users)), revision := revision + 1))
    else s
  }

  function DoPublish(s: State, actor: int, revision: nat): State {
    var split := SplitSpec(s.pocket.totalCents, actor, s.pocket.members);
    if Editable(s.pocket, actor, revision) && split.Ok?
    then s.(pocket := s.pocket.(status := Publishing, members := split.value.members,
                                ownerShare := split.value.ownerShare, receivable := split.value.receivable,
                                revision := revision + 1))
    else s
  }

  function DoCancel(s: State, actor: int, revision: nat): State {
    var p := s.pocket;
    if p.ownerId != actor || revision == 0 || p.revision != revision then s
    else if p.status == Settled || p.status == Cancelled || p.status == Cancelling then s
    else if p.status == Draft then s.(pocket := p.(status := Cancelled, revision := revision + 1))
    else s.(pocket := p.(status := Cancelling, revision := revision + 1))
  }

  // ------------------------------------------------------------------ the worker

  function DoStartPublish(s: State): State {
    if s.run == Idle && s.pocket.status == Publishing then s.(run := PublishLoop(s.pocket.members, 0)) else s
  }

  function DoNextMember(s: State): State {
    if !s.run.PublishLoop? || s.run.i >= |s.run.rows| then s
    else
      var row := s.run.rows[s.run.i];
      if row.userId == s.pocket.ownerId then s.(run := PublishLoop(s.run.rows, s.run.i + 1))
      else if s.pocket.status != Publishing then s.(run := Idle)
      else s.(run := PublishWait(s.run.rows, s.run.i, |s.calls|),
              calls := s.calls + [CreateCall(row.userId, s.pocket.ownerId, row.shareCents, Waiting)])
  }

  // The worker's own check of the bill it was handed.
  predicate MatchesRow(b: Bill, p: Pocket, row: Member) {
    && b.payerId == row.userId && b.payeeId == p.ownerId && b.amountCents == row.shareCents
    && b.source == WestPocketSource(p.id) && b.status != Closed
  }

  function DoTakeBill(s: State): State {
    if !s.run.PublishWait? || s.run.call >= |s.calls| || !s.calls[s.run.call].stage.Done? then s
    else
      var reply := s.calls[s.run.call].stage.reply;
      if s.run.i < |s.run.rows| && reply.Created? && MatchesRow(reply.seen, s.pocket, s.run.rows[s.run.i])
      then s.(run := PublishRecord(s.run.rows, s.run.i, reply.billId))
      else s.(run := Idle)
  }

  function SetBill(members: seq<Member>, user: int, bill: nat): (r: seq<Member>)
    ensures |r| == |members|
    ensures forall i :: 0 <= i < |members| ==>
              r[i] == if members[i].userId == user then members[i].(billId := Some(bill)) else members[i]
  {
    seq(|members|, i requires 0 <= i < |members| =>
      if members[i].userId == user then members[i].(billId := Some(bill)) else members[i])
  }

  function DoRecordBill(s: State): State {
    if !s.run.PublishRecord? || s.run.i >= |s.run.rows| then s
    else s.(run := PublishLoop(s.run.rows, s.run.i + 1),
            pocket := s.pocket.(members := SetBill(s.pocket.members, s.run.rows[s.run.i].userId, s.run.bill)))
  }

  function DoFinishPublish(s: State): State {
    if !s.run.PublishLoop? || s.run.i < |s.run.rows| then s
    else if s.pocket.status != Publishing then s.(run := Idle)
    else s.(run := Idle,
        pocket := s.pocket.(status := Collecting, published := true, revision := s.pocket.revision + 1))
  }

  function DoStartCancel(s: State): State {
    if s.run == Idle && s.pocket.status == Cancelling
    then s.(run := CancelWait(|s.calls|), calls := s.calls + [CancelCall(Waiting)])
    else s
  }

  function DoTakeVerdict(s: State): State {
    if !s.run.CancelWait? || s.run.call >= |s.calls| || !s.calls[s.run.call].stage.Done? then s
    else
      match s.calls[s.run.call].stage.reply
      case AllClosed => s.(run := CancelAccepted)
      case Refused => s.(run := CancelRefused)
      case _ => s.(run := Idle)
  }

  function DoReturnToCollecting(s: State): State {
    if s.run != CancelRefused then s
    else if s.pocket.status != Cancelling then s.(run := Idle)
    else s.(run := Idle, pocket := s.pocket.(status := Collecting, revision := s.pocket.revision + 1))
  }

  function DoFinishCancel(s: State): State {
    if s.run != CancelAccepted then s
    else if s.pocket.status != Cancelling then s.(run := Idle)
    else s.(run := Idle, pocket := s.pocket.(status := Cancelled, revision := s.pocket.revision + 1))
  }

  // ------------------------------------------------------------------ paymentservice

  function ToStage(calls: seq<Call>, c: nat, stage: Stage): (r: seq<Call>)
    requires c < |calls|
    ensures |r| == |calls|
  {
    calls[c := calls[c].(stage := stage)]
  }

  // validateWestPocketBill against the state read from westpocketservice.
  predicate BillAllowed(p: Pocket, payer: int, payee: int, amount: int, status: PocketStatus) {
    && p.status == status && p.ownerId == payee && payer != payee && amount > 0
    && exists i :: 0 <= i < |p.members| && p.members[i].userId == payer && p.members[i].shareCents == amount
  }

  function DoLockSource(s: State, c: nat): State {
    if c < |s.calls| && s.calls[c].stage == Waiting && s.sourceLock == None
    then s.(calls := ToStage(s.calls, c, Locked), sourceLock := Some(c))
    else s
  }

  function Answer(s: State, c: nat, reply: Reply): State
    requires c < |s.calls|
  {
    s.(calls := ToStage(s.calls, c, Done(reply)), sourceLock := if s.sourceLock == Some(c) then None else s.sourceLock)
  }

  function DoAuthorize(s: State, c: nat): State {
    if c >= |s.calls| || s.calls[c].stage != Locked then s
    else
      match s.calls[c]
      case CreateCall(payer, payee, amount, _) =>
        if BillAllowed(s.pocket, payer, payee, amount, Publishing)
        then s.(calls := ToStage(s.calls, c, Authorized))
        else Answer(s, c, Failed)
      case CancelCall(_) =>
        if s.pocket.status == Cancelling || s.pocket.status == Cancelled
        then s.(calls := ToStage(s.calls, c, Authorized))
        else Answer(s, c, Refused)
  }

  function CreateIn(s: State, c: nat, payer: int, payee: int, amount: int): State
    requires c < |s.calls|
  {
    var done := CreateOnce(s.bills, WestPocketSource(s.pocket.id), payer, payee, amount, s.clock);
    Answer(s, c, done.0).(bills := done.1, clock := if |done.1| == |s.bills| then s.clock else s.clock + 1)
  }

  function CancelIn(s: State, c: nat): State
    requires c < |s.calls|
  {
    var done := CancelIfUnpaid(s.bills, WestPocketSource(s.pocket.id), s.clock);
    Answer(s, c, done.0).(bills := done.1, clock := if done.0 == Refused then s.clock else s.clock + 1)
  }

  function DoApply(s: State, c: nat): State {
    if c >= |s.calls| || s.calls[c].stage != Authorized then s
    else
      match s.calls[c]
      case CreateCall(payer, payee, amount, _) => CreateIn(s, c, payer, payee, amount)
      case CancelCall(_) => CancelIn(s, c)
  }

  // The transaction is rolled back: an error, a timeout or a crash of paymentservice.
  function DoFailCall(s: State, c: nat): State {
    if c < |s.calls| && !s.calls[c].stage.Done? then Answer(s, c, Failed) else s
  }

  function DoReadBill(s: State, op: Op, id: nat): State {
    if id < |s.bills| then s.(acts := s.acts + [Act(op, id, s.bills[id], Read)]) else s
  }

  function DoCheckCollecting(s: State, a: nat): State {
    if a >= |s.acts| || s.acts[a].stage != Read then s
    else
      var b := s.acts[a].seen;
      var allowed := BillAllowed(s.pocket, b.payerId, b.payeeId, b.amountCents, Collecting);
      s.(acts := s.acts[a := s.acts[a].(stage := if allowed then Checked else Over)])
  }

  function DoWriteBill(s: State, a: nat): State {
    if a >= |s.acts| || s.acts[a].stage != Checked || s.acts[a].bill >= |s.bills| then s
    else
      var act := s.acts[a];
      var over := s.(acts := s.acts[a := act.(stage := Over)]);
      if act.seen.status != act.op.From() then over
      else over.(bills := GuardedUpdate(s.bills, act.bill, act.seen.updatedAt, act.op.To(), s.clock),
          clock := s.clock + 1)
  }

  // ------------------------------------------------------------------ Refresh

  function BillIds(members: seq<Member>): seq<nat> {
    if members == [] then []
    else
      var last := members[|members| - 1];
      BillIds(members[..|members| - 1]) + if last.billId.Some? then [last.billId.value] else []
  }

  function DoReadPocket(s: State): State {
    if s.pocket.status != Collecting && s.pocket.status != Settled then s
    else s.(refreshes := s.refreshes + [Refresh(BillIds(s.pocket.members), s.pocket.status == Collecting, Read)])
  }

  predicate AllPaid(bills: seq<Bill>, ids: seq<nat>) {
    forall k :: 0 <= k < |ids| ==> ids[k] < |bills| && bills[ids[k]].status == Completed
  }

  function DoCheckBills(s: State, r: nat): State {
    if r >= |s.refreshes| || s.refreshes[r].stage != Read then s
    else
      var ref := s.refreshes[r];
      var ready := ref.collecting && ref.ids != [] && AllPaid(s.bills, ref.ids);
      s.(refreshes := s.refreshes[r := ref.(stage := if ready then Checked else Over)])
  }

  function DoSettle(s: State, r: nat): State {
    if r >= |s.refreshes| || s.refreshes[r].stage != Checked then s
    else
      var over := s.(refreshes := s.refreshes[r := s.refreshes[r].(stage := Over)]);
      if s.pocket.status != Collecting then over
      else over.(pocket := s.pocket.(status := Settled, revision := s.pocket.revision + 1))
  }

  // ------------------------------------------------------------------ runs

  function Next(s: State, step: Step): State {
    match step
    case SetTotal(actor, revision, total) => DoSetTotal(s, actor, revision, total)
    case SetMembers(actor, revision, users) => DoSetMembers(s, actor, revision, users)
    case Publish(actor, revision) => DoPublish(s, actor, revision)
    case Cancel(actor, revision) => DoCancel(s, actor, revision)
    case StartPublish => DoStartPublish(s)
    case NextMember => DoNextMember(s)
    case TakeBill => DoTakeBill(s)
    case RecordBill => DoRecordBill(s)
    case FinishPublish => DoFinishPublish(s)
    case StartCancel => DoStartCancel(s)
    case TakeVerdict => DoTakeVerdict(s)
    case ReturnToCollecting => DoReturnToCollecting(s)
    case FinishCancel => DoFinishCancel(s)
    case StopRun => s.(run := Idle)
    case LockSource(c) => DoLockSource(s, c)
    case Authorize(c) => DoAuthorize(s, c)
    case Apply(c) => DoApply(s, c)
    case FailCall(c) => DoFailCall(s, c)
    case ReadBill(op, id) => DoReadBill(s, op, id)
    case CheckCollecting(a) => DoCheckCollecting(s, a)
    case WriteBill(a) => DoWriteBill(s, a)
    case ReadPocket => DoReadPocket(s)
    case CheckBills(r) => DoCheckBills(s, r)
    case Settle(r) => DoSettle(s, r)
  }

  // The pocket as Create leaves it.
  ghost predicate Fresh(s: State) {
    && s.pocket.ownerId > 0 && s.pocket.totalCents > 0 && s.pocket.status == Draft && s.pocket.revision == 1
    && s.pocket.members == [Member(s.pocket.ownerId, 0, None)] && !s.pocket.published
    && s.bills == [] && s.calls == [] && s.sourceLock == None && s.run == Idle && s.acts == [] && s.refreshes == []
  }

  function Runs(s: State, trace: seq<Step>): State
    decreases |trace|
  {
    if trace == [] then s else Runs(Next(s, trace[0]), trace[1..])
  }

  lemma {:induction false} RunsThrough(s: State, trace: seq<Step>, step: Step)
    ensures Runs(s, trace + [step]) == Next(Runs(s, trace), step)
    decreases |trace|
  {
    if trace == [] {
      assert trace + [step] == [step] && [step][1..] == [];
    } else {
      assert (trace + [step])[1..] == trace[1..] + [step];
      RunsThrough(Next(s, trace[0]), trace[1..], step);
    }
  }
}
