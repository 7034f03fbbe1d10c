// publishJob as the worker runs it: a loop over the frozen rows that makes one remote call at
// a time, while everybody else keeps taking steps in between.
module WestPocketWorker {
  import opened Common
  import opened Split
  import opened PaymentBills
  import opened WestPocket
  import opened WestPocketSafety
  import opened WestPocketTheorems

  // The steps the advisory lock leaves to the others while a job holds the pocket.
  predicate Foreign(step: Step) {
    match step
    case StartPublish => false
    case NextMember => false
    case TakeBill => false
    case RecordBill => false
    case FinishPublish => false
    case StartCancel => false
    case TakeVerdict => false
    case ReturnToCollecting => false
    case FinishCancel => false
    case StopRun => false
    case _ => true
  }

  lemma ForeignKeepsRun(s: State, step: Step)
    requires Foreign(step)
    ensures Next(s, step).run == s.run
  {
  }

  // Nobody else sends calls or changes what one asks for.
  lemma ForeignKeepsCalls(s: State, step: Step)
    requires Foreign(step)
    ensures |Next(s, step).calls| == |s.calls|
    ensures forall c :: 0 <= c < |s.calls| ==> SameQuestion(s.calls[c], Next(s, step).calls[c])
  {
  }

  predicate SameQuestion(a: Call, b: Call) {
    match a
    case CreateCall(payer, payee, amount, _) => b.CreateCall? && b == CreateCall(payer, payee, amount, b.stage)
    case CancelCall(_) => b.CancelCall?
  }

  datatype JobEnd = NotMine | Unanswered(call: nat) | Collected

  class Collection {
    var state: State
    ghost const start: State
    ghost var history: seq<Step>

    // The state is the result of a run of a newly created pocket.
    ghost predicate Valid()
      reads this
    {
      Fresh(start) && state == Runs(start, history)
    }

    constructor (s: State)
      requires Fresh(s)
      ensures Valid() && state == s && history == []
    {
      state, start, history := s, s, [];
    }

    method Take(step: Step)
      requires Valid()
      modifies this
      ensures Valid() && state == Next(old(state), step) && history == old(history) + [step]
    {
      RunsThrough(start, history, step);
      state, history := Next(state, step), history + [step];
    }

    // What the owner, the payers, paymentservice and a refresh do meanwhile.
    method Others(steps: seq<Step>)
      requires Valid() && forall k :: 0 <= k < |steps| ==> Foreign(steps[k])
      modifies this
      ensures Valid() && history == old(history) + steps && state.run == old(state).run
      ensures |state.calls| == |old(state).calls|
      ensures forall c :: 0 <= c < |state.calls| ==> SameQuestion(old(state).calls[c], state.calls[c])
    {
      var i := 0;
      while i < |steps|
        invariant Valid() && 0 <= i <= |steps| && history == old(history) + steps[..i] && state.run == old(state).run
        invariant |state.calls| == |old(state).calls|
        invariant forall c :: 0 <= c < |state.calls| ==> SameQuestion(old(state).calls[c], state.calls[c])
      {
        ForeignKeepsRun(state, steps[i]);
        ForeignKeepsCalls(state, steps[i]);
        Take(steps[i]);
        i := i + 1;
      }
    }

    // One turn of the loop: the status is read again, the bill is asked for, and the answer
    // is checked and linked. Other steps run before the read, during the call and after it.
    method BillMember(rows: seq<Member>, i: nat, before: seq<Step>, during: seq<Step>, after: seq<Step>)
      returns (end: Option<JobEnd>)
      requires Valid() && i < |rows| && state.run == PublishLoop(rows, i)
      requires forall k :: 0 <= k < |before| ==> Foreign(before[k])
      requires forall k :: 0 <= k < |during| ==> Foreign(during[k])
      requires forall k :: 0 <= k < |after| ==> Foreign(after[k])
      modifies this
      ensures Valid() && old(history) <= history && |old(state).calls| <= |state.calls|
      ensures end == None ==> state.run == PublishLoop(rows, i + 1)
      ensures end.Some? ==> state.run == Idle && end.value != Collected
      ensures end == Some(NotMine) ==> state.pocket.status != Publishing
      ensures end.Some? && end.value.Unanswered? ==>
                |old(state).calls| <= end.value.call < |state.calls| && NoBill(state.calls[end.value.call])
    {
      Others(before);
      NextSends(state, rows, i);
      Take(NextMember);
      if state.run == Idle { return Some(NotMine); }
      if state.run.PublishLoop? { return None; }
      var call := state.run.call;
      Others(during);
      var got := TakeAnswer(rows, i, call);
      if !got { return Some(Unanswered(call)); }
      Others(after);
      Take(RecordBill);
      end := None;
    }

    // The worker waits no longer: it takes the bill it was answered with, or gives up.
    method TakeAnswer(rows: seq<Member>, i: nat, call: nat) returns (got: bool)
      requires Valid() && state.run == PublishWait(rows, i, call)
      requires i < |rows| && call < |state.calls| && AsksFor(state.calls[call], rows[i])
      modifies this
      ensures Valid() && old(history) <= history && state.calls == old(state).calls
      ensures if got then state.run.PublishRecord? && state.run.rows == rows && state.run.i == i
              else state.run == Idle && NoBill(state.calls[call])
    {
      Reachable(start, history);
      if state.calls[call].stage.Done? {
        CreatedMatches(state, rows, i, call);
        Take(TakeBill);
      } else {
        Take(StopRun);
      }
      got := state.run.PublishRecord?;
    }

    // The worker ends in one of three ways: the pocket was no longer publishing when it
    // looked, a create call brought no bill, or the pocket is collecting and exactly billed.
    method PublishJob(meanwhile: nat -> seq<Step>) returns (end: JobEnd)
      requires Valid() && state.run == Idle
      requires forall n, k :: 0 <= k < |meanwhile(n)| ==> Foreign(meanwhile(n)[k])
      modifies this
      ensures Valid() && state.run == Idle && old(history) <= history
      ensures end == NotMine ==> state.pocket.status != Publishing
      ensures end.Unanswered? ==> |old(state).calls| <= end.call < |state.calls| && NoBill(state.calls[end.call])
      ensures end == Collected ==>
                old(state).pocket.status == Publishing && state.pocket.status == Collecting && ExactlyBilled(state)
    {
      if state.pocket.status != Publishing { return NotMine; }
      Take(StartPublish);
      var rows, i := state.run.rows, 0;
      while i < |rows|
        invariant Valid() && 0 <= i <= |rows| && old(history) <= history && |old(state).calls| <= |state.calls|
        invariant state.run == PublishLoop(rows, i)
      {
        var stopped := BillMember(rows, i, meanwhile(3 * i), meanwhile(3 * i + 1), meanwhile(3 * i + 2));
        if stopped.Some? { return stopped.value; }
        i := i + 1;
      }
      Others(meanwhile(3 * i));
      Take(FinishPublish);
      if state.pocket.status != Collecting { return NotMine; }
      Reachable(start, history);
      PublishedExactly(state);
      end := Collected;
    }

    // cancelJob: the pocket is cancelled with every bill closed, or back to collecting with
    // every bill in place, or still being cancelled because the call brought no verdict.
    method CancelJob(during: seq<Step>, after: seq<Step>) returns (end: CancelEnd)
      requires Valid() && state.run == Idle
      requires forall k :: 0 <= k < |during| ==> Foreign(during[k])
      requires forall k :: 0 <= k < |after| ==> Foreign(after[k])
      modifies this
      ensures Valid() && state.run == Idle && old(history) <= history
      ensures end == NotCancelling <==> old(state).pocket.status != Cancelling
      ensures end == AllCancelled ==> state.pocket.status == Cancelled && EveryBillClosed(state)
      ensures end == Reopened ==> state.pocket.status == Collecting && ExactlyBilled(state)
      ensures end == NoVerdict ==> NoVerdictOn(state.calls, |old(state).calls|)
    {
      if state.pocket.status != Cancelling { return NotCancelling; }
      Take(StartCancel);
      var call := state.run.call;
      Others(during);
      var known := TakeCancelAnswer(call);
      if !known { return NoVerdict; }
      Others(after);
      end := ActOnVerdict();
    }

    method ActOnVerdict() returns (end: CancelEnd)
      requires Valid() && (state.run == CancelRefused || state.run == CancelAccepted)
      modifies this
      ensures Valid() && state.run == Idle && old(history) <= history
      ensures end == if old(state).run == CancelRefused then Reopened else AllCancelled
      ensures end == AllCancelled ==> state.pocket.status == Cancelled && EveryBillClosed(state)
      ensures end == Reopened ==> state.pocket.status == Collecting && ExactlyBilled(state)
    {
      Reachable(start, history);
      end := if state.run == CancelRefused then Reopened else AllCancelled;
      Take(if state.run == CancelRefused then ReturnToCollecting else FinishCancel);
      Reachable(start, history);
      if end == Reopened { PublishedExactly(state); }
    }

    method TakeCancelAnswer(call: nat) returns (known: bool)
      requires Valid() && state.run == CancelWait(call) && call < |state.calls|
      modifies this
      ensures Valid() && old(history) <= history && state.calls == old(state).calls
      ensures if known then state.run == CancelRefused || state.run == CancelAccepted
              else state.run == Idle && NoVerdictOn(state.calls, call)
    {
      if state.calls[call].stage.Done? { Take(TakeVerdict); } else { Take(StopRun); }
      known := state.run != Idle;
    }
  }

  datatype CancelEnd = NotCancelling | NoVerdict | Reopened | AllCancelled

  predicate NoVerdictOn(calls: seq<Call>, c: nat) {
    c < |calls| && !(calls[c].stage.Done? && calls[c].stage.reply in {AllClosed, Refused})
  }

  // The call was refused, or is still running somewhere.
  predicate NoBill(c: Call) {
    c.CreateCall? && !(c.stage.Done? && c.stage.reply.Created?)
  }

  predicate AsksFor(c: Call, row: Member) {
    c.CreateCall? && c.payerId == row.userId && c.amountCents == row.shareCents
  }

  lemma NextSends(s: State, rows: seq<Member>, i: nat)
    requires i < |rows| && s.run == PublishLoop(rows, i)
    ensures var t := DoNextMember(s);
      || (t.run == PublishLoop(rows, i + 1) && t.calls == s.calls)
      || (t.run == Idle && t.calls == s.calls && t.pocket.status != Publishing)
      || (t.run == PublishWait(rows, i, |s.calls|) && |t.calls| == |s.calls| + 1 && AsksFor(t.calls[|s.calls|],
          rows[i]))
  {
  }

  // The worker never rejects a bill it was handed: paymentservice answers what was asked.
  lemma CreatedMatches(s: State, rows: seq<Member>, i: nat, call: nat)
    requires Inv(s) && i < |rows| && call < |s.calls| && s.run == PublishWait(rows, i, call)
    requires s.calls[call].stage.Done?
    requires AsksFor(s.calls[call], rows[i])
    ensures DoTakeBill(s).calls == s.calls
    ensures if NoBill(s.calls[call]) then DoTakeBill(s).run == Idle
            else DoTakeBill(s).run == PublishRecord(rows, i, s.calls[call].stage.reply.billId)
  {
    assert CallInv(s, s.calls[call]);
  }
}
