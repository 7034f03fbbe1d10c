// Whom the bills of a task are payable to, and what a callback that completes a task rests on.
module ErrandPaymentsCallbacks {
  import opened Common
  import opened Errand
  import opened ErrandSafety
  import opened ErrandPayments
  import opened ErrandPaymentsSafety
  import P = PaymentBills

  // ------------------------------------------------------------------ payable to the captain

  // Tasks are only added, and keep their captains.
  ghost predicate CaptainsStay(s: State, t: State) {
    && |s.tasks| <= |t.tasks|
    && forall task :: 0 <= task < |s.tasks| ==> t.tasks[task].captain == s.tasks[task].captain
  }

  lemma StepKeepsCaptains(s: State, step: Step)
    ensures CaptainsStay(s, Next(s, step))
  {
  }

  lemma {:induction false} RunsKeepCaptains(s: State, trace: seq<Step>)
    ensures CaptainsStay(s, Runs(s, trace))
    decreases |trace|
  {
    if trace != [] {
      StepKeepsCaptains(s, trace[0]);
      RunsKeepCaptains(Next(s, trace[0]), trace[1..]);
    }
  }

  // Whoever is asked to pay is asked for a task that exists, and for its captain.
  ghost predicate Payable(w: Whole) {
    && (forall c :: 0 <= c < |w.calls| && w.calls[c].payers != [] ==> w.calls[c].task < |w.errand.tasks|)
    && (forall b :: 0 <= b < |w.bills| ==> PayableTo(w.errand, w.bills[b]))
  }

  ghost predicate PayableTo(s: State, bill: P.Bill) {
    && bill.source.ErrandTaskSource? && 0 <= bill.source.taskId < |s.tasks|
    && bill.payeeId == s.tasks[bill.source.taskId].captain
  }

  lemma {:induction false} SomebodyHasARow(s: State, assignments: seq<Assignment>, task: nat, captain: int)
    requires Chargees(assignments, task, captain) != []
    ensures exists k :: 0 <= k < |assignments| && assignments[k].task == task
  {
    var n := |assignments| - 1;
    if Chargees(assignments[..n], task, captain) != [] {
      SomebodyHasARow(s, assignments[..n], task, captain);
      var k :| 0 <= k < n && assignments[..n][k].task == task;
      assert assignments[k].task == task;
    } else {
      assert assignments[n].task == task;
    }
  }

  lemma ReadingIsPayable(w: Whole, captain: int, task: nat)
    requires Payable(w) && RowsInv(w.errand)
    ensures Payable(DoReadDrafts(w, captain, task))
  {
    var payers := Chargees(w.errand.assignments, task, CaptainOf(w.errand, task));
    if payers != [] {
      SomebodyHasARow(w.errand, w.errand.assignments, task, CaptainOf(w.errand, task));
      var k :| 0 <= k < |w.errand.assignments| && w.errand.assignments[k].task == task;
      assert RowOk(w.errand, w.errand.assignments[k]);
    }
  }

  lemma BillingIsPayable(w: Whole, c: nat, amount: int)
    requires Payable(w)
    ensures Payable(DoBillNext(w, c, amount))
  {
  }

  // Bills keep what they are for, and no call is added.
  ghost predicate NothingAsked(w: Whole, v: Whole) {
    && v.calls == w.calls && |v.bills| == |w.bills|
    && forall b :: 0 <= b < |w.bills| ==>
         v.bills[b].source == w.bills[b].source && v.bills[b].payeeId == w.bills[b].payeeId
  }

  lemma OtherMovesAsk(w: Whole, move: Move)
    requires !move.ReadDrafts? && !move.BillNext?
    ensures NothingAsked(w, After(w, move))
  {
  }

  lemma StillPayable(w: Whole, v: Whole)
    requires Payable(w) && NothingAsked(w, v) && CaptainsStay(w.errand, v.errand)
    ensures Payable(v)
  {
    forall b | 0 <= b < |v.bills| ensures PayableTo(v.errand, v.bills[b]) { assert PayableTo(w.errand, w.bills[b]); }
  }

  lemma MoveIsPayable(w: Whole, move: Move)
    requires WholeInv(w) && Payable(w)
    ensures Payable(After(w, move))
  {
    match move
    case ReadDrafts(captain, task) => ReadingIsPayable(w, captain, task);
    case BillNext(c, amount) => BillingIsPayable(w, c, amount);
    case _ =>
      AfterFollows(w, move);
      RunsKeepCaptains(w.errand, ErrandSteps(w, move));
      OtherMovesAsk(w, move);
      StillPayable(w, After(w, move));
  }

  lemma {:induction false} MovesArePayable(w: Whole, moves: seq<Move>)
    requires WholeInv(w) && Payable(w)
    ensures Payable(Afters(w, moves))
    decreases |moves|
  {
    if moves != [] {
      MoveIsPayable(w, moves[0]);
      MoveKeeps(w, moves[0]);
      MovesArePayable(After(w, moves[0]), moves[1..]);
    }
  }

  // In every reachable state every bill is one of an existing task and payable to its captain.
  lemma BillsGoToTheCaptain(moves: seq<Move>, b: nat)
    requires b < |Afters(NOTHING, moves).bills|
    ensures var w := Afters(NOTHING, moves);
            var bill := w.bills[b];
            && bill.source.ErrandTaskSource? && 0 <= bill.source.taskId < |w.errand.tasks|
            && bill.payeeId == w.errand.tasks[bill.source.taskId].captain
  {
    NothingInv();
    MovesArePayable(NOTHING, moves);
    assert PayableTo(Afters(NOTHING, moves).errand, Afters(NOTHING, moves).bills[b]);
  }

  // ------------------------------------------------------------------ what a notice goes through

  // A confirmed payment is told to the errand service, once; no other use of a bill is.
  lemma NoticeIff(w: Whole, b: nat, op: P.Op)
    requires b < |w.bills| && w.bills[b].source.ErrandTaskSource? && w.bills[b].source.taskId >= 0
    ensures var v := After(w, UseBill(b, op));
            v.notices == if op.Confirm? && w.bills[b].status == P.Submitted
                         then w.notices + [Notice(w.bills[b].source.taskId, w.bills[b].payerId, Told)] else w.notices
  {
  }

  // Being told has an effect exactly while the task collects from the payer; a task that is completed already is
  // counted all the same, and any other is left alone.
  lemma TellingIff(w: Whole, n: nat)
    requires n < |w.notices| && w.notices[n].stage == Told
    ensures var v, note := After(w, Tell(n)), w.notices[n];
            var status := if note.task < |w.errand.tasks| then w.errand.tasks[note.task].status else TaskCancelled;
            var paysFor := exists k :: 0 <= k < |w.errand.assignments| && w.errand.assignments[k].task == note.task
                                       && w.errand.assignments[k].purchaser == note.payer;
            && v.bills == w.bills && |v.notices| == |w.notices|
            && v.notices[n].stage == (if (status == CollectingPayment && paysFor) || status == TaskCompleted
                                      then Applied else Over)
            && ((note.task, note.payer) in v.applied <==>
                  (note.task, note.payer) in w.applied || (status == CollectingPayment && paysFor))
            && (!(status == CollectingPayment && paysFor) ==> v.errand == w.errand)
  {
    HasItems(w.errand.assignments, w.notices[n].task, w.notices[n].payer);
  }

  lemma HasItems(assignments: seq<Assignment>, task: nat, payer: int)
    ensures PayerItems(assignments, task, payer) != []
       <==> exists k :: 0 <= k < |assignments| && assignments[k].task == task && assignments[k].purchaser == payer
  {
    var items := PayerItems(assignments, task, payer);
    if items != [] { assert items[0] in items; }
    forall k | 0 <= k < |assignments| && assignments[k].task == task && assignments[k].purchaser == payer
      ensures items != [] { assert assignments[k].item in items; }
  }

  ghost predicate NoneOpen(bills: seq<P.Bill>, task: nat) {
    forall b :: 0 <= b < |bills| && bills[b].source == P.ErrandTaskSource(task) ==>
      bills[b].status != P.Unpaid && bills[b].status != P.Submitted
  }

  // A carried out payment counts exactly when no bill of its task is open.
  lemma CountingIff(w: Whole, n: nat)
    requires n < |w.notices|
    ensures var v := After(w, Count(n));
            && v.bills == w.bills && v.errand == w.errand && |v.notices| == |w.notices|
            && v.notices[n].stage == (if w.notices[n].stage != Applied then w.notices[n].stage
                                      else if NoneOpen(w.bills, w.notices[n].task) then Counted else Over)
  {
  }

  // ------------------------------------------------------------------ completing by callback

  lemma OnlyCountingCounts(w: Whole, move: Move, n: nat)
    requires n < |After(w, move).notices| && After(w, move).notices[n].stage == Counted
    ensures n < |w.notices| && w.notices[n].task == After(w, move).notices[n].task
    ensures w.notices[n].stage == Counted || (move == Count(n) && NoneOpen(w.bills, w.notices[n].task))
  {
  }

  lemma {:induction false} AftersLast(w: Whole, moves: seq<Move>)
    requires moves != []
    ensures Afters(w, moves) == After(Afters(w, moves[..|moves| - 1]), moves[|moves| - 1])
    decreases |moves|
  {
    var n := |moves| - 1;
    if n > 0 {
      AftersLast(After(w, moves[0]), moves[1..]);
      assert moves[1..][..n - 1] == moves[..n][1..];
    } else {
      assert moves[1..] == [] && moves[..0] == [];
    }
  }

  // After k moves no bill of the task was open.
  ghost predicate WasPaid(moves: seq<Move>, task: nat, k: nat) {
    k <= |moves| && NoneOpen(Afters(NOTHING, moves[..k]).bills, task)
  }

  lemma {:induction false} CountedWasPaid(moves: seq<Move>, n: nat) returns (k: nat)
    requires n < |Afters(NOTHING, moves).notices| && Afters(NOTHING, moves).notices[n].stage == Counted
    ensures WasPaid(moves, Afters(NOTHING, moves).notices[n].task, k)
    decreases |moves|
  {
    var l := |moves| - 1;
    AftersLast(NOTHING, moves);
    var w := Afters(NOTHING, moves[..l]);
    OnlyCountingCounts(w, moves[l], n);
    if w.notices[n].stage == Counted {
      k := CountedWasPaid(moves[..l], n);
      assert moves[..l][..k] == moves[..k];
    } else {
      k := l;
    }
  }

  // Whatever calls are lost or late: a callback completes a task exactly while it collects and after a count, and
  // then there was a time at which no bill of the task was open.
  lemma CallbackNeedsPayment(moves: seq<Move>, n: nat) returns (k: nat)
    requires n < |Afters(NOTHING, moves).notices|
    ensures var w := Afters(NOTHING, moves);
            var v, task := After(w, Announce(n)), w.notices[n].task;
            && (v.errand != w.errand <==> Collects(w.errand, task) && w.notices[n].stage == Counted)
            && (v.errand != w.errand ==> IsCompleted(v.errand, task) && WasPaid(moves, task, k))
  {
    k := 0;
    if Afters(NOTHING, moves).notices[n].stage == Counted { k := CountedWasPaid(moves, n); }
  }
}
