// When a completed errand task has all its items completed, and what becomes of the items where it has not.
module ErrandPaymentsTheorems {
  import opened Common
  import opened Errand
  import opened ErrandSafety
  import opened ErrandFrozen
  import opened ErrandCompletion
  import opened ErrandPayments
  import opened ErrandPaymentsSafety
  import P = PaymentBills

  // Somebody other than the captain was given something of the task, namely this payer.
  ghost predicate Owes(s: State, task: nat, payer: int) {
    exists k :: 0 <= k < |s.assignments| && Chargeable(s.assignments[k], task, CaptainOf(s, task))
      && s.assignments[k].purchaser == payer
  }

  ghost predicate NobodyOwes(s: State, task: nat) {
    forall k :: 0 <= k < |s.assignments| ==> !Chargeable(s.assignments[k], task, CaptainOf(s, task))
  }

  lemma Reachable(moves: seq<Move>)
    ensures WholeInv(Afters(NOTHING, moves))
  {
    NothingInv();
    MovesKeep(NOTHING, moves);
  }

  // ------------------------------------------------------------------ completion without bills

  lemma {:induction false} ChargeesAre(assignments: seq<Assignment>, task: nat, captain: int, payer: int)
    ensures payer in Chargees(assignments, task, captain) <==>
      exists k :: 0 <= k < |assignments| && Chargeable(assignments[k], task, captain)
        && assignments[k].purchaser == payer
  {
    if assignments != [] {
      var n := |assignments| - 1;
      ChargeesAre(assignments[..n], task, captain, payer);
      if k :| 0 <= k < n && Chargeable(assignments[k], task, captain) && assignments[k].purchaser == payer {
        assert assignments[..n][k] == assignments[k];
      }
    }
  }

  lemma NoChargees(s: State, task: nat)
    ensures Chargees(s.assignments, task, CaptainOf(s, task)) == [] <==> NobodyOwes(s, task)
  {
    var r := Chargees(s.assignments, task, CaptainOf(s, task));
    if r != [] {
      ChargeesAre(s.assignments, task, CaptainOf(s, task), r[0]);
      assert r[0] in r;
    }
    forall k | 0 <= k < |s.assignments| && Chargeable(s.assignments[k], task, CaptainOf(s, task)) ensures r != [] {
      ChargeesAre(s.assignments, task, CaptainOf(s, task), s.assignments[k].purchaser);
    }
  }

  // A call keeps the payers its drafts were read for, whatever happens to the rows meanwhile.
  lemma {:induction false} CallStays(w: Whole, moves: seq<Move>, c: nat)
    requires c < |w.calls|
    ensures var v := Afters(w, moves);
            c < |v.calls| && v.calls[c].captain == w.calls[c].captain && v.calls[c].task == w.calls[c].task
              && v.calls[c].payers == w.calls[c].payers
    decreases |moves|
  {
    if moves != [] {
      CallStaysOnce(w, moves[0], c);
      CallStays(After(w, moves[0]), moves[1..], c);
    }
  }

  lemma CallStaysOnce(w: Whole, move: Move, c: nat)
    requires c < |w.calls|
    ensures var v := After(w, move);
            c < |v.calls| && v.calls[c].captain == w.calls[c].captain && v.calls[c].task == w.calls[c].task
              && v.calls[c].payers == w.calls[c].payers
  {
  }

  // The transition whose drafts were read in w completes the task at once, without a bill, exactly when nobody
  // but the captain had been given anything in w, however the shares changed since, and the task is then the
  // caller's own, distributing and fully distributed.
  lemma WithoutBillsIff(w: Whole, captain: int, task: nat, moves: seq<Move>)
    requires var v := Afters(DoReadDrafts(w, captain, task), moves);
             ReadyCall(v, |w.calls|) && !IsCompleted(v.errand, task)
    ensures var v := Afters(DoReadDrafts(w, captain, task), moves);
            IsCompleted(DoTransition(v, |w.calls|).errand, task) <==>
              NobodyOwes(w.errand, task) && Mine(v.errand, captain, task, TaskDistributing)
                && FullyDistributed(v.errand, task)
  {
    var c, v := |w.calls|, Afters(DoReadDrafts(w, captain, task), moves);
    CallStays(DoReadDrafts(w, captain, task), moves, c);
    NoChargees(w.errand, task);
    assert v.calls[c].payers == [] <==> NobodyOwes(w.errand, task);
    TransitionCompletes(v, c);
  }

  lemma TransitionCompletes(v: Whole, c: nat)
    requires ReadyCall(v, c) && !IsCompleted(v.errand, v.calls[c].task)
    ensures var call := v.calls[c];
            IsCompleted(DoTransition(v, c).errand, call.task) <==>
              call.payers == [] && Mine(v.errand, call.captain, call.task, TaskDistributing)
                && FullyDistributed(v.errand, call.task)
  {
  }

  // ------------------------------------------------------------------ completion by the callback

  // Every row of the task has a purchaser whose confirmation was carried out.
  ghost predicate EveryPurchaserApplied(w: Whole, task: nat) {
    forall k :: 0 <= k < |w.errand.assignments| && w.errand.assignments[k].task == task ==>
      (task, w.errand.assignments[k].purchaser) in w.applied
  }

  lemma CollectedItems(w: Whole, task: nat)
    requires WholeInv(w) && Collects(w.errand, task)
    ensures AllItemsCompleted(w.errand, task) <==> EveryPurchaserApplied(w, task)
  {
    forall k | 0 <= k < |w.errand.assignments| && w.errand.assignments[k].task == task
      ensures RowPaid(w, w.errand.assignments[k])
    {
    }
  }

  // While a task collects, in every reachable state: all its items are completed exactly when the confirmation
  // of everybody in it was carried out.
  lemma CollectedIff(moves: seq<Move>, task: nat)
    requires Collects(Afters(NOTHING, moves).errand, task)
    ensures AllItemsCompleted(Afters(NOTHING, moves).errand, task) <==>
              EveryPurchaserApplied(Afters(NOTHING, moves), task)
  {
    Reachable(moves);
    CollectedItems(Afters(NOTHING, moves), task);
  }

  ghost predicate HasBill(w: Whole, task: nat, payer: int) {
    exists b :: 0 <= b < |w.bills| && IsBill(w.bills[b], task, payer)
  }

  // Every bill of the task is paid and its confirmation carried out.
  ghost predicate AllSettled(w: Whole, task: nat) {
    forall b :: 0 <= b < |w.bills| && w.bills[b].source == P.ErrandTaskSource(task) ==>
      w.bills[b].status == P.Completed && (task, w.bills[b].payerId) in w.applied
  }

  // The drafts of every call for the task were read for exactly those who owe for it now.
  ghost predicate DraftsUpToDate(w: Whole, task: nat) {
    forall c, p :: 0 <= c < |w.calls| && w.calls[c].task == task ==>
      (p in w.calls[c].payers <==> Owes(w.errand, task, p))
  }

  ghost predicate EveryPurchaserHasBill(w: Whole, task: nat) {
    forall k :: 0 <= k < |w.errand.assignments| && w.errand.assignments[k].task == task ==>
      HasBill(w, task, w.errand.assignments[k].purchaser)
  }

  // Nobody in the task is its captain, and everybody was given something.
  ghost predicate EveryPurchaserOwes(s: State, task: nat) {
    forall k :: 0 <= k < |s.assignments| && s.assignments[k].task == task ==> Owes(s, task, s.assignments[k].purchaser)
  }

  lemma AppliedHasBill(w: Whole, task: nat, payer: int)
    requires WholeInv(w) && AllSettled(w, task)
    ensures (task, payer) in w.applied <==> HasBill(w, task, payer)
  {
    if (task, payer) in w.applied {
      var b :| 0 <= b < |w.bills| && IsBill(w.bills[b], task, payer) && w.bills[b].status == P.Completed;
      assert IsBill(w.bills[b], task, payer);
    }
  }

  lemma CallbackCompletes(w: Whole, n: nat, task: nat)
    requires WholeInv(w) && n < |w.notices| && w.notices[n].stage == Counted && w.notices[n].task == task
    requires Collects(w.errand, task) && AllSettled(w, task)
    ensures IsCompleted(DoAnnounce(w, n).errand, task)
    ensures AllItemsCompleted(DoAnnounce(w, n).errand, task) <==> EveryPurchaserHasBill(w, task)
  {
    CollectedItems(w, task);
    forall k | 0 <= k < |w.errand.assignments| && w.errand.assignments[k].task == task
      ensures (task, w.errand.assignments[k].purchaser) in w.applied <==>
                HasBill(w, task, w.errand.assignments[k].purchaser)
    {
      AppliedHasBill(w, task, w.errand.assignments[k].purchaser);
    }
    AnnounceLeavesItems(w, n);
  }

  // Once all bills are settled, the callback for confirmed payments completes the task, and all its items are
  // completed exactly when every purchaser in it has a bill.
  lemma CallbackIff(moves: seq<Move>, n: nat, task: nat)
    requires var w := Afters(NOTHING, moves);
             n < |w.notices| && w.notices[n].stage == Counted && w.notices[n].task == task
             && Collects(w.errand, task) && AllSettled(w, task)
    ensures var w := Afters(NOTHING, moves);
            var s := DoAnnounce(w, n).errand;
            IsCompleted(s, task) && (AllItemsCompleted(s, task) <==> EveryPurchaserHasBill(w, task))
  {
    Reachable(moves);
    CallbackCompletes(Afters(NOTHING, moves), n, task);
  }

  lemma AnnounceLeavesItems(w: Whole, n: nat)
    requires n < |w.notices|
    ensures DoAnnounce(w, n).errand.items == w.errand.items
    ensures DoAnnounce(w, n).errand.assignments == w.errand.assignments
  {
  }

  lemma HasBillOwes(w: Whole, task: nat, payer: int)
    requires WholeInv(w) && Collects(w.errand, task) && DraftsUpToDate(w, task)
    ensures HasBill(w, task, payer) <==> Owes(w.errand, task, payer)
  {
    if HasBill(w, task, payer) {
      var b :| 0 <= b < |w.bills| && IsBill(w.bills[b], task, payer);
      assert BillOk(w, w.bills[b]);
      assert Drafted(w, task, payer);
    }
    if Owes(w.errand, task, payer) {
      assert Billed(w, task);
      var c: nat :| ReadyCall(w, c) && w.calls[c].task == task && w.calls[c].payers != [];
      assert CallOk(w, w.calls[c]);
      assert payer in w.calls[c].payers;
      var j :| 0 <= j < |w.calls[c].payers| && w.calls[c].payers[j] == payer;
      assert IsBill(w.bills[w.calls[c].bills[j]], task, payer);
    }
  }

  // If the shares did not change after the drafts were read, that is: when nobody in the task is its captain
  // and everybody was given something of it. Otherwise some item stays pending under the completed task.
  lemma CallbackSharesIff(moves: seq<Move>, n: nat, task: nat)
    requires var w := Afters(NOTHING, moves);
             n < |w.notices| && w.notices[n].stage == Counted && w.notices[n].task == task
             && Collects(w.errand, task) && AllSettled(w, task) && DraftsUpToDate(w, task)
    ensures var w := Afters(NOTHING, moves);
            var s := DoAnnounce(w, n).errand;
            IsCompleted(s, task) && (AllItemsCompleted(s, task) <==> EveryPurchaserOwes(w.errand, task))
  {
    var w := Afters(NOTHING, moves);
    Reachable(moves);
    CallbackCompletes(w, n, task);
    forall k | 0 <= k < |w.errand.assignments| && w.errand.assignments[k].task == task
      ensures HasBill(w, task, w.errand.assignments[k].purchaser) <==>
                Owes(w.errand, task, w.errand.assignments[k].purchaser)
    {
      HasBillOwes(w, task, w.errand.assignments[k].purchaser);
    }
  }

  // ------------------------------------------------------------------ every way to complete a task

  ghost predicate AllDistributing(s: State, task: nat) {
    forall k :: 0 <= k < |s.assignments| && s.assignments[k].task == task ==>
      s.assignments[k].item in s.items && s.items[s.assignments[k].item].status == Distributing
  }

  // A task is completed by its captain after collecting, with every item; by a transition without drafts, with
  // no item; or by the callback, with exactly the items whose purchasers' confirmations were carried out.
  lemma CompletionIff(w: Whole, move: Move, task: nat)
    requires WholeInv(w) && !IsCompleted(w.errand, task) && IsCompleted(After(w, move).errand, task)
    ensures match move
            case Complete(_, _) => AllItemsCompleted(After(w, move).errand, task)
            case Transition(c) =>
              c < |w.calls| && w.calls[c].payers == [] && AllDistributing(After(w, move).errand, task)
            case Announce(n) => AllItemsCompleted(After(w, move).errand, task) <==> EveryPurchaserApplied(w, task)
            case _ => false
  {
    match move
    case Complete(captain, u) => CompletedAll(w.errand, captain, u, PaidBills(w.bills));
    case Transition(c) => TransitionCompletion(w, c, task);
    case Announce(n) => AnnounceCompletion(w, n, task);
    case _ => OthersComplete(w, move, task);
  }

  lemma OthersComplete(w: Whole, move: Move, task: nat)
    requires !move.Complete? && !move.Transition? && !move.Announce? && IsCompleted(After(w, move).errand, task)
    ensures IsCompleted(w.errand, task)
  {
    if move.Tell? && Tells(w, move.notice) {
      ConfirmKeepsRows(w.errand, w.notices[move.notice].task, w.notices[move.notice].payer);
    }
  }

  lemma TransitionCompletion(w: Whole, c: nat, task: nat)
    requires WholeInv(w) && !IsCompleted(w.errand, task) && IsCompleted(DoTransition(w, c).errand, task)
    ensures c < |w.calls| && w.calls[c].payers == [] && w.calls[c].task == task
    ensures AllDistributing(DoTransition(w, c).errand, task)
  {
    var s, t := w.errand, DoTransition(w, c).errand;
    WhichTransition(w, c, task);
    forall k | 0 <= k < |t.assignments| && t.assignments[k].task == task
      ensures t.assignments[k].item in t.items && t.items[t.assignments[k].item].status == Distributing
    {
      WithoutBillsStuck(s, w.calls[c].captain, task, k);
    }
  }

  lemma WhichTransition(w: Whole, c: nat, task: nat)
    requires !IsCompleted(w.errand, task) && IsCompleted(DoTransition(w, c).errand, task)
    ensures ReadyCall(w, c) && w.calls[c].payers == [] && w.calls[c].task == task
    ensures Mine(w.errand, w.calls[c].captain, task, TaskDistributing) && FullyDistributed(w.errand, task)
    ensures DoTransition(w, c).errand == DoCompleteWithoutBills(w.errand, w.calls[c].captain, task)
    ensures DoTransition(w, c).errand.assignments == w.errand.assignments
  {
  }

  lemma AnnounceCompletion(w: Whole, n: nat, task: nat)
    requires WholeInv(w) && !IsCompleted(w.errand, task) && IsCompleted(DoAnnounce(w, n).errand, task)
    ensures AllItemsCompleted(DoAnnounce(w, n).errand, task) <==> EveryPurchaserApplied(w, task)
  {
    assert n < |w.notices| && w.notices[n].task == task && Collects(w.errand, task);
    CollectedItems(w, task);
    AnnounceLeavesItems(w, n);
  }

  // ------------------------------------------------------------------ what stays behind

  // Row k of a completed task is row l later, with its item in the same phase.
  ghost predicate SameRow(s: State, t: State, k: nat, l: nat)
    requires k < |s.assignments|
  {
    var a := s.assignments[k];
    && l < |t.assignments| && t.assignments[l] == a && IsCompleted(t, a.task)
    && a.item in s.items && a.item in t.items && t.items[a.item].status == s.items[a.item].status
  }

  // An item of a completed task is in the same phase for ever: no confirmation is carried out for it any more,
  // and its task can be neither cancelled nor completed again.
  lemma ItemStaysOnce(w: Whole, move: Move, k: nat) returns (l: nat)
    requires WholeInv(w) && k < |w.errand.assignments| && IsCompleted(w.errand, w.errand.assignments[k].task)
    ensures SameRow(w.errand, After(w, move).errand, k, l)
  {
    if move.Within? || move.Complete? {
      l := ErrandMoveKeeps(w, move, k);
    } else if move.Transition? || move.Tell? || move.Announce? {
      l := PaymentKeeps(w, move, k);
    } else {
      l := k;
      OtherMovesKeepErrand(w, move);
      assert RowOk(w.errand, w.errand.assignments[k]);
    }
  }

  lemma ErrandMoveKeeps(w: Whole, move: Move, k: nat) returns (l: nat)
    requires WholeInv(w) && k < |w.errand.assignments| && IsCompleted(w.errand, w.errand.assignments[k].task)
    requires move.Within? || move.Complete?
    ensures SameRow(w.errand, After(w, move).errand, k, l)
  {
    l := k;
    assert RowOk(w.errand, w.errand.assignments[k]);
    match move
    case Within(step) => if Inner(step) { l := RowKeeps(w.errand, step, k); }
    case Complete(captain, task) => l := RowKeeps(w.errand, ToCompleted(captain, task, PaidBills(w.bills)), k);
  }

  lemma PaymentKeeps(w: Whole, move: Move, k: nat) returns (l: nat)
    requires WholeInv(w) && k < |w.errand.assignments| && IsCompleted(w.errand, w.errand.assignments[k].task)
    requires move.Transition? || move.Tell? || move.Announce?
    ensures SameRow(w.errand, After(w, move).errand, k, l)
  {
    l := k;
    match move
    case Transition(c) => l := TransitionKeeps(w, c, k);
    case Tell(n) => TellKeeps(w, n, k);
    case Announce(n) => l := AnnounceKeeps(w, n, k);
  }

  lemma OtherMovesKeepErrand(w: Whole, move: Move)
    requires !move.Within? && !move.Transition? && !move.Complete? && !move.Tell? && !move.Announce?
    ensures After(w, move).errand == w.errand
  {
  }

  lemma TransitionKeeps(w: Whole, c: nat, k: nat) returns (l: nat)
    requires WholeInv(w) && k < |w.errand.assignments| && IsCompleted(w.errand, w.errand.assignments[k].task)
    ensures SameRow(w.errand, DoTransition(w, c).errand, k, l)
  {
    l := k;
    assert RowOk(w.errand, w.errand.assignments[k]);
    if ReadyCall(w, c) {
      TransitionFollows(w, c);
      OneStep(w.errand, ErrandSteps(w, Transition(c))[0]);
      l := RowKeeps(w.errand, ErrandSteps(w, Transition(c))[0], k);
    }
  }

  lemma AnnounceKeeps(w: Whole, n: nat, k: nat) returns (l: nat)
    requires WholeInv(w) && k < |w.errand.assignments| && IsCompleted(w.errand, w.errand.assignments[k].task)
    ensures SameRow(w.errand, DoAnnounce(w, n).errand, k, l)
  {
    l := k;
    assert RowOk(w.errand, w.errand.assignments[k]);
    if n < |w.notices| { AnnounceLeavesItems(w, n); }
  }

  lemma RowKeeps(s: State, step: Step, k: nat) returns (l: nat)
    requires Inv(s) && k < |s.assignments| && IsCompleted(s, s.assignments[k].task) && !step.ApplyConfirm?
    ensures SameRow(s, Next(s, step), k, l)
  {
    var a, t := s.assignments[k], Next(s, step);
    FrozenStep(s, step, a.task);
    CompletedStays(s, step, a.task);
    ItemStays(s, step, k);
    assert a in t.assignments;
    l :| 0 <= l < |t.assignments| && t.assignments[l] == a;
  }

  lemma TellKeeps(w: Whole, n: nat, k: nat)
    requires WholeInv(w) && k < |w.errand.assignments| && IsCompleted(w.errand, w.errand.assignments[k].task)
    ensures var a, v := w.errand.assignments[k], DoTell(w, n);
            && v.errand.assignments == w.errand.assignments && v.errand.tasks == w.errand.tasks
            && a.item in w.errand.items && a.item in v.errand.items && v.errand.items[a.item] == w.errand.items[a.item]
  {
    assert RowOk(w.errand, w.errand.assignments[k]);
    if Tells(w, n) {
      ConfirmKeepsRows(w.errand, w.notices[n].task, w.notices[n].payer);
      ConfirmedItem(w.errand, w.notices[n].task, w.notices[n].payer, k);
    }
  }

  lemma {:induction false} StaysBehind(w: Whole, moves: seq<Move>, k: nat) returns (l: nat)
    requires WholeInv(w) && k < |w.errand.assignments| && IsCompleted(w.errand, w.errand.assignments[k].task)
    ensures var a, v := w.errand.assignments[k], Afters(w, moves);
            && l < |v.errand.assignments| && v.errand.assignments[l] == a && IsCompleted(v.errand, a.task)
            && a.item in w.errand.items && a.item in v.errand.items
            && v.errand.items[a.item].status == w.errand.items[a.item].status
    decreases |moves|
  {
    if moves == [] {
      l := k;
      assert RowOk(w.errand, w.errand.assignments[k]);
    } else {
      var m := ItemStaysOnce(w, moves[0], k);
      MoveKeeps(w, moves[0]);
      l := StaysBehind(After(w, moves[0]), moves[1..], m);
    }
  }
}
