// What a requester asks for and offers: which rows a demand adds, and that item and assignment keep the product,
// quantity, service fee and price that were asked for.
module ErrandOffers {
  import opened Common
  import opened Errand
  import opened ErrandSafety
  import opened ErrandTheorems

  lemma One(s: State, step: Step)
    ensures Runs(s, [step]) == Next(s, step)
  {
    assert [step][1..] == [];
  }

  // What the service accepts as the items of a demand.
  predicate Sound(drafts: seq<Draft>) {
    && (forall k :: 0 <= k < |drafts| ==>
          0 < drafts[k].quantity <= 0x7FFF_FFFF && drafts[k].fee >= 0 && drafts[k].price >= 0)
    && (forall k, l :: 0 <= k < l < |drafts| ==> drafts[k].product != drafts[l].product)
  }

  lemma SoundIs(drafts: seq<Draft>)
    ensures Sound(drafts) <==> DraftsOk(drafts)
  {
  }

  // The item asks for what the draft says, for this demand of this requester at this store.
  ghost predicate Asks(x: Item, d: Draft, demand: nat, requester: int, store: int) {
    && x.demand == demand && x.requester == requester && x.store == store && x.status == Open
    && x.product == d.product && x.quantity == d.quantity && x.fee == d.fee && x.price == d.price
  }

  // One item for every draft, from this id on.
  ghost predicate ItemsAsk(
      items: map<nat, Item>, drafts: seq<Draft>, demand: nat, requester: int, store: int, first: nat) {
    forall k: nat :: k < |drafts| ==> first + k in items && Asks(items[first + k], drafts[k], demand, requester, store)
  }

  // Exactly one new item for every draft, under fresh ids.
  ghost predicate AddsItems(s: State, t: State, drafts: seq<Draft>, demand: nat, requester: int, store: int) {
    && t.nextItem == s.nextItem + |drafts|
    && (forall i :: i in t.items && i >= s.nextItem ==> i < s.nextItem + |drafts|)
    && ItemsAsk(t.items, drafts, demand, requester, store, s.nextItem)
  }

  ghost predicate SameTasks(s: State, t: State) {
    t.tasks == s.tasks && t.taskItems == s.taskItems && t.assignments == s.assignments && t.confirms == s.confirms
  }

  // A new demand is accepted exactly for sound drafts and then adds itself and one item for every draft, and
  // changes nothing that is there.
  lemma CreateAddsIff(before: seq<Step>, requester: int, store: int, drafts: seq<Draft>)
    ensures var s, t := Runs(EMPTY, before), Runs(Runs(EMPTY, before), [CreateDemand(requester, store, drafts)]);
            if !Sound(drafts) then t == s
            else
              && t.demands == s.demands + [Demand(requester, store, Open, None, None)] && SameTasks(s, t)
              && AddsItems(s, t, drafts, |s.demands|, requester, store)
              && forall i :: i in s.items ==> i in t.items && t.items[i] == s.items[i]
  {
    var s := Runs(EMPTY, before);
    Reachable(before);
    One(s, CreateDemand(requester, store, drafts));
    SoundIs(drafts);
    IdsBelow(s);
    if Sound(drafts) {
      CreatedAdds(s, requester, store, drafts);
    }
  }

  ghost predicate Below(s: State) {
    forall i :: i in s.items ==> i < s.nextItem
  }

  lemma IdsBelow(s: State)
    requires Inv(s)
    ensures Below(s)
  {
    forall i | i in s.items ensures i < s.nextItem { assert ItemOk(s, i); }
  }

  lemma CreatedAdds(s: State, requester: int, store: int, drafts: seq<Draft>)
    requires Below(s) && DraftsOk(drafts)
    ensures var t := DoCreateDemand(s, requester, store, drafts);
            && t.demands == s.demands + [Demand(requester, store, Open, None, None)] && SameTasks(s, t)
            && AddsItems(s, t, drafts, |s.demands|, requester, store)
            && forall i :: i in s.items ==> i in t.items && t.items[i] == s.items[i]
  {
    NewItemsAsk(s.items, drafts, |s.demands|, requester, store, s.nextItem);
  }

  lemma NewItemsAsk(items: map<nat, Item>, drafts: seq<Draft>, demand: nat, requester: int, store: int, first: nat)
    ensures ItemsAsk(items + NewItems(drafts, demand, requester, store, first), drafts, demand, requester, store, first)
  {
    var added := NewItems(drafts, demand, requester, store, first);
    forall k: nat | k < |drafts|
      ensures first + k in added && Asks(added[first + k], drafts[k], demand, requester, store)
    {
      assert (first + k) - first == k;
    }
  }

  ghost predicate OwnOpen(s: State, requester: int, demand: nat) {
    demand < |s.demands| && s.demands[demand].requester == requester && s.demands[demand].status == Open
  }

  // Replacing is accepted exactly for the requester's own open demand and sound drafts: all of its items go, and
  // one comes for every draft.
  lemma ReplaceAddsIff(before: seq<Step>, requester: int, demand: nat, store: int, drafts: seq<Draft>)
    ensures var s := Runs(EMPTY, before);
            var t := Runs(s, [ReplaceDemand(requester, demand, store, drafts)]);
            if !OwnOpen(s, requester, demand) || !Sound(drafts) then t == s
            else
              && t.demands == s.demands[demand := s.demands[demand].(store := store)] && SameTasks(s, t)
              && AddsItems(s, t, drafts, demand, requester, store)
              && forall i :: i in s.items ==>
                   if s.items[i].demand == demand then i !in t.items else i in t.items && t.items[i] == s.items[i]
  {
    var s := Runs(EMPTY, before);
    Reachable(before);
    One(s, ReplaceDemand(requester, demand, store, drafts));
    SoundIs(drafts);
    IdsBelow(s);
    if OwnOpen(s, requester, demand) && Sound(drafts) {
      ReplacedAdds(s, requester, demand, store, drafts);
      ReplacedKeeps(s, requester, demand, store, drafts);
    }
  }

  lemma ReplacedAdds(s: State, requester: int, demand: nat, store: int, drafts: seq<Draft>)
    requires Below(s) && DraftsOk(drafts) && OwnOpen(s, requester, demand)
    ensures AddsItems(s, DoReplaceDemand(s, requester, demand, store, drafts), drafts, demand, requester, store)
  {
    ReplacedItems(s, demand, NewItems(drafts, demand, requester, store, s.nextItem), |drafts|);
    NewItemsAsk(ItemsOutside(s.items, demand), drafts, demand, requester, store, s.nextItem);
  }

  lemma ReplacedKeeps(s: State, requester: int, demand: nat, store: int, drafts: seq<Draft>)
    requires Below(s) && DraftsOk(drafts) && OwnOpen(s, requester, demand)
    ensures var t := DoReplaceDemand(s, requester, demand, store, drafts);
            && t.demands == s.demands[demand := s.demands[demand].(store := store)] && SameTasks(s, t)
            && forall i :: i in s.items ==>
                 if s.items[i].demand == demand then i !in t.items else i in t.items && t.items[i] == s.items[i]
  {
    ReplacedItems(s, demand, NewItems(drafts, demand, requester, store, s.nextItem), |drafts|);
  }

  // The old rows of the demand go, the others stay, and the added ones are there as they are.
  lemma ReplacedItems(s: State, demand: nat, added: map<nat, Item>, n: nat)
    requires Below(s) && forall i :: i in added <==> s.nextItem <= i < s.nextItem + n
    ensures var items := ItemsOutside(s.items, demand) + added;
            && (forall i :: i in s.items ==>
                  if s.items[i].demand == demand then i !in items else i in items && items[i] == s.items[i])
            && (forall i :: i in items && i >= s.nextItem ==> i < s.nextItem + n)
            && (forall i :: i in added ==> i in items && items[i] == added[i])
  {
  }

  // Cancelling is accepted exactly for the requester's own open demand, and cancels it with all of its items.
  lemma CancelDemandIff(before: seq<Step>, requester: int, demand: nat)
    ensures var s, t := Runs(EMPTY, before), Runs(Runs(EMPTY, before), [CancelDemand(requester, demand)]);
            if !OwnOpen(s, requester, demand) then t == s
            else
              && t.demands == s.demands[demand := s.demands[demand].(status := Cancelled)] && SameTasks(s, t)
              && t.items.Keys == s.items.Keys && t.nextItem == s.nextItem
              && forall i :: i in s.items ==>
                   t.items[i] == if s.items[i].demand == demand then s.items[i].(status := Cancelled) else s.items[i]
  {
    var s := Runs(EMPTY, before);
    Reachable(before);
    One(s, CancelDemand(requester, demand));
    forall i | i in s.items && s.items[i].demand == demand ensures s.items[i].status == s.demands[demand].status {
      assert ItemOk(s, i);
    }
  }

  // ------------------------------------------------------------------ what stays for ever

  // The columns an item is offered with.
  ghost predicate SameOffer(x: Item, y: Item) {
    y.requester == x.requester && y.store == x.store && y.product == x.product && y.quantity == x.quantity
    && y.fee == x.fee && y.price == x.price
  }

  ghost predicate OffersKept(s: State, t: State) {
    && s.nextItem <= t.nextItem
    && forall i :: i in t.items && i < s.nextItem ==> i in s.items && SameOffer(s.items[i], t.items[i])
  }

  lemma OffersStep(s: State, step: Step)
    requires Inv(s)
    ensures OffersKept(s, Next(s, step))
  {
    if step.CreateDemand? || step.ReplaceDemand? || step.CancelDemand? {
      IdsBelow(s);
      OffersDemand(s, step);
    } else if step.CreateTask? {
      OffersCreate(s, step.captain, step.store, step.selected);
    } else {
      OffersLater(s, step);
    }
  }

  lemma OffersDemand(s: State, step: Step)
    requires Below(s) && (step.CreateDemand? || step.ReplaceDemand? || step.CancelDemand?)
    ensures OffersKept(s, Next(s, step))
  {
  }

  lemma OffersCreate(s: State, captain: int, store: int, selected: seq<nat>)
    ensures OffersKept(s, DoCreateTask(s, captain, store, selected))
  {
  }

  lemma OffersLater(s: State, step: Step)
    requires !step.CreateDemand? && !step.ReplaceDemand? && !step.CancelDemand? && !step.CreateTask?
    ensures OffersKept(s, Next(s, step))
  {
  }

  // Over every run an item keeps its columns, and an id that is gone is not used again.
  lemma {:induction false} OffersLast(s: State, trace: seq<Step>)
    requires Inv(s)
    ensures OffersKept(s, Runs(s, trace))
    decreases |trace|
  {
    if trace != [] {
      OffersStep(s, trace[0]);
      StepKeeps(s, trace[0]);
      OffersLast(Next(s, trace[0]), trace[1..]);
    }
  }

  // While the item exists it is what was asked for and offered, and so is its assignment: its purchaser is the
  // requester, its fee is the fee that was offered, and it is bought as the product that was asked for.
  ghost predicate Holds(t: State, i: nat, requester: int, store: int, d: Draft) {
    && (i in t.items ==>
          && t.items[i].requester == requester && t.items[i].store == store
          && t.items[i].product == d.product && t.items[i].quantity == d.quantity
          && t.items[i].fee == d.fee && t.items[i].price == d.price)
    && (forall a :: 0 <= a < |t.assignments| && t.assignments[a].item == i ==>
          && i in t.items && t.assignments[a].purchaser == requester && t.assignments[a].fee == d.fee
          && t.assignments[a].taskItem < |t.taskItems|
          && t.taskItems[t.assignments[a].taskItem].product == d.product)
  }

  function AsDraft(x: Item): Draft {
    Draft(x.product, x.quantity, x.fee, x.price)
  }

  // What an item was first asked for holds in every later state.
  lemma OfferLasts(before: seq<Step>, after: seq<Step>, i: nat)
    requires i in Runs(EMPTY, before).items
    ensures var s := Runs(EMPTY, before);
            Holds(Runs(s, after), i, s.items[i].requester, s.items[i].store, AsDraft(s.items[i]))
  {
    Reachable(before);
    OfferHolds(Runs(EMPTY, before), after, i);
  }

  lemma OfferHolds(s: State, after: seq<Step>, i: nat)
    requires Inv(s) && i in s.items
    ensures Holds(Runs(s, after), i, s.items[i].requester, s.items[i].store, AsDraft(s.items[i]))
  {
    assert ItemOk(s, i);
    RunsKeep(s, after);
    OffersLast(s, after);
    var t := Runs(s, after);
    forall a | 0 <= a < |t.assignments| && t.assignments[a].item == i ensures RowOk(t, t.assignments[a]) {}
  }

  // What the k-th draft of an accepted demand asks for and offers holds for its item in every later state.
  lemma DraftLasts(before: seq<Step>, requester: int, store: int, drafts: seq<Draft>, after: seq<Step>, k: nat)
    requires Sound(drafts) && k < |drafts|
    ensures var s := Runs(EMPTY, before);
            var t := Runs(Runs(s, [CreateDemand(requester, store, drafts)]), after);
            Holds(t, s.nextItem + k, requester, store, drafts[k])
  {
    var s := Runs(EMPTY, before);
    assert IsRun(before, s);
    DraftRow(before, requester, store, drafts, k);
    AskedHolds(s, CreateDemand(requester, store, drafts), after, s.nextItem + k, drafts[k], |s.demands|, requester,
               store);
  }

  ghost predicate IsRun(trace: seq<Step>, s: State) {
    s == Runs(EMPTY, trace)
  }

  ghost predicate IsReached(s: State) {
    exists trace :: IsRun(trace, s)
  }

  lemma AskedHolds(s: State, step: Step, after: seq<Step>, i: nat, d: Draft, demand: nat, requester: int, store: int)
    requires IsReached(s) && i in Runs(s, [step]).items
    requires Asks(Runs(s, [step]).items[i], d, demand, requester, store)
    ensures Holds(Runs(Runs(s, [step]), after), i, requester, store, d)
  {
    var trace :| IsRun(trace, s);
    Reachable(trace);
    One(s, step);
    StepKeeps(s, step);
    OfferHolds(Runs(s, [step]), after, i);
  }

  lemma DraftRow(before: seq<Step>, requester: int, store: int, drafts: seq<Draft>, k: nat)
    requires Sound(drafts) && k < |drafts|
    ensures var s := Runs(EMPTY, before);
            var t := Runs(s, [CreateDemand(requester, store, drafts)]);
            s.nextItem + k in t.items && Asks(t.items[s.nextItem + k], drafts[k], |s.demands|, requester, store)
  {
    CreateAddsIff(before, requester, store, drafts);
  }
}
