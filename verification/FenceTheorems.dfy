/** A supplier fence that found no active errand keeps the supplier free of them until it is released. */
module FenceTheorems {
  import opened Prelude
  import opened Keys
  import opened Errands
  import opened StateMachine
  import opened Wallets
  import opened StoreModel
  import opened Lifecycle
  import opened Composite
  import opened CompositeInv
  import opened CompositeProofs
  import opened Theorems
  import opened StoreSteps

  /** Neither the supplier of an active errand nor the one a pending edit moves it to. */
  ghost predicate Avoids(e: Errand, supplier: string) {
    e.status in {PendingReservation, Open, Assigned, PickedUp, Delivered, ReviewRequired} ==>
      && e.details.supplierId != supplier
      && (e.pendingEdit.Some? ==> e.pendingEdit.value.details.supplierId != supplier)
  }

  /** What Acquire reports as having no active errands. */
  ghost predicate NoActiveErrands(db: Db, supplier: string) {
    forall id :: id in db.errands ==> Avoids(db.errands[id], supplier)
  }

  ghost predicate Guards(db: Db, op: string, supplier: string) {
    op in db.fences && db.fences[op].supplierId == supplier && db.fences[op].state != FenceReleased
  }

  /** Fences are never forgotten or moved, and one that is not open is final. */
  ghost predicate FencesStep(db: Db, db': Db) {
    forall op :: op in db.fences ==>
      && op in db'.fences && db'.fences[op].supplierId == db.fences[op].supplierId
      && (db.fences[op].state != FenceOpen ==> db'.fences[op].state == db.fences[op].state)
  }

  lemma StepsFences(w: World, s: Step)
    ensures FencesStep(w.db, Do(w, s).db)
  {
    hide Do;
    if !s.AcquireFence? && !s.CloseFence? {
      FencesStay(w, s);
    } else {
      FencesChange(w, s);
    }
  }

  /** Only the fence operations change fences. */
  lemma FencesStay(w: World, s: Step)
    requires !s.AcquireFence? && !s.CloseFence?
    ensures Do(w, s).db.fences == w.db.fences
  {
    hide Next, Process, CreateWallet, KeyOf, RejectionKey, Apply, Create, StageAfterRead, FirstStage, MessageOf,
         ResultEvent, Fresh, IsUuid;
    match s
    case SubmitErrand(e, now) =>
      CreateFences(w.db, e, Next(e, Submit, Actor(RequesterActor, e.requesterId), NO_INPUT, now));
    case Decide(seen, ev, a, input, now) => ApplyFences(w.db, Next(seen, ev, a, input, now));
    case WriteErrand(h) =>
      if h in w.handlers && w.handlers[h].stage.Applying? { ApplyFences(w.db, Ok(w.handlers[h].stage.t)); }
    case _ =>
  }

  lemma FencesChange(w: World, s: Step)
    requires s.AcquireFence? || s.CloseFence?
    ensures FencesStep(w.db, Do(w, s).db)
    ensures FenceIds(w.db) ==> FenceIds(Do(w, s).db)
  {
    hide IsUuid, DoSubmit, DoDecide, DoWrite, DoRead, DoSettle, DoReceive, DoPublish, DoMarkSent, SetRow, Process,
         CreateWallet, AddNotice, KeyOf, RejectionKey;
  }

  lemma ApplyFences(db: Db, t: Outcome<Transition>)
    ensures t.Ok? && Apply(db, t.value).Committed? ==> Apply(db, t.value).db.fences == db.fences
  {
    hide KeysFree, AddRows, WriteReview, CompareAndSwap, EditTarget, Fenced, HasOpenReview;
  }

  lemma CreateFences(db: Db, e: Errand, t: Outcome<Transition>)
    ensures t.Ok? && Create(db, e, t.value).Committed? ==> Create(db, e, t.value).db.fences == db.fences
  {
    hide KeysFree, AddRows, WriteReview, Fenced;
  }

  /** An edit that Next accepts names its supplier to the store. */
  lemma EditNamesSupplier(e: Errand, a: Actor, input: EventInput, now: Time)
    requires Next(e, Edit, a, input, now).Ok?
    ensures var t := Next(e, Edit, a, input, now).value;
      && t.event == Edit && input.edit.Some?
      && EditTarget(e, t)
         == (var to := input.edit.value.supplierId; if to != "" && to != e.details.supplierId then Some(to) else None)
      && t.ApplyTo(e) == (if ChangesReward(e, input) then e.(updatedAt := now, pendingEdit := t.ApplyTo(e).pendingEdit)
                          else e.(version := e.version + 1, updatedAt := now, details := input.edit.value))
      && (ChangesReward(e, input) ==>
          t.ApplyTo(e).pendingEdit.Some? && t.ApplyTo(e).pendingEdit.value.details == input.edit.value)
  {
    hide OutboxRows, KeyOf, DetailsOk, IsBlank;
    NextAccepts(e, Edit, a, input, now);
    var r := TheRule(e, Edit, now);
    TheRuleIs(e, Edit, now);
    BuildEffect(r, e, Edit, a, input, now);
  }

  lemma OtherEventsAvoid(e: Errand, ev: Event, a: Actor, input: EventInput, now: Time, supplier: string)
    requires Enabled(e, ev, a, input, now) && ev != Edit && Avoids(e, supplier) && e.status.Active()
    ensures Avoids(Effect(e, ev, a, input, now), supplier)
  {
    hide KeyOf, IsBlank;
  }

  lemma UpdateAvoids(db: Db, db': Db, e: Errand, t: Transition, ev: Event, a: Actor, input: EventInput, now: Time,
                     supplier: string)
    requires Next(e, ev, a, input, now) == Ok(t) && Apply(db, t) == Committed(db') && e.id in db.errands
    requires db.errands[e.id] == e
    requires WellFormed(e) && Avoids(e, supplier) && supplier != "" && Fenced(db.fences, supplier)
    ensures Avoids(t.ApplyTo(e), supplier)
  {
    hide Next, Enabled, Effect, EmissionOf, CreditOrderOf, OutboxOf, ReasonOf, Commit, KeysFree, HasOpenReview,
         EditTarget, WellFormed, Fenced, ChangesReward;
    NextMeans(e, ev, a, input, now);
    NextLeavesActive(e, ev, a, input, now);
    if ev == Edit {
      EditNamesSupplier(e, a, input, now);
      MeansHeader(t, e, ev, a, input, now);
    } else {
      OtherEventsAvoid(e, ev, a, input, now, supplier);
    }
  }

  lemma NextLeavesActive(e: Errand, ev: Event, a: Actor, input: EventInput, now: Time)
    requires Enabled(e, ev, a, input, now) && WellFormed(e)
    ensures e.status.Active()
  {
    hide KeyOf, IsBlank;
  }

  lemma StepKeepsFence(w: World, s: Step, op: string, supplier: string)
    requires Guards(w.db, op, supplier) && supplier != "" && NoActiveErrands(w.db, supplier)
    requires WorldInv(w)
    ensures NoActiveErrands(Do(w, s).db, supplier)
  {
    hide Do, WorldInv, Next, Commit, Avoids, WellFormed, Apply, Fresh;
    var x := StepWrites(w, s);
    match x
    case Nothing =>
    case Updated(e, t, ev, a, input, now) =>
      assert Fenced(w.db.fences, supplier);
      UpdateAvoids(w.db, Do(w, s).db, e, t, ev, a, input, now, supplier);
      NextKeepsId(e, ev, a, input, now);
      ApplyCommits(w.db, e, t);
      CommitStoresErrand(w.db, e, t);
    case Inserted(e, t, now) =>
      assert Fenced(w.db.fences, supplier);
      CommitStoresErrand(w.db, e, t);
      SubmitAvoids(e, now, supplier);
  }

  lemma ApplyCommits(db: Db, e: Errand, t: Transition)
    requires t.errandId == e.id && e.id in db.errands && db.errands[e.id] == e && Apply(db, t).Committed?
    ensures Apply(db, t) == Committed(Commit(db, e, t))
  {
    hide Commit, CompareAndSwap, EditTarget, Fenced, HasOpenReview, KeysFree;
  }

  lemma SubmitAvoids(e: Errand, now: Time, supplier: string)
    requires Next(e, Submit, Actor(RequesterActor, e.requesterId), NO_INPUT, now).Ok?
    requires e.details.supplierId != supplier
    ensures Avoids(Next(e, Submit, Actor(RequesterActor, e.requesterId), NO_INPUT, now).value.ApplyTo(e), supplier)
  {
    hide Next, EmissionOf, CreditOrderOf, OutboxOf, ReasonOf, KeyOf, IsBlank, DetailsOk;
    NextMeans(e, Submit, Actor(RequesterActor, e.requesterId), NO_INPUT, now);
  }

  // ---------------------------------------------------------------- runs

  /** Every fence was acquired for a supplier UUID. */
  ghost predicate FenceIds(db: Db) {
    forall op :: op in db.fences ==> IsUuid(db.fences[op].supplierId)
  }

  lemma StepKeepsFenceIds(w: World, s: Step)
    requires FenceIds(w.db)
    ensures FenceIds(Do(w, s).db)
  {
    hide IsUuid, Do;
    if !s.AcquireFence? && !s.CloseFence? {
      FencesStay(w, s);
    } else {
      FencesChange(w, s);
    }
  }

  lemma {:induction false} FenceIdsInRuns(initialCredit: nat, steps: seq<Step>)
    ensures FenceIds(Run(initialCredit, steps).db)
  {
    hide Do, FenceIds;
    if steps != [] {
      FenceIdsInRuns(initialCredit, steps[..|steps| - 1]);
      StepKeepsFenceIds(Run(initialCredit, steps[..|steps| - 1]), steps[|steps| - 1]);
    } else {
      NoFences(initialCredit);
    }
  }

  lemma NoFences(initialCredit: nat)
    ensures FenceIds(Init(initialCredit).db)
  {
  }

  /** Fences of `w` that found no active errand and are not released in `w'` still find none. */
  ghost predicate FencesHold(w: World, w': World) {
    forall op :: op in w.db.fences ==>
      && op in w'.db.fences && w'.db.fences[op].supplierId == w.db.fences[op].supplierId
      && (w'.db.fences[op].state == FenceReleased || w.db.fences[op].state != FenceReleased)
      && (w'.db.fences[op].state != FenceReleased && NoActiveErrands(w.db, w.db.fences[op].supplierId) ==>
            NoActiveErrands(w'.db, w.db.fences[op].supplierId))
  }

  lemma StepHolds(w: World, v: World, s: Step)
    requires FencesHold(w, v) && FenceIds(v.db)
    requires WorldInv(v)
    ensures FencesHold(w, Do(v, s))
  {
    hide Do, WorldInv, NoActiveErrands;
    StepsFences(v, s);
    forall op | op in w.db.fences && Do(v, s).db.fences[op].state != FenceReleased
      && NoActiveErrands(v.db, w.db.fences[op].supplierId)
      ensures NoActiveErrands(Do(v, s).db, w.db.fences[op].supplierId)
    {
      StepKeepsFence(v, s, op, w.db.fences[op].supplierId);
    }
  }

  /** Whenever a fence's supplier has no active errand and no pending edit towards it -- as when Acquire reports none --
      this stays so, in every continuation of the run, until the fence is released. */
  lemma {:induction false} FenceSafety(initialCredit: nat, before: seq<Step>, after: seq<Step>)
    ensures FencesHold(Run(initialCredit, before), Run(initialCredit, before + after))
    decreases |after|
  {
    hide WorldInv, Do, NoActiveErrands, FenceIds;
    if after == [] {
      assert before + after == before;
    } else {
      var n := |after| - 1;
      FenceSafety(initialCredit, before, after[..n]);
      var run := before + after;
      assert run[..|run| - 1] == before + after[..n];
      RunKeepsInv(initialCredit, before + after[..n]);
      FenceIdsInRuns(initialCredit, before + after[..n]);
      StepHolds(Run(initialCredit, before), Run(initialCredit, before + after[..n]), after[n]);
    }
  }

  // ---------------------------------------------------------------- the fence operations

  /** Acquiring opens a fence for a new operation; closing ends an open one; neither touches anything else. */
  ghost predicate FenceChanges(w: World, w': World, s: Step) {
    && w' == w.(db := w.db.(fences := w'.db.fences))
    && match s
       case AcquireFence(op, supplierId) =>
         w'.db.fences == if IsUuid(op) && IsUuid(supplierId) && op !in w.db.fences
                         then w.db.fences[op := Fence(supplierId, FenceOpen)] else w.db.fences
       case CloseFence(op, state) =>
         w'.db.fences == if op in w.db.fences && w.db.fences[op].state == FenceOpen
                         then w.db.fences[op := Fence(w.db.fences[op].supplierId, state)] else w.db.fences
       case _ => w'.db.fences == w.db.fences
  }

  lemma FenceGives(w: World, s: Step)
    requires s.AcquireFence? || s.CloseFence?
    ensures FenceChanges(w, Do(w, s), s)
  {
    hide IsUuid;
    match s
    case CloseFence(op, state) =>
      if op in w.db.fences && state == w.db.fences[op].state {
        assert w.db.fences[op := w.db.fences[op]] == w.db.fences;
      }
    case _ =>
  }

  /** In every run. */
  lemma FenceStepsInRuns(initialCredit: nat, steps: seq<Step>, s: Step)
    requires s.AcquireFence? || s.CloseFence?
    ensures FenceChanges(Run(initialCredit, steps), Run(initialCredit, steps + [s]), s)
  {
    hide Run, Do, FenceChanges;
    RunStep(initialCredit, steps, s);
    FenceGives(Run(initialCredit, steps), s);
  }
}
