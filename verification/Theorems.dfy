/** What holds in every run of the two services, for every errand at once. */
module Theorems {
  import opened Keys
  import opened Errands
  import opened StateMachine
  import opened Wallets
  import opened StoreModel
  import opened Lifecycle
  import opened CreditParts
  import opened Composite
  import opened CompositeInv
  import opened CompositeProofs
  import opened SagaProofs
  import Saga

  /** The order's reservation exists and has this status. */
  ghost predicate ReservedAs(c: Credit, id: string, st: ReservationStatus) {
    id in c.reservations && c.reservations[id].status == st
  }

  /** The order's effect on a wallet, over the whole ledger. */
  ghost function NetAvailable(c: Credit, id: string, wallet: string): (n: int) {
    Saga.AvailableOn(EntriesOf(c.ledger, id), wallet)
  }

  ghost function NetReserved(c: Credit, id: string, wallet: string): (n: int) {
    Saga.ReservedOn(EntriesOf(c.ledger, id), wallet)
  }

  lemma SagaOfRun(w: World, id: string)
    requires id in w.db.errands
    requires WorldInv(w)
    ensures Saga.Inv(View(w, id))
  {
    hide Saga.Inv, View, IdsInv, KeyInv, NoticeInv, WireInv, CreditInv, ReplyInv, PastInv, HandlerInv, ConfirmInv;
  }

  // ---------------------------------------------------------------- the reservation tracks the reward

  /** Every revert of the errand was answered "adjusted" and none of its edits is pending. */
  ghost predicate Quiescent(w: World, id: string)
    requires id in w.db.errands
  {
    w.db.errands[id].pendingEdit.None? && RevertsAnswered(View(w, id))
  }

  /** The errand ended by dropping a pending edit, and credit-service applied that edit all the same. */
  ghost predicate EndedMidEdit(w: World, id: string)
    requires id in w.db.errands
  {
    var e := w.db.errands[id];
    && (e.status == Cancelled || e.status == Expired)
    && e.version >= 1
    && var k := KeyOf(id, Slot(Adjust, e.version - 1));
    && k in w.db.outbox && k in w.credit.processed && w.credit.processed[k].AdjustedResult?
  }

  ghost predicate RewardIsReserved(w: World) {
    forall id :: id in w.db.errands && ReservedAs(w.credit, id, Active) && Quiescent(w, id) ==>
      (w.credit.reservations[id].amount == w.db.errands[id].details.reward <==> !EndedMidEdit(w, id))
  }

  lemma TrackedReward(w: World, id: string)
    requires id in w.db.errands && ReservedAs(w.credit, id, Active) && Quiescent(w, id)
    requires Saga.Inv(View(w, id))
    ensures w.credit.reservations[id].amount == w.db.errands[id].details.reward <==> !EndedMidEdit(w, id)
  {
    hide KeyOf, RevertsAnswered, EntriesOf, Saga.Inv;
    ReservationTracksReward(View(w, id));
  }

  /** In every run, an active reservation of a quiescent errand holds exactly the reward -- except, precisely, after an
      errand ended while an edit was pending whose adjust credit-service has applied. */
  lemma ReservationTracksRewardInRuns(initialCredit: nat, steps: seq<Step>)
    ensures RewardIsReserved(Run(initialCredit, steps))
  {
    hide WorldInv, Run, View, Quiescent, EndedMidEdit, Saga.Inv;
    RunKeepsInv(initialCredit, steps);
    var w := Run(initialCredit, steps);
    forall id | id in w.db.errands && ReservedAs(w.credit, id, Active) && Quiescent(w, id)
      ensures w.credit.reservations[id].amount == w.db.errands[id].details.reward <==> !EndedMidEdit(w, id)
    {
      SagaOfRun(w, id);
      TrackedReward(w, id);
    }
  }

  // ---------------------------------------------------------------- backing and exact payment

  ghost predicate Backing(w: World, id: string)
    requires id in w.db.errands
  {
    var e := w.db.errands[id];
    && (Saga.Holding(e.status) ==> ReservedAs(w.credit, id, Active))
    && (ReservedAs(w.credit, id, Released) ==> Saga.Refunding(e.status))
    && (ReservedAs(w.credit, id, Transferred) ==> e.status == Completed)
    && (id in w.credit.reservations ==> w.credit.reservations[id].wallet == e.requesterId != e.courierId)
  }

  /** A transferred order paid the courier the reward, once, out of the requester's credits, and touched nobody else. */
  ghost predicate PaidExactly(w: World, id: string)
    requires id in w.db.errands
  {
    var e := w.db.errands[id];
    ReservedAs(w.credit, id, Transferred) ==>
      && Saga.Payments(EntriesOf(w.credit.ledger, id)) == 1
      && forall x :: && NetAvailable(w.credit, id, x) == (if x == e.courierId then e.details.reward
                                                          else if x == e.requesterId then -e.details.reward else 0)
                     && NetReserved(w.credit, id, x) == 0
  }

  /** An order that paid nobody has cost nobody anything but what it still holds. */
  ghost predicate HoldsOnly(w: World, id: string)
    requires id in w.db.errands
  {
    var e := w.db.errands[id];
    !ReservedAs(w.credit, id, Transferred) ==>
      && Saga.Payments(EntriesOf(w.credit.ledger, id)) == 0
      && var held := if ReservedAs(w.credit, id, Active) then w.credit.reservations[id].amount else 0;
      && forall x :: && NetAvailable(w.credit, id, x) == (if x == e.requesterId then -held else 0)
                     && NetReserved(w.credit, id, x) == (if x == e.requesterId then held else 0)
  }

  lemma BackingOf(w: World, id: string)
    requires id in w.db.errands && w.db.errands[id].courierId != w.db.errands[id].requesterId
    requires Saga.Inv(View(w, id))
    ensures Backing(w, id)
  {
    hide KeyOf, EntriesOf, RowsView, DoneView, Saga.BaseInv, Saga.DroppedInv, Saga.SeqInv, Saga.LedgerInv,
         Saga.StatusInv, Saga.RowOk;
  }

  lemma PaidOf(w: World, id: string)
    requires id in w.db.errands && w.db.errands[id].courierId != w.db.errands[id].requesterId
    requires Saga.Inv(View(w, id))
    ensures PaidExactly(w, id) && HoldsOnly(w, id)
  {
    hide KeyOf, EntriesOf, RowsView, DoneView, Saga.BaseInv, Saga.DroppedInv, Saga.SeqInv, Saga.StatusInv, Saga.RowsInv,
         Saga.AnswerInv, Saga.ReservationInv, Saga.AvailableOn, Saga.ReservedOn, Saga.Payments;
    var e := w.db.errands[id];
    var entries := EntriesOf(w.credit.ledger, id);
    var known := if ReservedAs(w.credit, id, Transferred) then {e.requesterId, e.courierId} else {e.requesterId};
    assert Saga.OnlyOn(entries, known) && (entries == [] ==> Saga.OnlyOn(entries, {e.requesterId}));
    assert entries == [] ==> Saga.AvailableOn(entries, e.requesterId) == 0 == Saga.ReservedOn(entries, e.requesterId)
                             && Saga.Payments(entries) == 0 by { EmptySums(e.requesterId); }
    forall x | x !in known
      ensures Saga.AvailableOn(entries, x) == 0 && Saga.ReservedOn(entries, x) == 0
    {
      NothingElsewhere(entries, known, x);
    }
  }

  lemma EmptySums(wallet: string)
    ensures Saga.AvailableOn([], wallet) == 0 && Saga.ReservedOn([], wallet) == 0 && Saga.Payments([]) == 0
  {
  }

  ghost predicate Solvent(w: World) {
    forall id :: id in w.db.errands ==> Backing(w, id) && PaidExactly(w, id) && HoldsOnly(w, id)
  }

  /** In every run: a live errand is backed by an active reservation, a transferred one is COMPLETED and paid its
      courier exactly the reward exactly once, a released one was rejected, cancelled, expired or refunded, and no order
      moves credits in any other way. */
  lemma SolventInRuns(initialCredit: nat, steps: seq<Step>)
    ensures Solvent(Run(initialCredit, steps))
  {
    hide WorldInv, Run, View, Backing, PaidExactly, HoldsOnly, Saga.Inv;
    RunKeepsInv(initialCredit, steps);
    var w := Run(initialCredit, steps);
    forall id | id in w.db.errands
      ensures Backing(w, id) && PaidExactly(w, id) && HoldsOnly(w, id)
    {
      SagaOfRun(w, id);
      ErrandOfRun(w, id);
      BackingOf(w, id);
      PaidOf(w, id);
    }
  }

  lemma ErrandOfRun(w: World, id: string)
    requires id in w.db.errands
    requires WorldInv(w)
    ensures w.db.errands[id].id == id && IsUuid(id) && WellFormed(w.db.errands[id])
    ensures w.db.errands[id].courierId != w.db.errands[id].requesterId
  {
    hide SagaInv, IsUuid, KeyInv, NoticeInv, WireInv, CreditInv, ReplyInv, PastInv, HandlerInv, ConfirmInv, EditInv,
         ReviewInv, DeliveryInv;
  }

  /** Every stored errand is well formed: courier and courier deadlines exactly from ASSIGNED on, never the requester; a
      pending edit only while OPEN, under the key of its version and for another reward; delivery and review facts that
      fit the state. */
  ghost predicate ErrandsWellFormed(w: World) {
    forall id :: id in w.db.errands ==> w.db.errands[id].id == id && WellFormed(w.db.errands[id])
  }

  lemma ErrandsWellFormedInRuns(initialCredit: nat, steps: seq<Step>)
    ensures ErrandsWellFormed(Run(initialCredit, steps))
  {
    hide WorldInv, Run, WellFormed, IsUuid;
    RunKeepsInv(initialCredit, steps);
    var w := Run(initialCredit, steps);
    forall id | id in w.db.errands { ErrandOfRun(w, id); }
  }

  // ---------------------------------------------------------------- nothing is stranded

  /** Every credit command the errand emitted has been answered. */
  ghost predicate AllAnswered(w: World, id: string) {
    forall x: Slot :: x.op.Credit() && KeyOf(id, x) in w.db.outbox ==> KeyOf(id, x) in w.credit.processed
  }

  ghost predicate NothingStranded(w: World) {
    forall id :: id in w.db.errands && Saga.Refunding(w.db.errands[id].status) && AllAnswered(w, id) ==>
      && !ReservedAs(w.credit, id, Active)
      && forall x :: NetAvailable(w.credit, id, x) == 0 && NetReserved(w.credit, id, x) == 0
  }

  lemma ReleasedWhenAnswered(w: World, id: string)
    requires id in w.db.errands && Saga.Refunding(w.db.errands[id].status) && AllAnswered(w, id)
    requires Saga.Inv(View(w, id))
    ensures !ReservedAs(w.credit, id, Active) && !ReservedAs(w.credit, id, Transferred)
  {
    hide KeyOf, EntriesOf, Saga.BaseInv, Saga.DroppedInv, Saga.SeqInv, Saga.LedgerInv, Saga.StatusInv, Saga.RowOk;
    var s := View(w, id);
    assert Saga.RELEASE in s.rows ==> Saga.RELEASE in s.done;
  }

  /** Once every command of an errand that ended without payment has been answered, in whatever order they arrived, the
      order holds nothing and has cost nobody anything. */
  lemma NothingStrandedInRuns(initialCredit: nat, steps: seq<Step>)
    ensures NothingStranded(Run(initialCredit, steps))
  {
    hide WorldInv, Run, View, Backing, PaidExactly, Saga.Inv, AllAnswered, NetAvailable, NetReserved;
    RunKeepsInv(initialCredit, steps);
    SolventInRuns(initialCredit, steps);
    var w := Run(initialCredit, steps);
    forall id | id in w.db.errands && Saga.Refunding(w.db.errands[id].status) && AllAnswered(w, id)
      ensures !ReservedAs(w.credit, id, Active)
      ensures forall x :: NetAvailable(w.credit, id, x) == 0 && NetReserved(w.credit, id, x) == 0
    {
      SagaOfRun(w, id);
      ReleasedWhenAnswered(w, id);
      assert HoldsOnly(w, id);
    }
  }

  // ---------------------------------------------------------------- optimistic concurrency is serial

  /** The columns the store compares. */
  ghost predicate SameTriple(s: Errand, r: Errand) {
    s.id == r.id && s.status == r.status && s.version == r.version && s.EditKey() == r.EditKey()
  }

  /** Two stored rows with the same (status, version, edit key) are the same row, and what is written is what `Next`
      decides on the row as it is. */
  ghost predicate Serial(w: World) {
    && (forall s, r :: s in w.past && r in w.past && SameTriple(s, r) ==> s == r)
    && (forall seen, ev, a, input, now ::
          seen in w.past && Next(seen, ev, a, input, now).Ok? && StoreTakes(w, seen, ev, a, input, now) ==>
            seen == w.db.errands[seen.id])
  }

  ghost predicate StoreTakes(w: World, seen: Errand, ev: Event, a: Actor, input: EventInput, now: Time)
    requires Next(seen, ev, a, input, now).Ok?
  {
    seen.id in w.db.errands && Apply(w.db, Next(seen, ev, a, input, now).value).Committed?
  }

  lemma TripleIsRank(s: Errand, r: Errand)
    requires SameTriple(s, r) && WellFormed(s) && WellFormed(r)
    ensures Rank(s) == Rank(r)
  {
    hide KeyOf, DeliveryInv, ReviewInv;
    KeyNotEmpty(s.id, Slot(Adjust, s.version));
    KeyNotEmpty(r.id, Slot(Adjust, r.version));
  }

  lemma TakenIsCurrent(w: World, seen: Errand, ev: Event, a: Actor, input: EventInput, now: Time)
    requires seen in w.past && seen.id in w.db.errands && Next(seen, ev, a, input, now).Ok?
    requires StoreTakes(w, seen, ev, a, input, now)
    requires Earlier(seen, w.db.errands[seen.id]) && WellFormed(w.db.errands[seen.id])
    ensures seen == w.db.errands[seen.id]
  {
    hide Next, Enabled, Means, Commit, KeysFree, Fenced, EditTarget, HasOpenReview, CompareAndSwap, WellFormed, Rank;
    NextMeans(seen, ev, a, input, now);
    var t := Next(seen, ev, a, input, now).value;
    MeansHeader(t, seen, ev, a, input, now);
    SwapIsCurrent(seen, w.db.errands[seen.id], t, ev, a, input, now);
  }

  lemma PastOfRun(w: World)
    requires WorldInv(w)
    ensures PastInv(w) && IdsInv(w.db)
  {
    hide SagaInv, IdsInv, KeyInv, NoticeInv, WireInv, CreditInv, ReplyInv, PastInv, HandlerInv, ConfirmInv;
  }

  /** Writers that decide on arbitrarily stale rows behave as if they ran one after the other. */
  lemma SerialInRuns(initialCredit: nat, steps: seq<Step>)
    ensures Serial(Run(initialCredit, steps))
  {
    hide WorldInv, Run, Next, WellFormed, Rank, SameTriple, StoreTakes, IsUuid;
    RunKeepsInv(initialCredit, steps);
    var w := Run(initialCredit, steps);
    PastOfRun(w);
    forall s, r | s in w.past && r in w.past && SameTriple(s, r)
      ensures s == r
    {
      assert s.id == r.id by { TripleIds(s, r); }
      TripleIsRank(s, r);
    }
    forall seen, ev, a, input, now | seen in w.past && Next(seen, ev, a, input, now).Ok?
      && StoreTakes(w, seen, ev, a, input, now)
      ensures seen == w.db.errands[seen.id]
    {
      TakenIsCurrent(w, seen, ev, a, input, now);
    }
  }

  /** The store never forgets a row it once held. */
  lemma PastGrows(w: World, s: Step)
    ensures w.past <= Do(w, s).past
  {
    hide Next, Apply, Create, Fresh, FromResult, CreditRecord, CreateWallet, Process, ResultEvent, StageAfterRead,
         IsUuid, KeyOf, RejectionKey, AfterRefusedWrite, FirstStage, MessageOf;
  }

  lemma {:induction false} PastGrowsInRuns(initialCredit: nat, a: seq<Step>, b: seq<Step>)
    ensures Run(initialCredit, a).past <= Run(initialCredit, a + b).past
  {
    hide Do;
    if b == [] {
      assert a + b == a;
    } else {
      var before := b[..|b| - 1];
      assert (a + b)[..|a + b| - 1] == a + before;
      PastGrowsInRuns(initialCredit, a, before);
      PastGrows(Run(initialCredit, a + before), b[|b| - 1]);
    }
  }

  /** The errand of a later world is the same row, or one the machine reaches only afterwards. */
  lemma LaterInRuns(initialCredit: nat, a: seq<Step>, b: seq<Step>, id: string)
    requires id in Run(initialCredit, a).db.errands
    ensures id in Run(initialCredit, a + b).db.errands
    ensures Earlier(Run(initialCredit, a).db.errands[id], Run(initialCredit, a + b).db.errands[id])
    ensures WellFormed(Run(initialCredit, a + b).db.errands[id])
  {
    hide WorldInv, Run, WellFormed, Earlier, IsUuid, Rank;
    RunKeepsInv(initialCredit, a);
    RunKeepsInv(initialCredit, a + b);
    PastOfRun(Run(initialCredit, a));
    PastOfRun(Run(initialCredit, a + b));
    PastGrowsInRuns(initialCredit, a, b);
  }

  /** Once an errand's row has changed, no row it ever has again carries the old status, version and edit key: a
      transition decided on the old row never passes the compare-and-swap. */
  lemma NeverRecursInRuns(initialCredit: nat, a: seq<Step>, b: seq<Step>, c: seq<Step>, id: string)
    requires id in Run(initialCredit, a).db.errands
    ensures id in Run(initialCredit, a + b).db.errands && id in Run(initialCredit, a + b + c).db.errands
    ensures Run(initialCredit, a).db.errands[id] != Run(initialCredit, a + b).db.errands[id] ==>
              !SameTriple(Run(initialCredit, a).db.errands[id], Run(initialCredit, a + b + c).db.errands[id])
  {
    hide Run, WellFormed, Rank, SameTriple;
    assert a + [] == a;
    LaterInRuns(initialCredit, a, [], id);
    LaterInRuns(initialCredit, a, b, id);
    LaterInRuns(initialCredit, a + b, c, id);
    var was, now := Run(initialCredit, a).db.errands[id], Run(initialCredit, a + b + c).db.errands[id];
    if SameTriple(was, now) {
      TripleIsRank(was, now);
    }
  }

  lemma RunStep(initialCredit: nat, steps: seq<Step>, s: Step)
    ensures Run(initialCredit, steps + [s]) == Do(Run(initialCredit, steps), s)
  {
    hide Do;
    assert (steps + [s])[..|steps|] == steps;
  }

  lemma TripleIds(s: Errand, r: Errand)
    requires SameTriple(s, r)
    ensures s.id == r.id
  {
  }
}
