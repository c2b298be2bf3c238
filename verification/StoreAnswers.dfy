/** What the store answers to every submission and every decision of a run, and what it then writes, table by table. */
module StoreAnswers {
  import opened Prelude
  import opened Keys
  import opened Errands
  import opened StateMachine
  import opened StoreModel
  import opened Lifecycle
  import opened Acceptance
  import opened Composite
  import opened CompositeInv
  import opened CompositeProofs
  import opened Theorems
  import opened ResultTheorems
  import opened StoreSteps
  import opened ReviewTheorems
  import opened FenceTheorems

  // ---------------------------------------------------------------- fences

  /** Every fence the supplier ever had was released. */
  ghost predicate AllReleased(db: Db, supplier: string) {
    forall op :: op in db.fences && db.fences[op].supplierId == supplier ==> db.fences[op].state == FenceReleased
  }

  /** An edit may stay at its supplier, and may move to one whose fences were all released. */
  ghost predicate MayMove(db: Db, e: Errand, ev: Event, input: EventInput) {
    ev == Edit && input.edit.Some? ==>
      var to := input.edit.value.supplierId;
      to == "" || to == e.details.supplierId || AllReleased(db, to)
  }

  lemma FencedMeans(db: Db, supplier: string)
    ensures Fenced(db.fences, supplier) <==> !AllReleased(db, supplier)
  {
  }

  lemma MoveAgrees(db: Db, e: Errand, t: Transition, ev: Event, a: Actor, input: EventInput, now: Time)
    requires Next(e, ev, a, input, now) == Ok(t)
    ensures EditTarget(e, t).Some? && Fenced(db.fences, EditTarget(e, t).value) <==> !MayMove(db, e, ev, input)
  {
    hide Next, Fenced, AllReleased, Enabled, Means;
    NextMeans(e, ev, a, input, now);
    MeansHeader(t, e, ev, a, input, now);
    if ev == Edit {
      EditNamesSupplier(e, a, input, now);
      FencedMeans(db, input.edit.value.supplierId);
      hide EditTarget;
    }
  }

  // ---------------------------------------------------------------- what is written

  /** The errand's one open review, resolved; or a new one; or no change. */
  ghost predicate ReviewsWritten(before: seq<Review>, after: seq<Review>, e: Errand, ev: Event, a: Actor,
                                 input: EventInput, now: Time)
  {
    match ev
    case ReportIssue => after == before + [Review(e.id, CourierIssue, a.id, input.reason, now, None, "", "", None)]
    case Dispute => after == before + [Review(e.id, RequesterDispute, a.id, input.reason, now, None, "", "", None)]
    case DeliveryDeadlinePassed =>
      var note := if HasText(input.reason) then input.reason else "";
      after == before + [Review(e.id, DeliveryOverdue, "", note, now, None, "", "", None)]
    case AdminComplete => ResolvedOne(before, after, e.id, Completed, a.id, input.reason, now)
    case AdminRefund => ResolvedOne(before, after, e.id, Refunded, a.id, input.reason, now)
    case _ => after == before
  }

  ghost predicate ResolvedOne(before: seq<Review>, after: seq<Review>, id: string, to: Status, resolver: string,
                              reason: string, now: Time)
  {
    exists i :: 0 <= i < |before| && before[i].errandId == id && before[i].resolution.None?
      && after == before[i := before[i].(resolution := Some(to), resolverId := resolver, resolutionReason := reason,
                                         resolvedAt := Some(now))]
  }

  /** The rows are added as pending, and no other row is touched. */
  ghost predicate RowsWritten(before: map<string, OutboxRecord>, after: map<string, OutboxRecord>, rows: seq<OutboxRow>,
                              version: nat, now: Time)
  {
    && (forall k :: k in before ==> k in after && after[k] == before[k])
    && (forall i :: 0 <= i < |rows| ==>
          && rows[i].key !in before && rows[i].key in after
          && after[rows[i].key] == OutboxRecord(rows[i], version, now, RowPending))
    && (forall k :: k in after ==> k in before || exists i :: 0 <= i < |rows| && rows[i].key == k)
  }

  /** One accepted event in every table: the errand's new row; its record, with the courier the event is about; the
      review it opens or resolves; its command and announcements. */
  ghost predicate Written(db: Db, db': Db, e: Errand, ev: Event, a: Actor, input: EventInput, now: Time)
    requires Enabled(e, ev, a, input, now)
  {
    var e' := Effect(e, ev, a, input, now);
    && db'.errands == db.errands[e.id := e']
    && RecordWritten(db, db', e, ev, a, input, now)
    && ReviewsWritten(db.reviews, db'.reviews, e, ev, a, input, now)
    && RowsWritten(db.outbox, db'.outbox, OutboxOf(e, ev, a, input, now), e'.version, now)
    && db'.fences == db.fences && db'.notices == db.notices
  }

  ghost predicate RecordWritten(db: Db, db': Db, e: Errand, ev: Event, a: Actor, input: EventInput, now: Time)
    requires Enabled(e, ev, a, input, now)
  {
    var n := |db.transitions|;
    && |db'.transitions| == n + 1 && db'.transitions[..n] == db.transitions
    && var r := db'.transitions[n];
    && r.t.errandId == e.id && r.t.from == e.status && r.t.to == Effect(e, ev, a, input, now).status
    && r.t.event == ev && r.t.actor == a && r.t.reason == ReasonOf(ev, input) && r.t.at == now
    && r.courierId == if ev == Accept then a.id else e.courierId
  }

  // ---------------------------------------------------------------- Commit writes that

  /** Stored, or new. */
  ghost predicate Shaped(e: Errand) {
    WellFormed(e) || (e.status == NoStatus && e.courierId == "")
  }

  lemma CourierInvolved(e: Errand, ev: Event, a: Actor, input: EventInput, now: Time)
    requires Shaped(e) && Enabled(e, ev, a, input, now)
    ensures (if e.courierId != "" then e.courierId else Effect(e, ev, a, input, now).courierId)
         == if ev == Accept then a.id else e.courierId
  {
    hide KeyOf, IsBlank, DetailsOk, DeliveryInv, ReviewInv, EditInv;
  }

  lemma RecordGiven(db: Db, e: Errand, t: Transition, ev: Event, a: Actor, input: EventInput, now: Time)
    requires Shaped(e) && Enabled(e, ev, a, input, now) && Means(t, e, ev, a, input, now)
    ensures RecordWritten(db, Commit(db, e, t), e, ev, a, input, now)
  {
    CourierInvolved(e, ev, a, input, now);
    hide Shaped, Enabled, Effect, OutboxOf, ReasonOf, AddRows, WriteReview;
  }

  lemma RowsGiven(db: Db, e: Errand, t: Transition, ev: Event, a: Actor, input: EventInput, now: Time)
    requires Enabled(e, ev, a, input, now) && Means(t, e, ev, a, input, now) && KeysFree(db, t.outbox)
    ensures RowsWritten(db.outbox, Commit(db, e, t).outbox, OutboxOf(e, ev, a, input, now),
                        Effect(e, ev, a, input, now).version, now)
  {
    hide Enabled, Effect, OutboxOf, ReasonOf, AddRows, WriteReview;
    AddRowsGives(db.outbox, t.outbox, t.ApplyTo(e).version, t.at);
  }

  lemma {:induction false} FirstOpen(reviews: seq<Review>, t: Transition) returns (i: nat)
    requires HasOpenReview(reviews, t.errandId)
    ensures i < |reviews| && IsOpenReview(reviews[i], t.errandId)
    ensures Resolve(reviews, t)
         == reviews[i := reviews[i].(resolution := Some(t.to), resolverId := t.actor.id, resolutionReason := t.reason,
                                     resolvedAt := Some(t.at))]
  {
    if IsOpenReview(reviews[0], t.errandId) {
      i := 0;
    } else {
      assert forall j :: 1 <= j < |reviews| ==> reviews[j] == reviews[1..][j - 1];
      i := FirstOpen(reviews[1..], t);
      i := i + 1;
    }
  }

  /** Where the event leads, and what the errand says of it. */
  lemma ReviewEvents(e: Errand, ev: Event, a: Actor, input: EventInput, now: Time)
    requires Enabled(e, ev, a, input, now)
    ensures var e' := Effect(e, ev, a, input, now);
      match ev
      case ReportIssue => e'.status == ReviewRequired && e'.reviewReason == CourierIssue && a.kind == CourierActor
      case Dispute => e'.status == ReviewRequired && e'.reviewReason == RequesterDispute && a.kind == RequesterActor
      case DeliveryDeadlinePassed => e'.status == ReviewRequired && e'.reviewReason == DeliveryOverdue && a == SYSTEM
      case AdminComplete => e.status == ReviewRequired && e'.status == Completed
      case AdminRefund => e.status == ReviewRequired && e'.status == Refunded
      case _ => e.status != ReviewRequired && e'.status != ReviewRequired
    ensures ev in {ReportIssue, Dispute, AdminComplete, AdminRefund} ==> !IsBlank(input.reason)
  {
    hide KeyOf, IsBlank, DetailsOk;
  }

  lemma ReasonGiven(ev: Event, input: EventInput)
    requires ev in {ReportIssue, Dispute, AdminComplete, AdminRefund, DeliveryDeadlinePassed}
    ensures ReasonOf(ev, input) == input.reason
  {
  }

  lemma ReviewsGiven(db: Db, e: Errand, t: Transition, ev: Event, a: Actor, input: EventInput, now: Time)
    requires Enabled(e, ev, a, input, now) && Means(t, e, ev, a, input, now)
    requires e.status == ReviewRequired ==> HasOpenReview(db.reviews, e.id)
    ensures ReviewsWritten(db.reviews, Commit(db, e, t).reviews, e, ev, a, input, now)
  {
    hide Enabled, Effect, OutboxOf, ReasonOf, AddRows, Resolve, IsBlank, HasText, HasOpenReview;
    ReviewEvents(e, ev, a, input, now);
    BlankHasNoText(input.reason);
    match ev
    case ReportIssue | Dispute | DeliveryDeadlinePassed => ReasonGiven(ev, input);
    case AdminComplete | AdminRefund =>
      ReasonGiven(ev, input);
      var i := FirstOpen(db.reviews, t);
    case _ =>
  }

  lemma CommitWrites(db: Db, e: Errand, t: Transition, ev: Event, a: Actor, input: EventInput, now: Time)
    requires Shaped(e) && Next(e, ev, a, input, now) == Ok(t) && KeysFree(db, t.outbox)
    requires e.status == ReviewRequired ==> HasOpenReview(db.reviews, e.id)
    ensures Enabled(e, ev, a, input, now) && Written(db, Commit(db, e, t), e, ev, a, input, now)
    ensures Commit(db, e, t).createKeys == db.createKeys
  {
    hide Shaped, Next, Enabled, Effect, OutboxOf, ReasonOf, AddRows, WriteReview, RecordWritten, ReviewsWritten,
         RowsWritten, HasOpenReview, KeysFree;
    NextMeans(e, ev, a, input, now);
    RecordGiven(db, e, t, ev, a, input, now);
    ReviewsGiven(db, e, t, ev, a, input, now);
    RowsGiven(db, e, t, ev, a, input, now);
    CommitStoresErrand(db, e, t);
    MeansApplied(t, e, ev, a, input, now);
    hide Means;
  }

  lemma MeansApplied(t: Transition, e: Errand, ev: Event, a: Actor, input: EventInput, now: Time)
    requires Enabled(e, ev, a, input, now) && Means(t, e, ev, a, input, now)
    ensures t.ApplyTo(e) == Effect(e, ev, a, input, now)
  {
    hide Enabled, Effect, OutboxOf, ReasonOf;
  }

  /** In any database, a row whose key is stored, or comes twice, is never written. */
  lemma CollisionsAbort(db: Db, e: Errand, t: Transition, i: nat, j: nat)
    requires i < |t.outbox| && j < |t.outbox|
    requires t.outbox[i].key in db.outbox || t.outbox[i].key in db.notices
      || (i != j && t.outbox[i].key == t.outbox[j].key)
    ensures Apply(db, t).Aborted?
    ensures Create(db, e, t).Aborted? || Create(db, e, t) == Committed(db)
  {
    hide Commit, CompareAndSwap, EditTarget, Fenced, HasOpenReview;
  }

  // ---------------------------------------------------------------- decisions

  /** The answer to what was decided on a row read at any time before. */
  ghost predicate DecisionAnswered(db: Db, seen: Errand, ev: Event, a: Actor, input: EventInput, now: Time)
    requires Next(seen, ev, a, input, now).Ok?
  {
    && seen.id in db.errands && Enabled(seen, ev, a, input, now)
    && var cur, r := db.errands[seen.id], Apply(db, Next(seen, ev, a, input, now).value);
    && if cur.status != seen.status then r == Aborted(ErrandUnavailable)
       else if cur != seen then r == Aborted(ErrandChanged)
       else if !MayMove(db, cur, ev, input) then r == Aborted(SupplierDeletionInProgress)
       else r.Committed? && r.db.createKeys == db.createKeys && Written(db, r.db, cur, ev, a, input, now)
  }

  lemma StaleAnswer(db: Db, seen: Errand, ev: Event, a: Actor, input: EventInput, now: Time)
    requires Next(seen, ev, a, input, now).Ok? && seen.id in db.errands && seen != db.errands[seen.id]
    requires Earlier(seen, db.errands[seen.id]) && WellFormed(db.errands[seen.id])
    ensures Apply(db, Next(seen, ev, a, input, now).value)
         == Aborted(if db.errands[seen.id].status != seen.status then ErrandUnavailable else ErrandChanged)
  {
    hide Next, Enabled, Commit, KeysFree, Fenced, EditTarget, HasOpenReview, WellFormed, Rank, OutboxOf, ReasonOf,
         Effect;
    var cur := db.errands[seen.id];
    NextMeans(seen, ev, a, input, now);
    var t := Next(seen, ev, a, input, now).value;
    FromStored(seen, ev, a, input, now);
    if SameTriple(seen, cur) {
      TripleIsRank(seen, cur);
    }
  }

  lemma FromStored(e: Errand, ev: Event, a: Actor, input: EventInput, now: Time)
    requires WellFormed(e) && Enabled(e, ev, a, input, now)
    ensures e.status != NoStatus
  {
    hide KeyOf, IsBlank, DetailsOk;
  }

  lemma CurrentAnswer(w: World, seen: Errand, ev: Event, a: Actor, input: EventInput, now: Time)
    requires Next(seen, ev, a, input, now).Ok? && seen.id in w.db.errands && seen == w.db.errands[seen.id]
    requires WellFormed(seen) && ReviewsMatch(w.db) && RowsAreNew(w, Next(seen, ev, a, input, now).value)
    ensures DecisionAnswered(w.db, seen, ev, a, input, now)
  {
    hide Next, Enabled, Effect, Commit, WellFormed, MayMove, Fenced, EditTarget, Written, ReviewsMatch, Apply, KeysFree,
         HasOpenReview;
    var t := Next(seen, ev, a, input, now).value;
    CurrentIsTaken(w, seen.id, ev, a, input, now);
    MoveAgrees(w.db, seen, t, ev, a, input, now);
    OpenWhenRequired(w.db, seen.id);
    CommitWrites(w.db, seen, t, ev, a, input, now);
  }

  lemma OpenWhenRequired(db: Db, id: string)
    requires id in db.errands && ReviewsMatch(db)
    ensures db.errands[id].status == ReviewRequired ==> HasOpenReview(db.reviews, id)
  {
    hide OpenReviews, HasOpenReview;
    OpenReviewExists(db.reviews, id);
  }

  ghost predicate DecisionsAnswered(w: World) {
    forall seen, ev, a, input, now :: seen in w.past && Next(seen, ev, a, input, now).Ok? ==>
      DecisionAnswered(w.db, seen, ev, a, input, now)
  }

  /** In every run, for everything anybody can decide on any row the errand ever had: a row in another state is
      unavailable, one that changed otherwise has changed, an edit towards a supplier with a fence that is not released
      is refused, and anything else is written as it should be. */
  lemma DecisionsInRuns(initialCredit: nat, steps: seq<Step>)
    ensures DecisionsAnswered(Run(initialCredit, steps))
  {
    hide WorldInv, Run, Next, DecisionAnswered, Earlier, Rank, IsUuid, ReviewsMatch, WellFormed, RowsAreNew, Submits;
    RunKeepsInv(initialCredit, steps);
    ReviewsMatchInRuns(initialCredit, steps);
    OutboxSafeInRuns(initialCredit, steps);
    var w := Run(initialCredit, steps);
    PastOfRun(w);
    forall seen, ev, a, input, now | seen in w.past && Next(seen, ev, a, input, now).Ok?
      ensures DecisionAnswered(w.db, seen, ev, a, input, now)
    {
      if seen == w.db.errands[seen.id] {
        CurrentAnswer(w, seen, ev, a, input, now);
      } else {
        StaleAnswered(w.db, seen, ev, a, input, now);
      }
    }
  }

  lemma StaleAnswered(db: Db, seen: Errand, ev: Event, a: Actor, input: EventInput, now: Time)
    requires Next(seen, ev, a, input, now).Ok? && seen.id in db.errands && seen != db.errands[seen.id]
    requires Earlier(seen, db.errands[seen.id]) && WellFormed(db.errands[seen.id])
    ensures DecisionAnswered(db, seen, ev, a, input, now)
  {
    hide Next, Enabled, Apply, WellFormed, Rank, MayMove, Written;
    NextMeans(seen, ev, a, input, now);
    StaleAnswer(db, seen, ev, a, input, now);
  }

  // ---------------------------------------------------------------- submissions

  /** The answer to a submission: one errand per requester and key, none for a supplier with a fence that is not
      released. */
  ghost predicate SubmissionAnswered(db: Db, e: Errand, now: Time)
    requires Submits(e, now).Ok?
  {
    var a, r := Actor(RequesterActor, e.requesterId), Create(db, e, Submits(e, now).value);
    var key := (e.requesterId, e.createIdempotencyKey);
    && Enabled(e, Submit, a, NO_INPUT, now)
    && if e.createIdempotencyKey == "" then r == Aborted(InvalidArgument)
       else if key in db.createKeys then r == Committed(db)
       else if !AllReleased(db, e.details.supplierId) then r == Aborted(SupplierDeletionInProgress)
       else if e.id in db.errands then r == Aborted(PlainError)
       else
         && r.Committed? && r.db.createKeys == db.createKeys[key := e.id]
         && Written(db, r.db, e, Submit, a, NO_INPUT, now)
  }

  ghost predicate SubmissionsAnswered(w: World) {
    forall e, now :: Fresh(e) && Submits(e, now).Ok? ==> SubmissionAnswered(w.db, e, now)
  }

  lemma SubmissionAnswer(w: World, e: Errand, now: Time)
    requires Fresh(e) && Submits(e, now).Ok?
    requires e.id !in w.db.errands ==> KeysFree(w.db, Submits(e, now).value.outbox)
    ensures SubmissionAnswered(w.db, e, now)
  {
    hide Next, Enabled, Effect, Commit, Means, Fenced, AllReleased, KeysFree, OutboxOf, IsUuid;
    var a, t := Actor(RequesterActor, e.requesterId), Submits(e, now).value;
    NextMeans(e, Submit, a, NO_INPUT, now);
    MeansHeader(t, e, Submit, a, NO_INPUT, now);
    FencedMeans(w.db, e.details.supplierId);
    if e.id !in w.db.errands {
      CommitWrites(w.db, e, t, Submit, a, NO_INPUT, now);
      WrittenIgnoresKeys(w.db, Commit(w.db, e, t), e, Submit, a, NO_INPUT, now);
    }
    hide Written;
  }

  lemma WrittenIgnoresKeys(db: Db, db': Db, e: Errand, ev: Event, a: Actor, input: EventInput, now: Time)
    requires Enabled(e, ev, a, input, now) && Written(db, db', e, ev, a, input, now)
    ensures forall keys :: Written(db, db'.(createKeys := keys), e, ev, a, input, now)
  {
    hide Enabled, Effect, OutboxOf, ReasonOf, ReviewsWritten, RowsWritten;
  }

  /** In every run, a submission that `Next` accepts is stored exactly when its key and its ID are new and every fence
      of its supplier was released. */
  lemma SubmissionsInRuns(initialCredit: nat, steps: seq<Step>)
    ensures SubmissionsAnswered(Run(initialCredit, steps))
  {
    hide Run, Next, SubmissionAnswered, Fresh, KeysFree, RowsAreNew;
    OutboxSafeInRuns(initialCredit, steps);
    var w := Run(initialCredit, steps);
    forall e, now | Fresh(e) && Submits(e, now).Ok?
      ensures SubmissionAnswered(w.db, e, now)
    {
      SubmissionAnswer(w, e, now);
    }
  }
}
