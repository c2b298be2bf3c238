/** Review rows and errands agree in every run. */
module ReviewTheorems {
  import opened Prelude
  import opened Keys
  import opened Errands
  import opened StateMachine
  import opened StoreModel
  import opened Lifecycle
  import opened Composite
  import opened CompositeInv
  import opened CompositeProofs
  import opened Theorems
  import opened ResultTheorems
  import opened StoreSteps
  import Saga

  /** How many open reviews an errand has. */
  function OpenReviews(reviews: seq<Review>, id: string): (n: nat) {
    if reviews == [] then 0
    else (if IsOpenReview(reviews[0], id) then 1 else 0) + OpenReviews(reviews[1..], id)
  }

  /** Exactly one open review for every errand under review, none for any other. */
  ghost predicate ReviewsMatch(db: Db) {
    forall id ::
      OpenReviews(db.reviews, id) == if id in db.errands && db.errands[id].status == ReviewRequired then 1 else 0
  }

  lemma {:induction false} AppendedReview(reviews: seq<Review>, r: Review, id: string)
    ensures OpenReviews(reviews + [r], id) == OpenReviews(reviews, id) + if IsOpenReview(r, id) then 1 else 0
  {
    if reviews == [] {
      assert reviews + [r] == [r];
    } else {
      AppendedReview(reviews[1..], r, id);
      assert (reviews + [r])[1..] == reviews[1..] + [r];
    }
  }

  lemma {:induction false} ResolvedReview(reviews: seq<Review>, t: Transition, id: string)
    ensures OpenReviews(Resolve(reviews, t), id)
         == OpenReviews(reviews, id) - if id == t.errandId && OpenReviews(reviews, id) > 0 then 1 else 0
  {
    if reviews != [] {
      ResolvedReview(reviews[1..], t, id);
    }
  }

  lemma {:induction false} OpenReviewExists(reviews: seq<Review>, id: string)
    ensures HasOpenReview(reviews, id) <==> OpenReviews(reviews, id) > 0
  {
    if reviews != [] {
      OpenReviewExists(reviews[1..], id);
      if IsOpenReview(reviews[0], id) {
        assert HasOpenReview(reviews, id);
      } else {
        assert forall i :: 1 <= i < |reviews| ==> reviews[i] == reviews[1..][i - 1];
      }
    }
  }

  /** Entering review opens one, leaving it resolves one, and nothing else touches reviews. */
  lemma WrittenReviews(reviews: seq<Review>, after: Errand, t: Transition, id: string)
    requires !(t.from == ReviewRequired && t.to == ReviewRequired)
    requires OpenReviews(reviews, t.errandId) == if t.from == ReviewRequired then 1 else 0
    ensures OpenReviews(WriteReview(reviews, after, t), id)
         == if id == t.errandId then (if t.to == ReviewRequired then 1 else 0) else OpenReviews(reviews, id)
  {
    AppendedReview(reviews, OpenedReview(after, t), id);
    ResolvedReview(reviews, t, id);
    hide OpenReviews, Resolve, IsBlank;
  }

  lemma NextLeavesReview(e: Errand, ev: Event, a: Actor, input: EventInput, now: Time)
    requires Next(e, ev, a, input, now).Ok?
    ensures var t := Next(e, ev, a, input, now).value;
      && t.errandId == e.id && t.from == e.status && t.to == t.ApplyTo(e).status && t.ApplyTo(e).id == e.id
      && !(t.from == ReviewRequired && t.to == ReviewRequired)
  {
    hide Next, EmissionOf, CreditOrderOf, OutboxOf, ReasonOf, KeyOf, IsBlank;
    NextMeans(e, ev, a, input, now);
  }

  lemma CommitReviews(db: Db, e: Errand, t: Transition)
    requires t.errandId == e.id && t.from == e.status && t.to == t.ApplyTo(e).status && t.ApplyTo(e).id == e.id
    requires !(t.from == ReviewRequired && t.to == ReviewRequired)
    requires if e.id in db.errands then db.errands[e.id] == e else e.status != ReviewRequired
    requires ReviewsMatch(db)
    ensures ReviewsMatch(Commit(db, e, t))
  {
    hide OpenReviews, AddRows, WriteReview;
    var db' := Commit(db, e, t);
    assert OpenReviews(db.reviews, t.errandId) == if t.from == ReviewRequired then 1 else 0;
    forall id
      ensures OpenReviews(db'.reviews, id)
           == if id in db'.errands && db'.errands[id].status == ReviewRequired then 1 else 0
    {
      WrittenReviews(db.reviews, t.ApplyTo(e), t, id);
    }
  }

  lemma StepKeepsReviews(w: World, s: Step)
    requires ReviewsMatch(w.db)
    requires WorldInv(w)
    ensures ReviewsMatch(Do(w, s).db)
  {
    hide Do, OpenReviews, WorldInv, Next, Commit, KeysFree, Fenced, WellFormed, CompareAndSwap, EditTarget;
    var x := StepWrites(w, s);
    match x
    case Nothing =>
    case Updated(e, t, ev, a, input, now) =>
      NextLeavesReview(e, ev, a, input, now);
      CommitReviews(w.db, e, t);
    case Inserted(e, t, now) =>
      NextLeavesReview(e, Submit, Actor(RequesterActor, e.requesterId), NO_INPUT, now);
      CommitReviews(w.db, e, t);
      KeysDoNotMatter(Commit(w.db, e, t), w.db.createKeys[(e.requesterId, e.createIdempotencyKey) := e.id]);
  }

  lemma KeysDoNotMatter(db: Db, keys: map<(string, string), string>)
    requires ReviewsMatch(db)
    ensures ReviewsMatch(db.(createKeys := keys))
  {
  }

  /** In every run, an errand has exactly one open review if and only if it is REVIEW_REQUIRED. */
  lemma {:induction false} ReviewsMatchInRuns(initialCredit: nat, steps: seq<Step>)
    ensures ReviewsMatch(Run(initialCredit, steps).db)
  {
    hide WorldInv, Do, OpenReviews, ReviewsMatch;
    if steps == [] {
      NoReviews(initialCredit);
    } else {
      var before := steps[..|steps| - 1];
      ReviewsMatchInRuns(initialCredit, before);
      RunKeepsInv(initialCredit, before);
      StepKeepsReviews(Run(initialCredit, before), steps[|steps| - 1]);
    }
  }

  lemma NoReviews(initialCredit: nat)
    ensures ReviewsMatch(Init(initialCredit).db)
  {
  }

  // ---------------------------------------------------------------- a current decision is always stored

  /** The store takes what is decided on the row as it is, unless a fence guards the supplier an edit moves to. */
  ghost predicate TakesCurrent(w: World) {
    forall id, ev, a, input, now :: id in w.db.errands && Next(w.db.errands[id], ev, a, input, now).Ok? ==>
      var t := Next(w.db.errands[id], ev, a, input, now).value;
      var to := EditTarget(w.db.errands[id], t);
      Apply(w.db, t) == if to.Some? && Fenced(w.db.fences, to.value) then Aborted(SupplierDeletionInProgress)
                        else Committed(Commit(w.db, w.db.errands[id], t))
  }

  lemma CurrentIsTaken(w: World, id: string, ev: Event, a: Actor, input: EventInput, now: Time)
    requires id in w.db.errands && Next(w.db.errands[id], ev, a, input, now).Ok?
    requires w.db.errands[id].id == id && WellFormed(w.db.errands[id]) && ReviewsMatch(w.db)
    requires RowsAreNew(w, Next(w.db.errands[id], ev, a, input, now).value)
    ensures var t := Next(w.db.errands[id], ev, a, input, now).value;
            var to := EditTarget(w.db.errands[id], t);
            Apply(w.db, t) == if to.Some? && Fenced(w.db.fences, to.value) then Aborted(SupplierDeletionInProgress)
                              else Committed(Commit(w.db, w.db.errands[id], t))
  {
    hide Next, Enabled, Means, Commit, KeysFree, Fenced, EditTarget, HasOpenReview, CompareAndSwap, OpenReviews;
    var e := w.db.errands[id];
    NextMeans(e, ev, a, input, now);
    var t := Next(e, ev, a, input, now).value;
    MeansHeader(t, e, ev, a, input, now);
    SwapIsCurrent(e, e, t, ev, a, input, now);
    OpenReviewExists(w.db.reviews, id);
    hide WellFormed, Saga.Cmd;
  }

  /** No decision on a current row ever meets a missing review, a duplicate key or a lost race. */
  lemma TakesCurrentInRuns(initialCredit: nat, steps: seq<Step>)
    ensures TakesCurrent(Run(initialCredit, steps))
  {
    hide WorldInv, Run, Next, Apply, Commit, RowsAreNew, ReviewsMatch, WellFormed, EditTarget, Fenced, IsUuid, Submits;
    RunKeepsInv(initialCredit, steps);
    ReviewsMatchInRuns(initialCredit, steps);
    OutboxSafeInRuns(initialCredit, steps);
    var w := Run(initialCredit, steps);
    forall id, ev, a, input, now | id in w.db.errands && Next(w.db.errands[id], ev, a, input, now).Ok?
      ensures var t := Next(w.db.errands[id], ev, a, input, now).value;
              var to := EditTarget(w.db.errands[id], t);
              Apply(w.db, t) == if to.Some? && Fenced(w.db.fences, to.value) then Aborted(SupplierDeletionInProgress)
                                else Committed(Commit(w.db, w.db.errands[id], t))
    {
      ErrandOfRun(w, id);
      CurrentIsTaken(w, id, ev, a, input, now);
    }
  }
}
