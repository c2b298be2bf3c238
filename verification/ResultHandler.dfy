/** The retry loop that applies a credit result, while others write to the same store between its read and its write. */
module ResultHandler {
  import opened Prelude
  import opened Keys
  import opened Errands
  import opened StateMachine
  import opened Wallets
  import opened StoreModel
  import opened Lifecycle
  import opened Composite
  import opened CompositeInv
  import opened CompositeRows
  import opened CompositeWrites
  import opened CompositeProofs
  import opened Store
  import opened Scheduler
  import opened Handling
  import StoreSteps

  datatype Handled = AppliedOutcome | ResolvedOutcome | Poison | Retry

  /** Something another writer does: it reads an errand, decides an event on it and applies the decision. */
  datatype Other = Other(id: string, ev: Event, actor: Actor, input: EventInput, now: Time)

  /** The outcome of an error that is not retried. */
  function OutcomeOf(code: Code): (h: Handled) {
    if Resolved(code) then ResolvedOutcome else if code == PlainError then Retry else Poison
  }

  /** The reply answers a command this store has sent. */
  ghost predicate AnswersStored(db: Db, r: Reply) {
    exists x: Slot :: CommandKey(db, r.command, r.order, x)
  }

  /** What other writers may have done to the errand a reply is for: nothing, or something that leaves a reply that
      could be applied, or was spent, spent. */
  ghost predicate Evolved(e: Errand, e': Errand, r: Reply) {
    e' == e || (Rank(e) < Rank(e') && (Spent(e, r) ==> Spent(e', r)) && (Takes(e, r) ==> Spent(e', r)))
  }

  /** The reply's event is enabled. */
  ghost predicate Takes(e: Errand, r: Reply) {
    ResultEvent(r).Some? && Enabled(e, ResultEvent(r).value.0, SYSTEM, ResultEvent(r).value.1, e.updatedAt)
  }

  lemma SpentOrTakes(e: Errand, r: Reply, now: Time)
    requires WellFormed(e) && ResultEvent(r).Some?
    ensures !Spent(e, r) <==> Takes(e, r)
    ensures Takes(e, r) <==> Next(e, ResultEvent(r).value.0, SYSTEM, ResultEvent(r).value.1, now).Ok?
  {
    hide Next, WellFormed, Spent, Enabled, ResultEvent;
    var (ev, input) := ResultEvent(r).value;
    ResultOutcome(e, r, now);
    NextAccepts(e, ev, SYSTEM, input, now);
    ResultTimeless(e, r, now, e.updatedAt);
  }

  lemma EvolvedTwice(e: Errand, e1: Errand, e2: Errand, r: Reply)
    requires WellFormed(e) && WellFormed(e1) && ResultEvent(r).Some? && Evolved(e, e1, r) && Evolved(e1, e2, r)
    ensures Evolved(e, e2, r)
  {
    hide WellFormed, Spent, Takes, Rank;
  }

  lemma WriteEvolves(db: Db, e: Errand, ev: Event, a: Actor, input: EventInput, now: Time, r: Reply)
    requires e.id in db.errands && db.errands[e.id] == e && Enabled(e, ev, a, input, now) && ResultEvent(r).Some?
    requires e.id == r.order
    requires AnswersStored(db, r)
    requires DbInv(db)
    ensures Evolved(e, Effect(e, ev, a, input, now), r)
  {
    hide Enabled, Effect, WellFormed, Next, KeyInv, NoticeInv, Spent, Rank, Means, KeyOf, CommandKey, IsUuid, Used,
         EmissionOf, CreditOrderOf, ResultEvent, KeysFree, Keyed, OneCommand;
    DbParts(db);
    hide DbInv;
    var x: Slot :| CommandKey(db, r.command, r.order, x);
    NextMeans(e, ev, a, input, now);
    var g := UpdateFits(db, Next(e, ev, a, input, now).value, e, ev, a, input, now);
    EffectKeepsId(e, ev, a, input, now);
    EffectKeepsWellFormed(e, ev, a, input, now);
    var c := Credit(0, map[], map[], [], {}, map[r.command := r.result], {});
    UpdateOvertakes(db, c, g, ev, a, input, now, r);
    ResultTimeless(e, r, e.updatedAt, g.e.updatedAt);
  }

  /** What the loop keeps about the store and the reply's errand. */
  ghost predicate Fine(db: Db, r: Reply) {
    DbInv(db) && AnswersStored(db, r) && r.order in db.errands && db.errands[r.order].id == r.order
      && WellFormed(db.errands[r.order])
  }

  lemma FineStays(db: Db, e: Errand, ev: Event, a: Actor, input: EventInput, now: Time, r: Reply)
    requires e.id in db.errands && db.errands[e.id] == e && Next(e, ev, a, input, now).Ok? && ResultEvent(r).Some?
    requires Fine(db, r)
    ensures var db' := Commit(db, e, Next(e, ev, a, input, now).value);
      && Fine(db', r) && Evolved(db.errands[r.order], db'.errands[r.order], r)
      && (e.id == r.order ==> Enabled(e, ev, a, input, now) && db'.errands[r.order] == Effect(e, ev, a, input, now))
  {
    hide Next, Enabled, Effect, DbInv, WellFormed, Commit, Spent, Rank, KeysFree, CompareAndSwap, ResultEvent, KeyOf,
         Takes, IsUuid;
    NextAccepts(e, ev, a, input, now);
    CommitKeepsDb(db, e, ev, a, input, now);
    var db' := Commit(db, e, Next(e, ev, a, input, now).value);
    KeysStay(db, e, Next(e, ev, a, input, now).value, r);
    DbParts(db');
    if e.id == r.order {
      WriteEvolves(db, e, ev, a, input, now, r);
      EffectKeepsId(e, ev, a, input, now);
    }
    hide KeyInv, NoticeInv;
  }

  lemma KeysStay(db: Db, e: Errand, t: Transition, r: Reply)
    requires AnswersStored(db, r) && KeysFree(db, t.outbox) && e.id in db.errands
    ensures AnswersStored(Commit(db, e, t), r)
  {
    hide KeyOf, WriteReview;
    var x: Slot :| CommandKey(db, r.command, r.order, x);
    AddRowsGives(db.outbox, t.outbox, t.ApplyTo(e).version, t.at);
    hide AddRows;
    assert CommandKey(Commit(db, e, t), r.command, r.order, x);
  }

  /** Applying a decision commits it on the errand it was decided on, or leaves everything as it is. */
  lemma ApplyCases(db: Db, t: Transition)
    requires t.errandId in db.errands
    ensures var a := Apply(db, t); a.Committed? ==> a.db == Commit(db, db.errands[t.errandId], t)
  {
    hide Commit, CompareAndSwap, EditTarget, Fenced, HasOpenReview, KeysFree;
  }

  class Handler {
    const store: ErrandStore

    constructor (store: ErrandStore)
      ensures this.store == store
    {
      this.store := store;
    }

    /** Other writers, one after the other. */
    method Interfere(others: seq<Other>, ghost r: Reply)
      requires Fine(store.State(), r) && ResultEvent(r).Some?
      modifies store
      ensures Fine(store.State(), r) && Evolved(old(store.errands)[r.order], store.errands[r.order], r)
      ensures others == [] ==> store.State() == old(store.State())
    {
      hide Next, Fine, Evolved, ResultEvent, Apply;
      var i := 0;
      assert r.order in store.errands by { FineHas(store.State(), r); }
      assert Evolved(store.errands[r.order], store.errands[r.order], r) by { NotEvolved(store.errands[r.order], r); }
      ghost var first := store.errands[r.order];
      FineHas(store.State(), r);
      while i < |others|
        invariant 0 <= i <= |others|
        invariant Fine(store.State(), r) && r.order in store.errands && Evolved(first, store.errands[r.order], r)
        invariant others == [] ==> store.State() == old(store.State())
      {
        OneOther(others[i], first, r);
        i := i + 1;
      }
    }

    method OneOther(o: Other, ghost first: Errand, ghost r: Reply)
      requires Fine(store.State(), r) && ResultEvent(r).Some? && r.order in store.errands && WellFormed(first)
      requires Evolved(first, store.errands[r.order], r)
      modifies store
      ensures Fine(store.State(), r) && r.order in store.errands && Evolved(first, store.errands[r.order], r)
    {
      hide Next, Fine, Evolved, ResultEvent, Apply, WellFormed, Enabled, Effect;
      ghost var before := store.State();
      if o.id in store.errands {
        var e := store.errands[o.id];
        var t := Next(e, o.ev, o.actor, o.input, o.now);
        if t.Ok? {
          StoredUnder(before, o.id, r);
          StoreSteps.NextKeepsId(e, o.ev, o.actor, o.input, o.now);
          ApplyCases(before, t.value);
          FineStays(before, e, o.ev, o.actor, o.input, o.now, r);
          FineHas(before, r);
          var done := store.Apply(t.value);
          FineHas(store.State(), r);
          if done.Ok? {
            EvolvedTwice(first, before.errands[r.order], store.errands[r.order], r);
          }
        }
      }
    }

    /** Applies the reply's event, reading again when it lost the race. Whatever others do in between, it loses at most
        once, never gives up, and leaves a reply that can do nothing more. */
    method ApplyEvent(r: Reply, now: Time, others: seq<seq<Other>>) returns (h: Handled, conflicts: nat)
      requires ResultEvent(r).Some? && r.command != ""
      requires r.order in store.errands ==> Fine(store.State(), r)
      modifies store
      ensures r.order !in old(store.errands) ==> h == Poison && store.State() == old(store.State())
      ensures r.order in old(store.errands) ==>
        && (h == AppliedOutcome || h == ResolvedOutcome) && conflicts <= 1
        && Fine(store.State(), r) && Spent(store.errands[r.order], r)
      // What is applied is what the result decides for the errand as it was on entry.
      ensures h == AppliedOutcome ==>
        && conflicts == 0
        && store.errands[r.order] == AfterResult(old(store.errands)[r.order], r, now) != old(store.errands)[r.order]
      // Alone, it applies exactly a result the errand waits for, and otherwise changes nothing.
      ensures others == [] && r.order in old(store.errands) ==>
        if AfterResult(old(store.errands)[r.order], r, now) == old(store.errands)[r.order]
        then h == ResolvedOutcome && store.State() == old(store.State()) else h == AppliedOutcome
    {
      hide Next, Fine, Evolved, ResultEvent, Apply, WellFormed, Enabled, Effect, Spent, Takes, AfterResult;
      conflicts := 0;
      if r.order !in store.errands {
        return Poison, 0;
      }
      var (ev, input) := ResultEvent(r).value;
      while true
        invariant r.order in store.errands && Fine(store.State(), r)
        invariant conflicts <= 1 && (conflicts == 1 ==> Spent(store.errands[r.order], r) && others != [])
        invariant conflicts == 0 ==> store.State() == old(store.State())
        decreases 1 - conflicts
      {
        var e := store.errands[r.order];
        FineHas(store.State(), r);
        ResultDecides(e, r, now);
        SpentOrTakes(e, r, now);
        if input.editKey != "" && (e.pendingEdit.None? || e.pendingEdit.value.key != input.editKey) {
          MismatchIsSpent(e, r);
          return ResolvedOutcome, conflicts;
        }
        var t := Next(e, ev, SYSTEM, input, now);
        var code := PlainError;
        if t.Ok? {
          Interfere(if conflicts < |others| then others[conflicts] else [], r);
          ghost var before := store.State();
          FineHas(before, r);
          StoreSteps.NextKeepsId(e, ev, SYSTEM, input, now);
          ResultWriteAlone(before, e, r, now);
          var done := store.Apply(t.value);
          FineHas(store.State(), r);
          if done.Ok? {
            return AppliedOutcome, conflicts;
          }
          code := done.code;
          if Resolved(code) && conflicts + 1 < MAX_CONFLICTS {
            conflicts := conflicts + 1;
            continue;
          }
        } else {
          code := t.code;
          ResultOutcome(e, r, now);
          CodeIsResolved(e, r, now);
        }
        return OutcomeOf(code), conflicts;
      }
    }
  }

  /** The result's event is accepted exactly when the result changes the errand, and changes it so. */
  lemma ResultDecides(e: Errand, r: Reply, now: Time)
    requires WellFormed(e) && ResultEvent(r).Some? && r.command != ""
    ensures Next(e, ResultEvent(r).value.0, SYSTEM, ResultEvent(r).value.1, now).Ok? <==> AfterResult(e, r, now) != e
    ensures var (ev, input) := ResultEvent(r).value;
      Next(e, ev, SYSTEM, input, now).Ok? ==>
        Next(e, ev, SYSTEM, input, now).value.ApplyTo(e) == AfterResult(e, r, now)
    ensures var input := ResultEvent(r).value.1;
      input.editKey != "" && (e.pendingEdit.None? || e.pendingEdit.value.key != input.editKey) ==>
        AfterResult(e, r, now) == e
  {
    hide Next, WellFormed, Enabled, Effect, ResultEvent, AfterResult, OutboxOf, ReasonOf;
    var (ev, input) := ResultEvent(r).value;
    ResultEffect(e, r, now);
    NextMeans(e, ev, SYSTEM, input, now);
    if Enabled(e, ev, SYSTEM, input, now) {
      EffectMoved(e, ev, input, now);
    }
    Mismatch(e, r, now);
  }

  lemma EffectMoved(e: Errand, ev: Event, input: EventInput, now: Time)
    requires WellFormed(e) && Enabled(e, ev, SYSTEM, input, now)
    ensures Effect(e, ev, SYSTEM, input, now) != e
  {
    hide WellFormed, Enabled, Effect;
    EffectKeepsWellFormed(e, ev, SYSTEM, input, now);
  }

  lemma Mismatch(e: Errand, r: Reply, now: Time)
    requires ResultEvent(r).Some?
    ensures var input := ResultEvent(r).value.1;
      input.editKey != "" && (e.pendingEdit.None? || e.pendingEdit.value.key != input.editKey) ==>
        AfterResult(e, r, now) == e
  {
    hide CodeText;
  }

  lemma FineHas(db: Db, r: Reply)
    requires Fine(db, r)
    ensures r.order in db.errands && WellFormed(db.errands[r.order]) && db.errands[r.order].id == r.order
  {
    hide DbInv, WellFormed, AnswersStored;
  }

  lemma StoredUnder(db: Db, id: string, r: Reply)
    requires Fine(db, r) && id in db.errands
    ensures db.errands[id].id == id && WellFormed(db.errands[id])
  {
    hide KeyInv, NoticeInv, WellFormed, AnswersStored, IsUuid;
    DbParts(db);
    hide DbInv;
  }

  lemma NotEvolved(e: Errand, r: Reply)
    ensures Evolved(e, e, r)
  {
  }

  /** A reply for another pending edit has nothing left to do. */
  lemma MismatchIsSpent(e: Errand, r: Reply)
    requires ResultEvent(r).Some?
    requires var input := ResultEvent(r).value.1;
      input.editKey != "" && (e.pendingEdit.None? || e.pendingEdit.value.key != input.editKey)
    ensures Spent(e, r)
  {
    hide CodeText;
  }

  /** Past the check of the edit key, a refused event means the errand has moved on. */
  lemma CodeIsResolved(e: Errand, r: Reply, now: Time)
    requires WellFormed(e) && ResultEvent(r).Some?
    requires Next(e, ResultEvent(r).value.0, SYSTEM, ResultEvent(r).value.1, now).Fail?
    requires r.command != ""
    requires var input := ResultEvent(r).value.1;
      input.editKey == "" || (e.pendingEdit.Some? && e.pendingEdit.value.key == input.editKey)
    ensures Resolved(Next(e, ResultEvent(r).value.0, SYSTEM, ResultEvent(r).value.1, now).code)
  {
    hide Next, WellFormed, CodeText;
    ResultOutcome(e, r, now);
  }

  /** A write decided on `e` commits if the errand is still `e`, and else loses with a resolved code and is spent. */
  lemma ResultWriteAlone(db: Db, e: Errand, r: Reply, now: Time)
    requires ResultEvent(r).Some? && Next(e, ResultEvent(r).value.0, SYSTEM, ResultEvent(r).value.1, now).Ok?
    requires e.id == r.order && WellFormed(e)
    requires Fine(db, r) && r.order in db.errands && Evolved(e, db.errands[r.order], r)
    ensures var t := Next(e, ResultEvent(r).value.0, SYSTEM, ResultEvent(r).value.1, now).value;
      if db.errands[r.order] == e then
        && Apply(db, t).Committed? && Fine(Apply(db, t).db, r) && Spent(Apply(db, t).db.errands[r.order], r)
        && Apply(db, t).db.errands[r.order] == t.ApplyTo(e)
      else Apply(db, t).Aborted? && Resolved(Apply(db, t).code) && Spent(db.errands[r.order], r)
  {
    hide Next, Enabled, Effect, WellFormed, Means, Commit, Spent, KeysFree, CompareAndSwap, HasOpenReview, Fenced,
         KeyOf, Rank, Fine, ResultEvent;
    var (ev, input) := ResultEvent(r).value;
    var cur := db.errands[r.order];
    FineHas(db, r);
    NextMeans(e, ev, SYSTEM, input, now);
    var t := Next(e, ev, SYSTEM, input, now).value;
    MeansHeader(t, e, ev, SYSTEM, input, now);
    SwapIsCurrent(e, cur, t, ev, SYSTEM, input, now);
    SpentOrTakes(e, r, now);
    ResultFrom(e, r, now);
    NotAnEdit(r);
    hide Takes;
    if e == cur {
      FineParts(db, r);
      CommitKeepsDb(db, e, ev, SYSTEM, input, now);
      FineStays(db, e, ev, SYSTEM, input, now, r);
      SpentAfter(e, ev, input, now, r);
    }
  }

  lemma FineParts(db: Db, r: Reply)
    requires Fine(db, r)
    ensures DbInv(db)
  {
    hide DbInv, WellFormed, AnswersStored;
  }

  lemma NotAnEdit(r: Reply)
    requires ResultEvent(r).Some?
    ensures ResultEvent(r).value.0 != Edit
  {
    hide CodeText;
  }

  lemma SpentAfter(e: Errand, ev: Event, input: EventInput, now: Time, r: Reply)
    requires WellFormed(e) && ResultEvent(r) == Some((ev, input)) && Enabled(e, ev, SYSTEM, input, now)
    ensures Spent(Effect(e, ev, SYSTEM, input, now), r)
  {
    hide KeyOf, IsBlank, CodeText;
  }
}
