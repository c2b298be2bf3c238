/** The deadline jobs: what is due is exactly what the state machine accepts, so a drained job leaves nothing due. */
module Scheduler {
  import opened Prelude
  import opened Keys
  import opened Errands
  import opened StateMachine
  import opened StoreModel
  import opened Lifecycle
  import opened CompositeInv
  import opened CompositeRows
  import opened CompositeWrites
  import opened CompositeProofs
  import opened ReviewTheorems
  import opened StoreAnswers
  import opened Due
  import opened Store

  // ---------------------------------------------------------------- due is accepted

  /** The event a job fires. */
  function EventOf(k: DueKind): (ev: Event) {
    match k
    case AcceptanceExpiry => AcceptanceDeadlinePassed
    case PickupDeadline => PickupDeadlinePassed
    case DeliveryDeadline => DeliveryDeadlinePassed
    case VerificationLapse => VerificationLapsed
    case StuckReservation => ReservationFailed
    case StuckEdit => EditRefused
  }

  predicate IsDeadline(k: DueKind) {
    k != StuckReservation && k != StuckEdit
  }

  /** For every errand and time, a deadline job's errand is due exactly when `Next` accepts the job's event. */
  lemma DueIffAccepted(k: DueKind, e: Errand, now: Time)
    requires IsDeadline(k)
    ensures IsDue(k, e, now) <==> Next(e, EventOf(k), SYSTEM, NO_INPUT, now).Ok?
    ensures IsDue(k, e, now) <==> Enabled(e, EventOf(k), SYSTEM, NO_INPUT, now)
  {
    NextAccepts(e, EventOf(k), SYSTEM, NO_INPUT, now);
    hide Next, IsBlank, DetailsOk, Build, TheRule;
  }

  /** The reconciler's input for one stuck errand. */
  function StuckInput(k: DueKind, e: Errand): (input: EventInput) {
    if k == StuckEdit && e.pendingEdit.Some?
    then NO_INPUT.(reason := "ADJUST_TIMEOUT", editTimedOut := true, editKey := e.pendingEdit.value.key)
    else NO_INPUT.(reason := REASON_RESERVATION_FAILED)
  }

  /** The reconciler is never refused either: a stuck errand of any run accepts its event, whatever the clock says. */
  lemma StuckIsAccepted(k: DueKind, e: Errand, cutoff: Time, now: Time)
    requires !IsDeadline(k) && WellFormed(e) && IsDue(k, e, cutoff)
    ensures Next(e, EventOf(k), SYSTEM, StuckInput(k, e), now).Ok?
  {
    NextAccepts(e, EventOf(k), SYSTEM, StuckInput(k, e), now);
    hide Next, IsBlank, DetailsOk, Build, TheRule, KeyOf;
  }

  /** A fired errand is no longer due. */
  lemma FiredIsNotDue(k: DueKind, e: Errand, now: Time)
    requires IsDeadline(k) && Enabled(e, EventOf(k), SYSTEM, NO_INPUT, now)
    ensures !IsDue(k, Effect(e, EventOf(k), SYSTEM, NO_INPUT, now), now)
  {
    hide KeyOf, IsBlank, DetailsOk;
  }

  // ---------------------------------------------------------------- reachable databases

  /** What every run keeps about the database alone. */
  ghost predicate DbInv(db: Db) {
    IdsInv(db) && KeyInv(db) && NoticeInv(db) && ReviewsMatch(db)
  }

  /** Writing one transition decided on the stored row keeps it, and changes one errand. */
  lemma CommitKeepsDb(db: Db, e: Errand, ev: Event, a: Actor, input: EventInput, now: Time)
    requires e.id in db.errands && db.errands[e.id] == e && Enabled(e, ev, a, input, now)
    requires DbInv(db)
    ensures var t := Next(e, ev, a, input, now);
      && t.Ok? && t.value.errandId == e.id && CompareAndSwap(e, t.value).None? && t.value.from != NoStatus
      && KeysFree(db, t.value.outbox) && (Resolves(t.value) ==> HasOpenReview(db.reviews, e.id))
      && DbInv(Commit(db, e, t.value))
      && Commit(db, e, t.value).errands == db.errands[e.id := Effect(e, ev, a, input, now)]
      && t.value.ApplyTo(e) == Effect(e, ev, a, input, now)
  {
    hide OutboxOf, Next, Enabled, Effect, EmissionOf, CreditOrderOf, Means, Commit, KeyInv, NoticeInv, ReviewsMatch,
         WellFormed, IsUuid, KeysFree, Used, Keyed, OneCommand, KeyOf, Rank, AddRows, Grows, CompareAndSwap;
    NextMeans(e, ev, a, input, now);
    var t := Next(e, ev, a, input, now).value;
    MeansHeader(t, e, ev, a, input, now);
    FromIsStored(e);
    SwapIsCurrent(e, e, t, ev, a, input, now);
    var g := UpdateFits(db, t, e, ev, a, input, now);
    UpdateStores(db, t, e, ev, a, input, now, g);
    EffectKeepsId(e, ev, a, input, now);
    var db' := Commit(db, e, t);
    StoresGrows(db, db', g);
    StoresKeys(db, db', g);
    StoresIds(db, db', g);
    NoticesStay(db, db');
    NextLeavesReview(e, ev, a, input, now);
    CommitReviews(db, e, t);
    ReviewIsOpen(db, e);
    MeansApplied(t, e, ev, a, input, now);
  }

  lemma FirstRows(db: Db, f: Firing)
    requires f.Accepted() && f.Decided().Ok? && KeysFree(db, f.Decided().value.outbox)
    ensures RowsWritten(db.outbox, Commit(db, f.e, f.Decided().value).outbox,
                        OutboxOf(f.e, f.ev, SYSTEM, f.input, f.now), f.After().version, f.now)
  {
    hide Next, Enabled, Effect, OutboxOf, Means, Commit, KeysFree, RowsWritten;
    NextMeans(f.e, f.ev, SYSTEM, f.input, f.now);
    RowsGiven(db, f.e, f.Decided().value, f.ev, SYSTEM, f.input, f.now);
  }

  lemma ReviewIsOpen(db: Db, e: Errand)
    requires e.id in db.errands && db.errands[e.id] == e && ReviewsMatch(db)
    ensures e.status == ReviewRequired ==> HasOpenReview(db.reviews, e.id)
  {
    hide OpenReviews, HasOpenReview;
    OpenReviewExists(db.reviews, e.id);
  }

  lemma FromIsStored(e: Errand)
    requires WellFormed(e)
    ensures e.status != NoStatus
  {
    hide KeyOf;
  }

  // ---------------------------------------------------------------- firing different errands in one transaction

  /** An event the system fires on an errand. */
  datatype Firing = Firing(e: Errand, ev: Event, input: EventInput, now: Time)
  {
    ghost predicate Accepted() {
      Enabled(e, ev, SYSTEM, input, now)
    }

    function Decided(): (t: Outcome<Transition>) {
      Next(e, ev, SYSTEM, input, now)
    }

    ghost function After(): (e': Errand)
      requires Accepted()
    {
      Effect(e, ev, SYSTEM, input, now)
    }
  }

  ghost predicate Accepts(fs: seq<Firing>) {
    forall i :: 0 <= i < |fs| ==> fs[i].Accepted() && fs[i].Decided().Ok?
  }

  /** Different stored errands. */
  ghost predicate Current(db: Db, fs: seq<Firing>) {
    && (forall i :: 0 <= i < |fs| ==> fs[i].e.id in db.errands && db.errands[fs[i].e.id] == fs[i].e)
    && (forall i, j :: 0 <= i < j < |fs| ==> fs[i].e.id != fs[j].e.id)
  }

  ghost function Transitions(fs: seq<Firing>): (ts: seq<Transition>)
    requires Accepts(fs)
  {
    seq(|fs|, i requires 0 <= i < |fs| => fs[i].Decided().value)
  }

  /** The staged keys belong to errands that are done with. */
  ghost predicate StagedElsewhere(staged: set<string>, fs: seq<Firing>) {
    forall key :: key in staged ==> exists id, x: Slot :: Elsewhere(key, id, x, fs)
  }

  ghost predicate Elsewhere(key: string, id: string, x: Slot, fs: seq<Firing>) {
    IsUuid(id) && key == KeyOf(id, x) && forall i :: 0 <= i < |fs| ==> fs[i].e.id != id
  }

  /** The keys of a transition are its errand's own. */
  lemma OwnKeys(db: Db, e: Errand, ev: Event, a: Actor, input: EventInput, now: Time)
    requires e.id in db.errands && db.errands[e.id] == e && Next(e, ev, a, input, now).Ok?
    requires IdsInv(db) && KeyInv(db) && NoticeInv(db)
    ensures IsUuid(e.id) && forall key :: key in KeySet(Next(e, ev, a, input, now).value.outbox) ==>
      exists x: Slot :: key == KeyOf(e.id, x)
  {
    hide Next, Enabled, Means, KeyInv, NoticeInv, WellFormed, IsUuid, Used, OneCommand, KeyOf, Rank, KeysFree, Effect,
         EmissionOf, CreditOrderOf;
    NextMeans(e, ev, a, input, now);
    var t := Next(e, ev, a, input, now).value;
    var g := UpdateFits(db, t, e, ev, a, input, now);
    EffectKeepsId(e, ev, a, input, now);
    forall key | key in KeySet(t.outbox)
      ensures exists x: Slot :: key == KeyOf(e.id, x)
    {
      var i :| 0 <= i < |t.outbox| && t.outbox[i].key == key;
      assert key == KeyOf(e.id, g.slots[i]);
    }
  }

  lemma KeysElsewhere(keys: set<string>, staged: set<string>, db: Db, fs: seq<Firing>)
    requires fs != [] && Current(db, fs) && StagedElsewhere(staged, fs)
    requires IsUuid(fs[0].e.id) && forall key :: key in keys ==> exists x: Slot :: key == KeyOf(fs[0].e.id, x)
    ensures keys !! staged && StagedElsewhere(staged + keys, fs[1..])
  {
    hide KeyOf, IsUuid;
    var e := fs[0].e;
    forall key | key in staged
      ensures key !in keys
      ensures exists id, x: Slot :: Elsewhere(key, id, x, fs[1..])
    {
      var id, x: Slot :| Elsewhere(key, id, x, fs);
      assert Elsewhere(key, id, x, fs[1..]);
      UuidColonFree(id);
      UuidColonFree(e.id);
      forall y: Slot
        ensures KeyOf(e.id, y) != key
      {
        if KeyOf(e.id, y) == key {
          KeyInjective(e.id, y, id, x);
        }
      }
    }
    forall key | key in keys
      ensures exists id, x: Slot :: Elsewhere(key, id, x, fs[1..])
    {
      var x: Slot :| key == KeyOf(e.id, x);
      assert Elsewhere(key, e.id, x, fs[1..]);
    }
  }

  /** A batch of accepted events on different errands passes every check of the transaction ... */
  lemma {:induction false} NothingRefused(db: Db, fs: seq<Firing>, claimed: map<string, Errand>, staged: set<string>)
    requires Accepts(fs) && Current(db, fs) && StagedElsewhere(staged, fs)
    requires forall i :: 0 <= i < |fs| ==> fs[i].e.id in claimed && claimed[fs[i].e.id] == fs[i].e
    requires DbInv(db)
    ensures CheckFrom(db, claimed, staged, Transitions(fs)).None?
    decreases |fs|
  {
    hide IdsInv, KeyInv, NoticeInv, IsUuid, Next, DbInv, StagedElsewhere, KeysFree, CompareAndSwap, Effect, Commit,
         Enabled;
    if fs != [] {
      var f := fs[0];
      var ts := Transitions(fs);
      CommitKeepsDb(db, f.e, f.ev, SYSTEM, f.input, f.now);
      DbParts(db);
      OwnKeys(db, f.e, f.ev, SYSTEM, f.input, f.now);
      KeysElsewhere(KeySet(ts[0].outbox), staged, db, fs);
      NothingRefused(db, fs[1..], claimed[f.e.id := ts[0].ApplyTo(f.e)], staged + KeySet(ts[0].outbox));
      assert ts[1..] == Transitions(fs[1..]);
    }
  }

  lemma DbParts(db: Db)
    ensures DbInv(db) ==> IdsInv(db) && KeyInv(db) && NoticeInv(db)
  {
    hide IdsInv, KeyInv, NoticeInv, ReviewsMatch;
  }

  /** These events fired, every other errand as it was. */
  ghost predicate Fired(db: Db, db': Db, fs: seq<Firing>) {
    && db'.errands.Keys == db.errands.Keys
    && (forall i :: 0 <= i < |fs| ==>
        fs[i].Accepted() && fs[i].e.id in db'.errands && db'.errands[fs[i].e.id] == fs[i].After())
    && (forall id :: id in db.errands && (forall i :: 0 <= i < |fs| ==> fs[i].e.id != id) ==>
        db'.errands[id] == db.errands[id])
  }

  /** The commands and announcements of these events are in the outbox, and no older row was touched. */
  ghost predicate RowsFired(db: Db, db': Db, fs: seq<Firing>) {
    && (forall k :: k in db.outbox ==> k in db'.outbox && db'.outbox[k] == db.outbox[k])
    && (forall i :: 0 <= i < |fs| ==> fs[i].Accepted() && RowsOut(db', fs[i]))
  }

  ghost predicate RowsOut(db: Db, f: Firing)
    requires f.Accepted()
  {
    var rows := OutboxOf(f.e, f.ev, SYSTEM, f.input, f.now);
    forall i :: 0 <= i < |rows| ==>
      rows[i].key in db.outbox && db.outbox[rows[i].key] == OutboxRecord(rows[i], f.After().version, f.now, RowPending)
  }

  lemma RowsFirst(db: Db, db1: Db, db': Db, fs: seq<Firing>)
    requires fs != [] && Accepts(fs) && RowsFired(db1, db', fs[1..])
    requires var f := fs[0];
      RowsWritten(db.outbox, db1.outbox, OutboxOf(f.e, f.ev, SYSTEM, f.input, f.now), f.After().version, f.now)
    ensures RowsFired(db, db', fs)
  {
    hide Next, Effect, Enabled, OutboxOf;
    forall i | 0 <= i < |fs|
      ensures fs[i].Accepted() && RowsOut(db', fs[i])
    {
      if i > 0 {
        assert fs[1..][i - 1] == fs[i];
      }
    }
  }

  /** ... and is written whole. */
  lemma {:induction false} AllWritten(db: Db, fs: seq<Firing>)
    requires Accepts(fs) && Current(db, fs)
    requires DbInv(db)
    ensures var db' := CommitAll(db, Transitions(fs)); DbInv(db') && Fired(db, db', fs)
    ensures ReviewsOpen(db, Transitions(fs)) && RowsFired(db, CommitAll(db, Transitions(fs)), fs)
    decreases |fs|
  {
    hide RowsFired, RowsWritten, OutboxOf, Next, DbInv, KeysFree, CompareAndSwap, Effect, Commit, Enabled, Fired,
         HasOpenReview;
    if fs == [] {
      NoneFired(db);
    } else {
      var f := fs[0];
      var ts := Transitions(fs);
      CommitKeepsDb(db, f.e, f.ev, SYSTEM, f.input, f.now);
      var db1 := Commit(db, f.e, ts[0]);
      assert ts[1..] == Transitions(fs[1..]);
      AllWritten(db1, fs[1..]);
      FiredFirst(db, db1, CommitAll(db1, ts[1..]), fs);
      FirstRows(db, f);
      RowsFirst(db, db1, CommitAll(db1, ts[1..]), fs);
    }
  }

  lemma NoneFired(db: Db)
    ensures Fired(db, db, []) && RowsFired(db, db, [])
  {
    hide Effect, Enabled;
  }

  lemma FiredFirst(db: Db, db1: Db, db': Db, fs: seq<Firing>)
    requires fs != [] && Accepts(fs) && Current(db, fs) && db1.errands == db.errands[fs[0].e.id := fs[0].After()]
    requires Fired(db1, db', fs[1..])
    ensures Fired(db, db', fs)
  {
    hide Next, Effect, Enabled;
    forall i | 0 <= i < |fs|
      ensures fs[i].e.id in db'.errands && db'.errands[fs[i].e.id] == fs[i].After()
    {
      if i > 0 {
        assert fs[1..][i - 1] == fs[i];
      }
    }
  }

  lemma {:induction false} ByIdFinds(batch: seq<Errand>)
    requires DistinctIds(batch)
    ensures forall i :: 0 <= i < |batch| ==> batch[i].id in ById(batch) && ById(batch)[batch[i].id] == batch[i]
    decreases |batch|
  {
    if batch != [] {
      ByIdFinds(batch[..|batch| - 1]);
    }
  }

  /** A claim whose decisions are accepted events on claimed errands commits all of them. */
  lemma ClaimFires(db: Db, batch: seq<Errand>, decide: Errand -> Decision, fs: seq<Firing>)
    requires Accepts(fs) && Current(db, fs) && DistinctIds(batch)
    requires DecideFrom(batch, decide, []) == Ok(Transitions(fs))
    requires forall i :: 0 <= i < |fs| ==> fs[i].e in batch
    requires DbInv(db)
    ensures var r := Claim(db, batch, decide);
      r.Ok? && r.value.1 == |fs| && DbInv(r.value.0) && Fired(db, r.value.0, fs) && RowsFired(db, r.value.0, fs)
  {
    hide DbInv, Fired, RowsFired, CheckFrom, CommitAll, ReviewsOpen, DecideFrom, ById, Accepts;
    ByIdFinds(batch);
    NothingRefused(db, fs, ById(batch), {});
    AllWritten(db, fs);
    assert |Transitions(fs)| == |fs|;
  }

  // ---------------------------------------------------------------- a deadline batch

  /** What a deadline job decides for a claimed errand. */
  function Decider(k: DueKind, now: Time): (decide: Errand -> Decision) {
    e => DecideDue(k, now, e)
  }

  function DecideDue(k: DueKind, now: Time, e: Errand): (d: Decision) {
    if !IsDue(k, e, now) then Skip
    else
      var t := Next(e, EventOf(k), SYSTEM, NO_INPUT, now);
      if t.Ok? then Fire(t.value) else Skip
  }

  ghost function Deadlines(k: DueKind, now: Time, batch: seq<Errand>): (fs: seq<Firing>) {
    seq(|batch|, i requires 0 <= i < |batch| => Firing(batch[i], EventOf(k), NO_INPUT, now))
  }

  lemma DeadlinesAccepted(k: DueKind, now: Time, batch: seq<Errand>)
    requires IsDeadline(k) && forall i :: 0 <= i < |batch| ==> IsDue(k, batch[i], now)
    ensures Accepts(Deadlines(k, now, batch))
  {
    hide Next, Enabled, IsDue;
    forall i | 0 <= i < |batch| { DueIffAccepted(k, batch[i], now); }
  }

  lemma {:induction false} NothingSkipped(k: DueKind, now: Time, batch: seq<Errand>, acc: seq<Transition>)
    requires IsDeadline(k) && forall i :: 0 <= i < |batch| ==> IsDue(k, batch[i], now)
    requires Accepts(Deadlines(k, now, batch))
    ensures DecideFrom(batch, Decider(k, now), acc) == Ok(acc + Transitions(Deadlines(k, now, batch)))
    decreases |batch|
  {
    hide Next, IsDue, Enabled;
    var ts := Transitions(Deadlines(k, now, batch));
    if batch == [] {
      assert acc + [] == acc;
    } else {
      DueIffAccepted(k, batch[0], now);
      assert Deadlines(k, now, batch)[1..] == Deadlines(k, now, batch[1..]);
      NothingSkipped(k, now, batch[1..], acc + [ts[0]]);
      assert acc + ts == acc + [ts[0]] + Transitions(Deadlines(k, now, batch[1..]));
    }
  }

  /** Different stored errands, all of them due. */
  ghost predicate DueBatch(db: Db, k: DueKind, now: Time, batch: seq<Errand>) {
    && (forall i :: 0 <= i < |batch| ==>
        batch[i].id in db.errands && db.errands[batch[i].id] == batch[i] && IsDue(k, batch[i], now))
    && DistinctIds(batch)
  }

  /** A batch of due errands is written whole: nothing is skipped and nothing refused. */
  lemma BatchFires(db: Db, k: DueKind, now: Time, batch: seq<Errand>)
    requires IsDeadline(k) && DueBatch(db, k, now, batch)
    requires DbInv(db)
    ensures var r := Claim(db, batch, Decider(k, now));
      && r.Ok? && r.value.1 == |batch| && DbInv(r.value.0) && Fired(db, r.value.0, Deadlines(k, now, batch))
      && RowsFired(db, r.value.0, Deadlines(k, now, batch))
  {
    hide Next, IsDue, DbInv, Fired, RowsFired, DecideFrom, Claim, Decider, Accepts, Enabled;
    var fs := Deadlines(k, now, batch);
    DeadlinesAccepted(k, now, batch);
    NothingSkipped(k, now, batch, []);
    assert [] + Transitions(fs) == Transitions(fs);
    forall i | 0 <= i < |fs|
      ensures fs[i].e in batch
    {
      assert fs[i].e == batch[i];
    }
    ClaimFires(db, batch, Decider(k, now), fs);
  }

  // ---------------------------------------------------------------- draining a job

  ghost function DueIds(db: Db, k: DueKind, now: Time): (ids: set<string>) {
    set id | id in db.errands && IsDue(k, db.errands[id], now)
  }

  ghost function Ids(batch: seq<Errand>): (ids: set<string>) {
    set i | 0 <= i < |batch| :: batch[i].id
  }

  lemma SelectedIsDue(db: Db, k: DueKind, now: Time, limit: int, locked: set<string>, batch: seq<Errand>)
    requires Selected(db, k, now, limit, locked, batch) && limit >= 1
    requires forall id :: id in db.errands ==> db.errands[id].id == id
    ensures DueBatch(db, k, now, batch) && |batch| <= limit && Ids(batch) <= DueIds(db, k, now) - locked
    ensures |batch| < limit ==> Ids(batch) == DueIds(db, k, now) - locked
  {
    hide IsDue, Precedes, Sorted;
    var ids := db.errands.Keys - locked;
    var due :| Lists(db.errands, k, now, ids, due) && batch == if |due| > limit >= 0 then due[..limit] else due;
    PrefixIsDue(db, k, now, ids, due, |batch|);
    assert batch == due[..|batch|];
    BatchIsDue(db, k, now, batch);
    if |batch| < limit {
      AllAreListed(db, k, now, locked, batch);
    }
  }

  /** A batch is the oldest of what is due and unlocked: whatever it leaves out is due no earlier than anything in it,
      and by a later ID if at the same time. */
  lemma SelectedIsOldest(db: Db, k: DueKind, now: Time, limit: int, locked: set<string>, batch: seq<Errand>)
    requires Selected(db, k, now, limit, locked, batch) && limit >= 1
    requires forall id :: id in db.errands ==> db.errands[id].id == id
    ensures forall i, id :: 0 <= i < |batch| && id in DueIds(db, k, now) - locked - Ids(batch) ==>
      var at, left := DueAt(k, batch[i]), DueAt(k, db.errands[id]);
      && at.Some? && left.Some? && at.value <= left.value
      && (at.value == left.value ==> TextLess(batch[i].id, id))
  {
    hide DueAt, TextLess;
    var ids := db.errands.Keys - locked;
    var due :| Lists(db.errands, k, now, ids, due) && batch == if |due| > limit >= 0 then due[..limit] else due;
    forall i, id | 0 <= i < |batch| && id in DueIds(db, k, now) - locked - Ids(batch)
      ensures Precedes(k, batch[i], db.errands[id])
    {
      assert db.errands[id] in due;
      var j :| 0 <= j < |due| && due[j] == db.errands[id];
      assert forall m :: 0 <= m < |batch| ==> due[m] == batch[m] && batch[m].id in Ids(batch);
      assert j >= |batch|;
    }
  }

  lemma PrefixIsDue(db: Db, k: DueKind, now: Time, ids: set<string>, due: seq<Errand>, n: nat)
    requires AllDue(db.errands, k, now, ids, due) && DistinctIds(due) && n <= |due|
    ensures DueBatch(db, k, now, due[..n]) && Ids(due[..n]) <= ids
  {
    hide IsDue;
  }

  lemma AllAreListed(db: Db, k: DueKind, now: Time, locked: set<string>, due: seq<Errand>)
    requires Complete(db.errands, k, now, db.errands.Keys - locked, due)
    requires forall id :: id in db.errands ==> db.errands[id].id == id
    ensures DueIds(db, k, now) - locked <= Ids(due)
  {
    hide IsDue;
    forall id | id in DueIds(db, k, now) - locked
      ensures id in Ids(due)
    {
      assert db.errands[id] in due;
      var i :| 0 <= i < |due| && due[i] == db.errands[id];
      assert due[i].id == id;
    }
  }

  /** Firing a batch removes exactly it from what is due. */
  lemma FiredLeaves(db: Db, db': Db, k: DueKind, now: Time, batch: seq<Errand>)
    requires IsDeadline(k) && DueBatch(db, k, now, batch) && Fired(db, db', Deadlines(k, now, batch))
    ensures DueIds(db', k, now) == DueIds(db, k, now) - Ids(batch)
  {
    hide IsDue, Effect, Enabled;
    var fs := Deadlines(k, now, batch);
    forall id | id in db'.errands
      ensures IsDue(k, db'.errands[id], now) <==> IsDue(k, db.errands[id], now) && id !in Ids(batch)
    {
      if id in Ids(batch) {
        var i :| 0 <= i < |batch| && batch[i].id == id;
        assert fs[i].Accepted() && fs[i].e == batch[i];
        FiredIsNotDue(k, batch[i], now);
      } else {
        assert forall i :: 0 <= i < |fs| ==> fs[i].e == batch[i];
      }
    }
  }

  /** Exactly the errands in `ids` fired. */
  ghost predicate Progress(db: Db, db': Db, k: DueKind, now: Time, ids: set<string>) {
    && db'.errands.Keys == db.errands.Keys && ids <= DueIds(db, k, now)
    && forall id :: id in db.errands ==>
         if id in ids then Enabled(db.errands[id], EventOf(k), SYSTEM, NO_INPUT, now)
                           && db'.errands[id] == Effect(db.errands[id], EventOf(k), SYSTEM, NO_INPUT, now)
         else db'.errands[id] == db.errands[id]
  }

  lemma MoreProgress(db: Db, db1: Db, db2: Db, k: DueKind, now: Time, ids: set<string>, batch: seq<Errand>)
    requires Progress(db, db1, k, now, ids) && DueBatch(db1, k, now, batch) && Fired(db1, db2, Deadlines(k, now, batch))
    requires Ids(batch) <= DueIds(db1, k, now) && DueIds(db1, k, now) == DueIds(db, k, now) - ids
    ensures Progress(db, db2, k, now, ids + Ids(batch))
  {
    hide IsDue, Effect, Enabled;
    var fs := Deadlines(k, now, batch);
    forall id | id in db.errands
      ensures if id in ids + Ids(batch) then Enabled(db.errands[id], EventOf(k), SYSTEM, NO_INPUT, now)
                                             && db2.errands[id]
                                                == Effect(db.errands[id], EventOf(k), SYSTEM, NO_INPUT, now)
              else db2.errands[id] == db.errands[id]
    {
      if id in Ids(batch) {
        var i :| 0 <= i < |batch| && batch[i].id == id;
        assert fs[i].Accepted() && fs[i].e == batch[i];
      } else {
        assert forall i :: 0 <= i < |fs| ==> fs[i].e == batch[i];
      }
    }
  }

  /** How a call into another component ends. A transaction that errs or panics is rolled back. */
  datatype CallEnd = Returns | Errs | Panics

  /** One periodic job and its counters. */
  class Job {
    const kind: DueKind
    const limit: nat
    const store: ErrandStore
    var batches: nat
    var failures: nat
    var panics: nat
    var seen: nat
    var applied: nat
    var skipped: nat

    constructor (kind: DueKind, limit: nat, store: ErrandStore)
      ensures this.kind == kind && this.limit == limit && this.store == store
      ensures batches == failures == panics == seen == applied == skipped == 0
    {
      this.kind, this.limit, this.store := kind, limit, store;
      batches, failures, panics, seen, applied, skipped := 0, 0, 0, 0, 0, 0;
    }

    /** One batch: claim, decide, write. `locked` is what other batches hold and `claim` how the store's transaction
        ends; a panic is recovered. */
    method RunBatch(now: Time, locked: set<string>, claim: CallEnd)
      returns (ok: bool, saw: nat, wrote: nat, ghost batch: seq<Errand>)
      requires IsDeadline(kind) && limit >= 1 && DbInv(store.State())
      modifies this, store
      ensures ok <==> claim == Returns
      ensures !ok ==> saw == wrote == 0 && store.State() == old(store.State())
      ensures ok ==>
        && DueBatch(old(store.State()), kind, now, batch) && saw == wrote == |batch| <= limit
        && Ids(batch) <= DueIds(old(store.State()), kind, now) - locked
        && (saw < limit ==> Ids(batch) == DueIds(old(store.State()), kind, now) - locked)
        && Fired(old(store.State()), store.State(), Deadlines(kind, now, batch))
        && RowsFired(old(store.State()), store.State(), Deadlines(kind, now, batch))
      ensures DbInv(store.State())
      ensures batches == old(batches) + if claim == Panics then 0 else 1
      ensures failures == old(failures) + if claim == Errs then 1 else 0
      ensures panics == old(panics) + if claim == Panics then 1 else 0
      ensures seen == old(seen) + saw && applied == old(applied) + wrote && skipped == old(skipped)
    {
      hide IsDue, DbInv, Fired, RowsFired, Claim, Decider, Selected, WellFormed, IsUuid, KeyInv, NoticeInv, DueIds, Ids,
           Deadlines;
      ok, saw, wrote, batch := false, 0, 0, [];
      if claim == Panics {
        panics := panics + 1;
        return;
      }
      if claim == Errs {
        batches, failures := batches + 1, failures + 1;
        return;
      }
      DbParts(store.State());
      ghost var before := store.State();
      var claimed, r := store.ClaimDue(kind, now, limit, locked, Decider(kind, now));
      SelectedIsDue(before, kind, now, limit, locked, claimed);
      BatchFires(before, kind, now, claimed);
      batch := claimed;
      batches := batches + 1;
      ok, saw, wrote := true, |claimed|, r.value;
      seen, applied, skipped := seen + saw, applied + wrote, skipped + (saw - wrote);
    }

    /** Runs full batches until one is not full or fails. With a fixed clock and no other writer it ends, having fired
        exactly the errands in `fired`, each once; unless a batch failed, these are all that were due. */
    method Drain(now: Time, claims: seq<CallEnd>) returns (ghost fired: set<string>)
      requires IsDeadline(kind) && limit >= 1 && DbInv(store.State())
      modifies this, store
      ensures DbInv(store.State())
      ensures Progress(old(store.State()), store.State(), kind, now, fired)
      ensures DueIds(store.State(), kind, now) == DueIds(old(store.State()), kind, now) - fired
      ensures failures + panics == old(failures + panics) ==> DueIds(store.State(), kind, now) == {}
      ensures failures + panics <= old(failures + panics) + 1 && skipped == old(skipped)
      ensures (forall c :: c in claims ==> c == Returns) ==> failures + panics == old(failures + panics)
    {
      hide IsDue, DbInv, Fired, RowsFired, Progress, DueBatch, Deadlines, Effect, Enabled;
      ghost var start := store.State();
      fired := {};
      NoProgress(start, kind, now);
      var more, i := true, 0;
      while more
        invariant DbInv(store.State()) && Progress(start, store.State(), kind, now, fired)
        invariant DueIds(store.State(), kind, now) == DueIds(start, kind, now) - fired
        invariant !more && failures + panics == old(failures + panics) ==> DueIds(store.State(), kind, now) == {}
        invariant failures + panics <= old(failures + panics) + (if more then 0 else 1) && skipped == old(skipped)
        invariant failures + panics > old(failures + panics) ==> exists c :: c in claims && c != Returns
        invariant failures + panics >= old(failures + panics)
        decreases more, |DueIds(store.State(), kind, now)|
      {
        ghost var before := store.State();
        var claim := if i < |claims| then claims[i] else Returns;
        assert claim != Returns ==> claim in claims;
        var ok, saw, wrote; ghost var batch;
        ok, saw, wrote, batch := RunBatch(now, {}, claim);
        more := ok && !(saw < limit || wrote == 0);
        i := i + 1;
        if ok {
          FiredLeaves(before, store.State(), kind, now, batch);
          BatchIsDue(before, kind, now, batch);
          MoreProgress(start, before, store.State(), kind, now, fired, batch);
          fired := fired + Ids(batch);
          if more {
            assert batch[0].id in Ids(batch);
            FewerLeft(DueIds(before, kind, now), Ids(batch));
          }
        }
      }
    }
  }

  lemma FewerLeft(a: set<string>, b: set<string>)
    requires b <= a && b != {}
    ensures |a - b| < |a|
  {
    var x :| x in b;
    assert a == (a - b) + b;
  }

  lemma NoProgress(db: Db, k: DueKind, now: Time)
    ensures Progress(db, db, k, now, {})
  {
    hide IsDue, Effect, Enabled;
  }

  lemma BatchIsDue(db: Db, k: DueKind, now: Time, batch: seq<Errand>)
    requires DueBatch(db, k, now, batch)
    ensures Ids(batch) <= DueIds(db, k, now)
  {
    hide IsDue;
  }
}
