/** The reconciler ends reservations and reward edits that credit-service never answered. */
module Reconciler {
  import opened Prelude
  import opened Keys
  import opened Errands
  import opened StateMachine
  import opened StoreModel
  import opened Lifecycle
  import opened Composite
  import opened CompositeInv
  import opened CompositeProofs
  import opened ResultTheorems
  import opened ReviewTheorems
  import opened Due
  import opened Store
  import opened Scheduler
  import Saga

  /** A reservation is given up only once its command was sent or failed: one still in the outbox can go out later. */
  predicate MayGiveUp(outbox: map<string, OutboxRecord>, e: Errand) {
    var key := KeyOf(e.id, Slot(Reserve, 0));
    key in outbox && (outbox[key].status == RowSent || outbox[key].status == RowFailed)
  }

  function DecideStuck(outbox: map<string, OutboxRecord>, k: DueKind, cutoff: Time, now: Time,
                       e: Errand): (d: Decision) {
    if !IsDue(k, e, cutoff) then Skip
    else if k == StuckReservation && KeyOf(e.id, Slot(Reserve, 0)) !in outbox then Fails(PlainError)
    else if k == StuckReservation && !MayGiveUp(outbox, e) then Skip
    else
      var t := Next(e, EventOf(k), SYSTEM, StuckInput(k, e), now);
      if t.Ok? then Fire(t.value) else Fails(t.code)
  }

  function StuckDecider(outbox: map<string, OutboxRecord>, k: DueKind, cutoff: Time,
                        now: Time): (decide: Errand -> Decision) {
    e => DecideStuck(outbox, k, cutoff, now, e)
  }

  /** The errands of a batch the reconciler fires on. */
  function Stuck(outbox: map<string, OutboxRecord>, k: DueKind, now: Time, batch: seq<Errand>): (fs: seq<Firing>)
    decreases |batch|
  {
    if batch == [] then []
    else
      var rest := Stuck(outbox, k, now, batch[1..]);
      if k == StuckReservation && !MayGiveUp(outbox, batch[0]) then rest
      else [Firing(batch[0], EventOf(k), StuckInput(k, batch[0]), now)] + rest
  }

  /** Every waiting errand's reserve command is in the outbox. */
  ghost predicate ReserveRows(db: Db) {
    forall id :: id in db.errands && db.errands[id].status == PendingReservation ==>
      KeyOf(id, Saga.RESERVE) in db.outbox
  }

  // ---------------------------------------------------------------- nothing fails

  /** The batch's errands are due and in a state some run leaves them in. */
  ghost predicate Stored(db: Db, k: DueKind, cutoff: Time, batch: seq<Errand>) {
    forall i :: 0 <= i < |batch| ==>
      && batch[i].id in db.errands && db.errands[batch[i].id] == batch[i] && IsDue(k, batch[i], cutoff)
         && WellFormed(batch[i])
  }

  lemma StuckEnabled(k: DueKind, e: Errand, cutoff: Time, now: Time)
    requires !IsDeadline(k) && WellFormed(e) && IsDue(k, e, cutoff)
    ensures Enabled(e, EventOf(k), SYSTEM, StuckInput(k, e), now)
      && Next(e, EventOf(k), SYSTEM, StuckInput(k, e), now).Ok?
    ensures k == StuckReservation ==> e.status == PendingReservation
  {
    hide Next, WellFormed, StuckInput;
    StuckIsAccepted(k, e, cutoff, now);
    NextAccepts(e, EventOf(k), SYSTEM, StuckInput(k, e), now);
    hide Enabled;
  }

  lemma {:induction false} StuckAccepted(db: Db, k: DueKind, cutoff: Time, now: Time, batch: seq<Errand>)
    requires !IsDeadline(k) && Stored(db, k, cutoff, batch)
    ensures Accepts(Stuck(db.outbox, k, now, batch))
    decreases |batch|
  {
    hide Next, WellFormed, IsDue, Enabled, StuckInput, MayGiveUp;
    if batch != [] {
      StuckEnabled(k, batch[0], cutoff, now);
      StuckAccepted(db, k, cutoff, now, batch[1..]);
    }
  }

  ghost predicate From(fs: seq<Firing>, batch: seq<Errand>) {
    forall i :: 0 <= i < |fs| ==> exists j :: 0 <= j < |batch| && batch[j] == fs[i].e
  }

  lemma FoundIn(fs: seq<Firing>, batch: seq<Errand>, i: nat)
    requires From(fs, batch) && i < |fs|
    ensures fs[i].e in batch
  {
    assert fs[i] == fs[i];
  }

  ghost predicate Different(fs: seq<Firing>) {
    forall i, j :: 0 <= i < j < |fs| ==> fs[i].e.id != fs[j].e.id
  }

  lemma {:induction false} StuckFromBatch(outbox: map<string, OutboxRecord>, k: DueKind, now: Time, batch: seq<Errand>)
    requires DistinctIds(batch)
    ensures From(Stuck(outbox, k, now, batch), batch) && Different(Stuck(outbox, k, now, batch))
    decreases |batch|
  {
    hide MayGiveUp, StuckInput;
    if batch != [] {
      StuckFromBatch(outbox, k, now, batch[1..]);
      var rest := Stuck(outbox, k, now, batch[1..]);
      forall i | 0 <= i < |rest|
        ensures rest[i].e.id != batch[0].id
        ensures exists j :: 0 <= j < |batch| && batch[j] == rest[i].e
      {
        var j :| 0 <= j < |batch[1..]| && batch[1..][j] == rest[i].e;
        assert batch[j + 1] == rest[i].e;
      }
      assert batch[0] == batch[0];
    }
  }

  lemma {:induction false} StuckDecided(db: Db, k: DueKind, cutoff: Time, now: Time, batch: seq<Errand>,
                                        acc: seq<Transition>)
    requires !IsDeadline(k) && Stored(db, k, cutoff, batch) && ReserveRows(db)
    requires Accepts(Stuck(db.outbox, k, now, batch))
    ensures DecideFrom(batch, StuckDecider(db.outbox, k, cutoff, now), acc)
      == Ok(acc + Transitions(Stuck(db.outbox, k, now, batch)))
    decreases |batch|
  {
    hide Next, WellFormed, IsDue, Enabled, StuckInput, MayGiveUp, KeyOf;
    var fs := Stuck(db.outbox, k, now, batch);
    if batch == [] {
      assert acc + [] == acc;
    } else {
      StuckEnabled(k, batch[0], cutoff, now);
      var rest := Stuck(db.outbox, k, now, batch[1..]);
      StuckAccepted(db, k, cutoff, now, batch[1..]);
      if k == StuckReservation && !MayGiveUp(db.outbox, batch[0]) {
        StuckDecided(db, k, cutoff, now, batch[1..], acc);
      } else {
        assert fs[1..] == rest;
        var ts := Transitions(fs);
        StuckDecided(db, k, cutoff, now, batch[1..], acc + [ts[0]]);
        assert acc + ts == acc + [ts[0]] + Transitions(rest);
      }
    }
  }

  /** A batch of stuck errands never fails, and fires on exactly those whose command may be given up. */
  lemma StuckFires(db: Db, k: DueKind, cutoff: Time, now: Time, batch: seq<Errand>)
    requires !IsDeadline(k) && DueBatch(db, k, cutoff, batch) && ReserveRows(db)
    requires DbInv(db)
    ensures var r := Claim(db, batch, StuckDecider(db.outbox, k, cutoff, now));
      var fs := Stuck(db.outbox, k, now, batch);
      r.Ok? && r.value.1 == |fs| && DbInv(r.value.0) && Fired(db, r.value.0, fs) && RowsFired(db, r.value.0, fs)
  {
    hide Next, IsDue, DbInv, Fired, RowsFired, DecideFrom, Claim, StuckDecider, Accepts, Stuck, WellFormed, KeyInv,
         NoticeInv, IsUuid, ReserveRows;
    DbParts(db);
    var fs := Stuck(db.outbox, k, now, batch);
    StuckAccepted(db, k, cutoff, now, batch);
    StuckDecided(db, k, cutoff, now, batch, []);
    assert [] + Transitions(fs) == Transitions(fs);
    StuckFromBatch(db.outbox, k, now, batch);
    forall i | 0 <= i < |fs|
      ensures fs[i].e.id in db.errands && db.errands[fs[i].e.id] == fs[i].e && fs[i].e in batch
    {
      FoundIn(fs, batch, i);
    }
    ClaimFires(db, batch, StuckDecider(db.outbox, k, cutoff, now), fs);
  }

  // ---------------------------------------------------------------- which errands are ended, and how

  /** The errand has waited for credit-service since the cutoff: for its reservation since it was created, for an edit
      since that was requested. */
  predicate WaitedSince(k: DueKind, e: Errand, cutoff: Time) {
    match k
    case StuckReservation => e.status == PendingReservation && e.createdAt <= cutoff
    case StuckEdit => e.pendingEdit.Some? && e.pendingEdit.value.at <= cutoff
    case _ => false
  }

  /** And its reserve command cannot go out any more by itself. */
  predicate TimedOut(db: Db, k: DueKind, e: Errand, cutoff: Time) {
    && WaitedSince(k, e, cutoff)
    && (k == StuckReservation ==>
          && KeyOf(e.id, Slot(Reserve, 0)) in db.outbox
          && (db.outbox[KeyOf(e.id, Slot(Reserve, 0))].status == RowSent
              || db.outbox[KeyOf(e.id, Slot(Reserve, 0))].status == RowFailed))
  }

  /** The reservation is rejected, the edit dropped. */
  function EndedErrand(k: DueKind, e: Errand, now: Time): (e': Errand) {
    if k == StuckReservation then e.(status := Rejected, version := e.version + 1, updatedAt := now)
    else e.(pendingEdit := None, version := e.version + 1, updatedAt := now)
  }

  /** A release goes out for the reservation, and for the edit an adjust back to the reward, newer than the edit's. */
  ghost predicate Undone(db': Db, k: DueKind, e: Errand, now: Time) {
    var slot := if k == StuckReservation then Slot(Release, 0) else Slot(AdjustRevert, e.version + 1);
    var key := KeyOf(e.id, slot);
    && key in db'.outbox && db'.outbox[key].status == RowPending && db'.outbox[key].at == now
    && db'.outbox[key].row
       == OutboxRow(if k == StuckReservation then ReleaseKind else AdjustKind, key, e.id,
                    CommandPayload(CreditCommand(e.id, e.version + 1, e.requesterId, "", 0,
                                                 if k == StuckReservation then 0 else e.details.reward,
                                                 if k == StuckReservation then 0 else 2 * e.version + 1)))
  }

  /** Why it ended is announced. */
  ghost predicate Told(db': Db, k: DueKind, e: Errand, now: Time) {
    var name := if k == StuckReservation then RejectedEvent else EditRejected;
    var key := KeyOf(e.id, Slot(Emit(name), e.version + 1));
    && key in db'.outbox && db'.outbox[key].status == RowPending && db'.outbox[key].row.kind == EventKind(name)
    && db'.outbox[key].row.payload.EventPayload?
    && var d := db'.outbox[key].row.payload.data;
    && d.errandId == e.id && d.errandVersion == e.version + 1 && d.at == now
    && d.reason == if k == StuckReservation then "RESERVATION_FAILED" else "ADJUST_TIMEOUT"
  }

  /** Every errand stays as it is, or was unlocked and timed out and is ended and undone. */
  ghost predicate OnlyEnded(db: Db, db': Db, k: DueKind, now: Time, cutoff: Time, locked: set<string>) {
    && db'.errands.Keys == db.errands.Keys
    && (forall id :: id in db.errands ==>
          || db'.errands[id] == db.errands[id]
          || (id !in locked && TimedOut(db, k, db.errands[id], cutoff) && IsEnded(db, db', k, now, id)))
  }

  ghost predicate IsEnded(db: Db, db': Db, k: DueKind, now: Time, id: string) {
    && id in db.errands && id in db'.errands
    && db'.errands[id] == EndedErrand(k, db.errands[id], now) && Undone(db', k, db.errands[id], now)
    && Told(db', k, db.errands[id], now)
  }

  ghost predicate AllEnded(db: Db, db': Db, k: DueKind, now: Time, cutoff: Time, locked: set<string>) {
    forall id :: id in db.errands && id !in locked && TimedOut(db, k, db.errands[id], cutoff) ==>
      IsEnded(db, db', k, now, id)
  }

  lemma DueMeans(k: DueKind, e: Errand, cutoff: Time)
    requires !IsDeadline(k)
    ensures IsDue(k, e, cutoff) <==> WaitedSince(k, e, cutoff)
  {
  }

  /** It waits for what the job gives up. */
  predicate Waits(k: DueKind, e: Errand) {
    if k == StuckReservation then e.status == PendingReservation else e.pendingEdit.Some?
  }

  lemma StuckAfter(k: DueKind, e: Errand, now: Time)
    requires !IsDeadline(k) && WellFormed(e) && Waits(k, e)
    ensures var f := Firing(e, EventOf(k), StuckInput(k, e), now);
      f.Accepted() && f.After() == EndedErrand(k, e, now)
  {
    hide KeyOf, IsBlank, DetailsOk, DeliveryInv, ReviewInv;
  }

  lemma StuckOrder(k: DueKind, e: Errand, now: Time)
    requires !IsDeadline(k) && Waits(k, e)
    ensures CreditOrderOf(e, EventOf(k), StuckInput(k, e), now)
         == if k == StuckReservation then OrderRelease else OrderRevert
  {
  }

  lemma StuckRows(k: DueKind, e: Errand, now: Time, db: Db)
    requires !IsDeadline(k) && WellFormed(e) && Waits(k, e)
    requires var f := Firing(e, EventOf(k), StuckInput(k, e), now); f.Accepted() && RowsOut(db, f)
    ensures Undone(db, k, e, now)
  {
    hide KeyOf, WellFormed, Enabled, Effect, Announcements, AnnouncementsOf, ReasonOf, CreditOrderOf, StuckInput;
    var f := Firing(e, EventOf(k), StuckInput(k, e), now);
    StuckAfter(k, e, now);
    StuckOrder(k, e, now);
    var rows := OutboxOf(f.e, f.ev, SYSTEM, f.input, f.now);
    assert rows[0] == EmissionOf(e, f.After(), CreditOrderOf(e, f.ev, f.input, now)).row;
    hide OutboxOf;
  }

  lemma StuckNews(k: DueKind, e: Errand, now: Time, db: Db)
    requires !IsDeadline(k) && WellFormed(e) && Waits(k, e)
    requires var f := Firing(e, EventOf(k), StuckInput(k, e), now); f.Accepted() && RowsOut(db, f)
    ensures Told(db, k, e, now)
  {
    hide KeyOf, WellFormed, Enabled, Effect, CreditOrderOf, EmissionOf;
    var f := Firing(e, EventOf(k), StuckInput(k, e), now);
    StuckAfter(k, e, now);
    var name := if k == StuckReservation then RejectedEvent else EditRejected;
    assert AnnouncementsOf(e, f.ev, f.input, now) == [name];
    var rows := OutboxOf(f.e, f.ev, SYSTEM, f.input, f.now);
    assert rows[|rows| - 1] == Announcement(name, e, f.After(), f.ev, SYSTEM, ReasonOf(f.ev, f.input), now);
    hide OutboxOf, Announcements;
  }

  /** Each firing is of an errand whose command may be given up. */
  lemma {:induction false} StuckFiring(outbox: map<string, OutboxRecord>, k: DueKind, now: Time, batch: seq<Errand>,
                                       i: nat)
    requires i < |Stuck(outbox, k, now, batch)|
    ensures var f := Stuck(outbox, k, now, batch)[i];
      f == Firing(f.e, EventOf(k), StuckInput(k, f.e), now) && (k == StuckReservation ==> MayGiveUp(outbox, f.e))
    decreases |batch|
  {
    hide MayGiveUp, StuckInput;
    if batch != [] {
      var skipped := |Stuck(outbox, k, now, batch)| - |Stuck(outbox, k, now, batch[1..])|;
      if i >= skipped {
        StuckFiring(outbox, k, now, batch[1..], i - skipped);
      }
    }
  }

  /** Each such errand of the batch is fired on. */
  lemma {:induction false} StuckFinds(outbox: map<string, OutboxRecord>, k: DueKind, now: Time, batch: seq<Errand>,
                                      j: nat)
    returns (i: nat)
    requires j < |batch| && (k == StuckReservation ==> MayGiveUp(outbox, batch[j]))
    ensures i < |Stuck(outbox, k, now, batch)| && Stuck(outbox, k, now, batch)[i].e == batch[j]
    decreases |batch|
  {
    hide MayGiveUp, StuckInput;
    if j == 0 {
      i := 0;
    } else {
      i := StuckFinds(outbox, k, now, batch[1..], j - 1);
      i := i + |Stuck(outbox, k, now, batch)| - |Stuck(outbox, k, now, batch[1..])|;
    }
  }

  lemma FiredEnds(db: Db, db': Db, k: DueKind, now: Time, e: Errand, fs: seq<Firing>, i: nat)
    requires !IsDeadline(k) && i < |fs| && fs[i] == Firing(e, EventOf(k), StuckInput(k, e), now)
    requires e.id in db.errands && db.errands[e.id] == e && WellFormed(e) && Waits(k, e)
    requires Fired(db, db', fs) && RowsFired(db, db', fs)
    ensures IsEnded(db, db', k, now, e.id)
  {
    hide Enabled, Effect, OutboxOf, WellFormed, StuckInput, RowsOut, Undone, Told, EndedErrand;
    StuckAfter(k, e, now);
    assert fs[i].Accepted() && RowsOut(db', fs[i]);
    StuckRows(k, e, now, db');
    StuckNews(k, e, now, db');
  }

  /** One errand of the batch: fired on, and so ended, exactly when it has timed out. */
  lemma BatchEnds(db: Db, db': Db, k: DueKind, now: Time, cutoff: Time, batch: seq<Errand>, j: nat)
    requires !IsDeadline(k) && DueBatch(db, k, cutoff, batch) && j < |batch| && WellFormed(batch[j])
    requires var fs := Stuck(db.outbox, k, now, batch); Fired(db, db', fs) && RowsFired(db, db', fs)
    ensures var id := batch[j].id;
      && id in db'.errands
      && if TimedOut(db, k, batch[j], cutoff) then IsEnded(db, db', k, now, id) else db'.errands[id] == db.errands[id]
  {
    hide WellFormed, KeyOf, StuckInput, RowsFired, IsEnded, Stuck, Effect, Enabled;
    var fs := Stuck(db.outbox, k, now, batch);
    DueMeans(k, batch[j], cutoff);
    hide IsDue;
    if TimedOut(db, k, batch[j], cutoff) {
      var i := StuckFinds(db.outbox, k, now, batch, j);
      StuckFiring(db.outbox, k, now, batch, i);
      FiredEnds(db, db', k, now, batch[j], fs, i);
      EndedIsStored(db, db', k, now, batch[j].id);
    } else {
      forall i | 0 <= i < |fs|
        ensures fs[i].e.id != batch[j].id
      {
        StuckFiring(db.outbox, k, now, batch, i);
        StuckIn(db.outbox, k, now, batch, i);
      }
    }
  }

  lemma EndedIsStored(db: Db, db': Db, k: DueKind, now: Time, id: string)
    requires IsEnded(db, db', k, now, id)
    ensures id in db'.errands
  {
    hide Undone, Told, EndedErrand;
  }

  lemma StuckIn(outbox: map<string, OutboxRecord>, k: DueKind, now: Time, batch: seq<Errand>, i: nat)
    requires DistinctIds(batch) && i < |Stuck(outbox, k, now, batch)|
    ensures exists j :: 0 <= j < |batch| && batch[j] == Stuck(outbox, k, now, batch)[i].e
  {
    hide Stuck;
    StuckFromBatch(outbox, k, now, batch);
    assert Stuck(outbox, k, now, batch)[i] == Stuck(outbox, k, now, batch)[i];
  }

  /** An errand outside the batch is left alone. */
  lemma OthersStay(db: Db, db': Db, k: DueKind, now: Time, batch: seq<Errand>, id: string)
    requires DistinctIds(batch) && id in db.errands && id !in Ids(batch)
    requires Fired(db, db', Stuck(db.outbox, k, now, batch))
    ensures id in db'.errands && db'.errands[id] == db.errands[id]
  {
    hide Stuck, Effect, Enabled;
    var fs := Stuck(db.outbox, k, now, batch);
    forall i | 0 <= i < |fs|
      ensures fs[i].e.id != id
    {
      StuckIn(db.outbox, k, now, batch, i);
    }
  }

  /** What one claim did, on the columns. */
  lemma ClaimEnds(db: Db, db': Db, k: DueKind, now: Time, cutoff: Time, locked: set<string>, batch: seq<Errand>)
    requires !IsDeadline(k) && DueBatch(db, k, cutoff, batch) && Ids(batch) !! locked && IdsInv(db)
    requires var fs := Stuck(db.outbox, k, now, batch); Fired(db, db', fs) && RowsFired(db, db', fs)
    ensures OnlyEnded(db, db', k, now, cutoff, locked)
    ensures DueIds(db, k, cutoff) - locked <= Ids(batch) ==> AllEnded(db, db', k, now, cutoff, locked)
  {
    hide WellFormed, IsUuid, TimedOut, Fired, RowsFired, IsDue, IsEnded, Stuck;
    FiredKeys(db, db', Stuck(db.outbox, k, now, batch));
    forall id | id in db.errands
      ensures id in db'.errands
      ensures id in Ids(batch) && TimedOut(db, k, db.errands[id], cutoff) ==> IsEnded(db, db', k, now, id)
      ensures !(id in Ids(batch) && TimedOut(db, k, db.errands[id], cutoff)) ==> db'.errands[id] == db.errands[id]
    {
      if id in Ids(batch) {
        var j :| 0 <= j < |batch| && batch[j].id == id;
        BatchEnds(db, db', k, now, cutoff, batch, j);
      } else {
        OthersStay(db, db', k, now, batch, id);
      }
    }
    forall id | id in db.errands && TimedOut(db, k, db.errands[id], cutoff)
      ensures id in DueIds(db, k, cutoff)
    {
      TimedOutIsDue(db, k, db.errands[id], cutoff);
    }
  }

  lemma FiredKeys(db: Db, db': Db, fs: seq<Firing>)
    requires Fired(db, db', fs)
    ensures db'.errands.Keys == db.errands.Keys
  {
    hide Effect, Enabled;
  }

  lemma TimedOutIsDue(db: Db, k: DueKind, e: Errand, cutoff: Time)
    requires !IsDeadline(k) && TimedOut(db, k, e, cutoff)
    ensures IsDue(k, e, cutoff)
  {
    hide KeyOf;
    DueMeans(k, e, cutoff);
  }

  // ---------------------------------------------------------------- every run's database

  lemma ReserveRowOf(w: World, id: string)
    requires id in w.db.errands && SagaInv(w)
    ensures KeyOf(id, Saga.RESERVE) in w.db.outbox
  {
    hide KeyOf, DoneView, Saga.RowOk;
    assert Saga.RowsInv(View(w, id));
  }

  /** The jobs' assumptions hold of the database in every run. */
  lemma DbInvInRuns(initialCredit: nat, steps: seq<Step>)
    ensures DbInv(Run(initialCredit, steps).db) && ReserveRows(Run(initialCredit, steps).db)
  {
    hide WorldInv, Run, IdsInv, KeyInv, NoticeInv, SagaInv, ReviewsMatch, KeyOf;
    RunKeepsInv(initialCredit, steps);
    ReviewsMatchInRuns(initialCredit, steps);
    var w := Run(initialCredit, steps);
    PartsOfRun(w);
    forall id | id in w.db.errands
      ensures KeyOf(id, Saga.RESERVE) in w.db.outbox
    {
      ReserveRowOf(w, id);
    }
  }

  // ---------------------------------------------------------------- one run

  datatype Stats = Stats(runs: nat, applied: nat, failures: nat, panics: nat)

  /** How a run ends. */
  datatype RunResult = Applied(n: nat) | RunFailed | RunPanicked

  /** The two settings the jobs read. */
  datatype Timeouts = Timeouts(reservation: Duration, edit: Duration)

  class Runner {
    const store: ErrandStore
    const batchSize: nat
    var stats: map<DueKind, Stats>

    constructor (store: ErrandStore, batchSize: nat)
      ensures this.store == store && this.batchSize == batchSize && stats == map[]
    {
      this.store, this.batchSize, stats := store, batchSize, map[];
    }

    ghost function StatsOf(k: DueKind): (s: Stats)
      reads this
    {
      if k in stats then stats[k] else Stats(0, 0, 0, 0)
    }

    /** A panicked run also counts as a failed one. */
    method Count(k: DueKind, r: RunResult)
      modifies this`stats
      ensures stats.Keys == old(stats.Keys) + {k}
      ensures var s := old(StatsOf(k));
        StatsOf(k) == s.(runs := s.runs + 1, applied := s.applied + if r.Applied? then r.n else 0,
                         failures := s.failures + if r.Applied? then 0 else 1,
                         panics := s.panics + if r.RunPanicked? then 1 else 0)
      ensures forall j :: j != k ==> StatsOf(j) == old(StatsOf(j))
    {
      var s := if k in stats then stats[k] else Stats(0, 0, 0, 0);
      s := s.(runs := s.runs + 1);
      if r.Applied? {
        s := s.(applied := s.applied + r.n);
      } else {
        s := s.(failures := s.failures + 1);
      }
      if r.RunPanicked? {
        s := s.(panics := s.panics + 1);
      }
      stats := stats[k := s];
    }

    /** One batch. `locked` is what other batches hold, `settingsEnd` and `claimEnd` are how the two calls end. On the
        database of any run nothing else fails but an unknown job and a timeout that is not positive, and a run that
        fails writes nothing. */
    method RunOnce(k: DueKind, now: Time, settings: Timeouts, locked: set<string>, settingsEnd: CallEnd,
                   claimEnd: CallEnd)
      returns (r: RunResult, ghost batch: seq<Errand>)
      requires DbInv(store.State()) && ReserveRows(store.State()) && batchSize >= 1
      modifies this, store
      ensures var timeout := if k == StuckEdit then settings.edit else settings.reservation;
        if IsDeadline(k) then r == RunFailed
        else if settingsEnd != Returns then r == if settingsEnd == Panics then RunPanicked else RunFailed
        else if timeout <= 0 then r == RunFailed
        else if claimEnd != Returns then r == if claimEnd == Panics then RunPanicked else RunFailed
        else
          && r.Applied?
          && DueBatch(old(store.State()), k, now - timeout, batch) && |batch| <= batchSize
          && Ids(batch) <= DueIds(old(store.State()), k, now - timeout) - locked
          && (|batch| < batchSize ==> Ids(batch) == DueIds(old(store.State()), k, now - timeout) - locked)
          && OnlyEnded(old(store.State()), store.State(), k, now, now - timeout, locked)
          && (|batch| < batchSize ==> AllEnded(old(store.State()), store.State(), k, now, now - timeout, locked))
          && var fs := Stuck(old(store.State()).outbox, k, now, batch);
             r.n == |fs| && Fired(old(store.State()), store.State(), fs)
               && RowsFired(old(store.State()), store.State(), fs)
      ensures !r.Applied? ==> store.State() == old(store.State())
      ensures DbInv(store.State())
      ensures var s := old(StatsOf(k));
        StatsOf(k) == s.(runs := s.runs + 1, applied := s.applied + if r.Applied? then r.n else 0,
                         failures := s.failures + if r.Applied? then 0 else 1,
                         panics := s.panics + if r.RunPanicked? then 1 else 0)
    {
      hide IsDue, DbInv, Fired, Claim, StuckDecider, Selected, WellFormed, IsUuid, KeyInv, NoticeInv, DueIds, Ids,
           Stuck, ReserveRows, KeyOf, RowsFired, OnlyEnded, AllEnded;
      batch := [];
      var timeout := if k == StuckEdit then settings.edit else settings.reservation;
      if IsDeadline(k) {
        r := RunFailed;
      } else if settingsEnd != Returns {
        r := Ended(settingsEnd);
      } else if timeout <= 0 {
        r := RunFailed;
      } else if claimEnd != Returns {
        r := Ended(claimEnd);
      } else {
        var cutoff := now - timeout;
        ghost var before := store.State();
        DbParts(before);
        var claimed, n := store.ClaimDue(k, cutoff, batchSize, locked, StuckDecider(store.outbox, k, cutoff, now));
        SelectedIsDue(before, k, cutoff, batchSize, locked, claimed);
        StuckFires(before, k, cutoff, now, claimed);
        ClaimEnds(before, store.State(), k, now, cutoff, locked, claimed);
        batch := claimed;
        r := Applied(n.value);
      }
      Count(k, r);
    }
  }

  /** A run ended by a call that did not return. */
  function Ended(end: CallEnd): (r: RunResult) {
    if end == Panics then RunPanicked else RunFailed
  }
}
