/** What the event rows of a run announce. */
module AnnouncedRows {
  import opened Keys
  import opened Errands
  import opened StateMachine
  import opened StoreModel
  import opened Lifecycle
  import opened Composite
  import opened CompositeInv
  import opened CompositeProofs
  import opened StoreSteps

  /** The row names a version its errand has had, is keyed by it, and was written at the time it announces. */
  ghost predicate Announced(db: Db, k: string)
    requires k in db.outbox
  {
    var row := db.outbox[k].row;
    && row.kind.EventKind? && row.key == k && row.payload.EventPayload? && row.errandId in db.errands
    && var d := row.payload.data;
    && d.errandId == row.errandId && 1 <= d.errandVersion <= db.errands[row.errandId].version
    && k == KeyOf(row.errandId, Slot(Emit(row.kind.name), d.errandVersion))
    && d.at == db.outbox[k].at
  }

  ghost predicate AnnouncedInv(db: Db) {
    forall k :: k in db.outbox && !db.outbox[k].row.kind.Credit() ==> Announced(db, k)
  }

  /** A row is one of the new ones or was there before. */
  lemma {:induction false} AddedOrKept(outbox: map<string, OutboxRecord>, rows: seq<OutboxRow>, version: nat, at: Time,
                                       k: string)
    requires k in AddRows(outbox, rows, version, at)
    ensures var r := AddRows(outbox, rows, version, at)[k];
      || (k in outbox && r == outbox[k])
      || (r.row in rows && r.row.key == k && r.at == at)
    decreases |rows|
  {
    if rows != [] {
      var n := |rows| - 1;
      if rows[n].key != k {
        AddedOrKept(outbox, rows[..n], version, at, k);
      }
    }
  }

  /** What an event puts into the outbox besides its command are its announcements. */
  lemma EventRowsOf(e: Errand, ev: Event, a: Actor, input: EventInput, now: Time, row: OutboxRow)
    requires Enabled(e, ev, a, input, now) && row in OutboxOf(e, ev, a, input, now) && !row.kind.Credit()
    ensures row.kind.EventKind?
    ensures row == Announcement(row.kind.name, e, Effect(e, ev, a, input, now), ev, a, ReasonOf(ev, input), now)
  {
    hide Enabled, Effect, AnnouncementsOf, ReasonOf, KeyOf, CreditOrderOf;
  }

  lemma EffectVersion(e: Errand, ev: Event, a: Actor, input: EventInput, now: Time)
    requires Enabled(e, ev, a, input, now) && (e.status == NoStatus || e.version >= 1)
    ensures Effect(e, ev, a, input, now).version >= 1 && Effect(e, ev, a, input, now).version >= e.version
    ensures Effect(e, ev, a, input, now).id == e.id
  {
    hide KeyOf, IsBlank, DetailsOk;
  }

  lemma CommitAnnounces(db: Db, e: Errand, t: Transition, ev: Event, a: Actor, input: EventInput, now: Time)
    requires AnnouncedInv(db) && (e.id in db.errands ==> db.errands[e.id] == e)
    requires e.status == NoStatus || e.version >= 1
    requires Enabled(e, ev, a, input, now) && Means(t, e, ev, a, input, now)
    ensures AnnouncedInv(Commit(db, e, t))
  {
    hide Enabled, Effect, OutboxOf, ReasonOf, KeyOf, AddRows, WriteReview;
    EffectVersion(e, ev, a, input, now);
    var db' := Commit(db, e, t);
    forall k | k in db'.outbox && !db'.outbox[k].row.kind.Credit()
      ensures Announced(db', k)
    {
      AddedOrKept(db.outbox, t.outbox, t.ApplyTo(e).version, t.at, k);
      if k in db.outbox && db'.outbox[k] == db.outbox[k] {
        assert Announced(db, k);
      } else {
        EventRowsOf(e, ev, a, input, now, db'.outbox[k].row);
      }
    }
  }

  lemma StepAnnounces(w: World, s: Step)
    requires AnnouncedInv(w.db)
    requires WorldInv(w)
    ensures AnnouncedInv(Do(w, s).db)
  {
    hide Do, WorldInv, Next, Commit, KeysFree, Fenced, CompareAndSwap, EditTarget, Enabled, Means, KeyOf, HasOpenReview;
    var x := StepWrites(w, s);
    match x
    case Nothing =>
      QuietAnnounces(w.db, Do(w, s).db);
    case Updated(e, t, ev, a, input, now) =>
      NextMeans(e, ev, a, input, now);
      MeansHeader(t, e, ev, a, input, now);
      VersionSet(e);
      CommitAnnounces(w.db, e, t, ev, a, input, now);
    case Inserted(e, t, now) =>
      NextMeans(e, Submit, Actor(RequesterActor, e.requesterId), NO_INPUT, now);
      CommitAnnounces(w.db, e, t, Submit, Actor(RequesterActor, e.requesterId), NO_INPUT, now);
  }

  lemma QuietAnnounces(db: Db, db': Db)
    requires AnnouncedInv(db) && db'.errands == db.errands && SameRows(db.outbox, db'.outbox)
    ensures AnnouncedInv(db')
  {
    hide KeyOf;
    forall k | k in db'.outbox && !db'.outbox[k].row.kind.Credit()
      ensures Announced(db', k)
    {
      assert Announced(db, k);
    }
  }

  lemma VersionSet(e: Errand)
    requires WellFormed(e)
    ensures e.version >= 1
  {
    hide KeyOf, DeliveryInv, ReviewInv, EditInv;
  }

  /** In every run, an event row announces a version its errand has had, under the key of that version. */
  lemma {:induction false} AnnouncedInRuns(initialCredit: nat, steps: seq<Step>)
    ensures AnnouncedInv(Run(initialCredit, steps).db)
  {
    hide Do, WorldInv, Announced;
    if steps != [] {
      var before := steps[..|steps| - 1];
      AnnouncedInRuns(initialCredit, before);
      RunKeepsInv(initialCredit, before);
      StepAnnounces(Run(initialCredit, before), steps[|steps| - 1]);
    }
  }
}
