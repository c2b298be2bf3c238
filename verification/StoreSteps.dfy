/** Which steps of a run write errands, and what those writes are. */
module StoreSteps {
  import opened Prelude
  import opened Keys
  import opened Errands
  import opened StateMachine
  import opened Wallets
  import opened StoreModel
  import opened Lifecycle
  import opened Composite
  import opened CompositeInv
  import opened CompositeProofs
  import opened Theorems

  /** The errand write a step makes. */
  datatype Written =
    | Nothing
    | Updated(e: Errand, t: Transition, ev: Event, actor: Actor, input: EventInput, now: Time)
    | Inserted(e: Errand, t: Transition, now: Time)

  /** The same rows, whatever their delivery state. */
  ghost predicate SameRows(before: map<string, OutboxRecord>, after: map<string, OutboxRecord>) {
    && before.Keys == after.Keys
    && forall k :: k in after ==> k in before && after[k].row == before[k].row && after[k].at == before[k].at
  }

  /** An update is what `Next` decides on the stored row, an insert is a fresh submission, and both commit. */
  ghost predicate Writes(db: Db, db': Db, x: Written) {
    match x
    case Nothing => db'.errands == db.errands && db'.reviews == db.reviews && SameRows(db.outbox, db'.outbox)
    case Updated(e, t, ev, a, input, now) =>
      && e.id in db.errands && db.errands[e.id] == e && WellFormed(e)
      && Next(e, ev, a, input, now) == Ok(t) && Apply(db, t) == Committed(db')
    case Inserted(e, t, now) =>
      && e.id !in db.errands && Fresh(e)
      && Next(e, Submit, Actor(RequesterActor, e.requesterId), NO_INPUT, now) == Ok(t)
      && !Fenced(db.fences, e.details.supplierId)
      && db' == Commit(db, e, t).(createKeys := db.createKeys[(e.requesterId, e.createIdempotencyKey) := e.id])
  }

  lemma SubmitWrites(w: World, e: Errand, now: Time) returns (x: Written)
    requires IdsInv(w.db)
    ensures Writes(w.db, DoSubmit(w, e, now).db, x)
  {
    hide Next, Fresh, KeysFree, Fenced, Commit, WellFormed;
    var t := Next(e, Submit, Actor(RequesterActor, e.requesterId), NO_INPUT, now);
    x := Nothing;
    if Fresh(e) && t.Ok? {
      var r := Create(w.db, e, t.value);
      if r.Committed? && e.id !in w.db.errands && (e.requesterId, e.createIdempotencyKey) !in w.db.createKeys {
        x := Inserted(e, t.value, now);
        CommitStoresErrand(w.db, e, t.value);
        NextKeepsId(e, Submit, Actor(RequesterActor, e.requesterId), NO_INPUT, now);
      }
    }
  }

  lemma CommitStoresErrand(db: Db, e: Errand, t: Transition)
    ensures Commit(db, e, t).errands == db.errands[t.ApplyTo(e).id := t.ApplyTo(e)] && t.ApplyTo(e).id == e.id
  {
    hide WriteReview, AddRows;
  }

  lemma NextKeepsId(e: Errand, ev: Event, a: Actor, input: EventInput, now: Time)
    ensures Next(e, ev, a, input, now).Ok? ==> Next(e, ev, a, input, now).value.errandId == e.id
  {
    hide Next, Enabled, Means;
    NextMeans(e, ev, a, input, now);
    if Enabled(e, ev, a, input, now) {
      MeansHeader(Next(e, ev, a, input, now).value, e, ev, a, input, now);
    }
  }

  lemma DecideWrites(w: World, seen: Errand, ev: Event, a: Actor, input: EventInput, now: Time) returns (x: Written)
    requires IdsInv(w.db) && PastInv(w)
    ensures Writes(w.db, DoDecide(w, seen, ev, a, input, now).db, x)
  {
    hide Next, Apply, WellFormed, IsUuid, SameRows, Earlier, Rank, FromResult;
    assert SameRows(w.db.outbox, w.db.outbox) by { SameDb(w.db); }
    var t := Next(seen, ev, a, input, now);
    x := Nothing;
    if seen in w.past && !FromResult(ev, input) && t.Ok? && Apply(w.db, t.value).Committed?
       && seen.id in Apply(w.db, t.value).db.errands {
      TakenIsCurrent(w, seen, ev, a, input, now);
      x := Updated(seen, t.value, ev, a, input, now);
    }
  }

  lemma ResultWrites(w: World, h: nat) returns (x: Written)
    requires WorldInv(w)
    ensures Writes(w.db, DoWrite(w, h).db, x)
  {
    hide Next, Apply, WellFormed, IdsInv, CreditInv, ReplyInv, PastInv, WireInv, ConfirmInv, SagaInv, NoticeInv, KeyInv,
         ReplyOk, Spent, Rank, Earlier, ResultEvent, Commit;
    x := Nothing;
    if h in w.handlers && w.handlers[h].stage.Applying? {
      var handler := w.handlers[h];
      ResultWrite(w, handler);
      ErrandOfRun(w, handler.reply.order);
      if handler.stage.seen == w.db.errands[handler.reply.order] {
        var (ev, input) := ResultEvent(handler.reply).value;
        x := Updated(handler.stage.seen, handler.stage.t, ev, SYSTEM, input, handler.stage.t.at);
      }
    }
  }

  /** Every step writes no errand, one update decided on the current row, or one fresh submission. */
  lemma StepWrites(w: World, s: Step) returns (x: Written)
    requires WorldInv(w)
    ensures Writes(w.db, Do(w, s).db, x)
  {
    hide WorldInv, DoSubmit, DoDecide, DoWrite, Writes, PastInv, IdsInv, Do;
    PastOfRun(w);
    match s
    case SubmitErrand(e, now) =>
      x := SubmitWrites(w, e, now);
      DoIs(w, s);
    case Decide(seen, ev, actor, input, now) =>
      x := DecideWrites(w, seen, ev, actor, input, now);
      DoIs(w, s);
    case WriteErrand(h) =>
      x := ResultWrites(w, h);
      DoIs(w, s);
    case _ =>
      x := Nothing;
      QuietStep(w, s);
  }

  lemma DoIs(w: World, s: Step)
    ensures s.SubmitErrand? ==> Do(w, s) == DoSubmit(w, s.e, s.now)
    ensures s.Decide? ==> Do(w, s) == DoDecide(w, s.seen, s.ev, s.actor, s.input, s.now)
    ensures s.WriteErrand? ==> Do(w, s) == DoWrite(w, s.h)
  {
    hide DoSubmit, DoDecide, DoWrite, DoRead, DoSettle, DoReceive, DoPublish, DoMarkSent, SetRow, Process, CreateWallet,
         AddNotice, KeyOf, RejectionKey, DoAcquire, DoClose;
  }

  lemma SetRowQuiet(w: World, key: string, from: set<RowStatus>, to: RowStatus)
    ensures Writes(w.db, SetRow(w, key, from, to).db, Nothing)
  {
  }

  lemma SettleQuiet(w: World, h: nat)
    ensures Writes(w.db, DoSettle(w, h).db, Nothing)
  {
    hide Writes, SetRow;
    SameDb(w.db);
    if h in w.handlers {
      SetRowQuiet(w, w.handlers[h].reply.command, {RowPending, RowSent}, RowConfirmed);
      SetRowQuiet(w, w.handlers[h].reply.command, {RowPending, RowSent}, RowFailed);
    }
  }

  lemma SameDb(db: Db)
    ensures Writes(db, db, Nothing)
  {
  }

  /** A step on the outbox changes delivery states only. */
  lemma OutboxStep(w: World, s: Step)
    requires s.MarkSent? || s.Resend? || s.GiveUp? || s.RequeueRow? || s.SettleRow?
    ensures Writes(w.db, Do(w, s).db, Nothing)
  {
    hide Writes, SetRow, DoSettle, MessageOf;
    SameDb(w.db);
    match s
    case MarkSent(key) => SetRowQuiet(w, key, {RowPending}, RowSent);
    case Resend(key) => SetRowQuiet(w, key, {RowSent}, RowPending);
    case GiveUp(key) => SetRowQuiet(w, key, {RowPending}, RowFailed);
    case RequeueRow(key) => SetRowQuiet(w, key, {RowFailed}, RowPending);
    case SettleRow(h) => SettleQuiet(w, h);
  }

  lemma QuietStep(w: World, s: Step)
    requires !s.SubmitErrand? && !s.Decide? && !s.WriteErrand?
    ensures Writes(w.db, Do(w, s).db, Nothing)
  {
    hide Do, Writes;
    if s.MarkSent? || s.Resend? || s.GiveUp? || s.RequeueRow? || s.SettleRow? {
      OutboxStep(w, s);
    } else {
      OtherStep(w, s);
    }
  }

  /** No other quiet step touches errands, reviews or outbox rows. */
  lemma OtherStep(w: World, s: Step)
    requires !s.SubmitErrand? && !s.Decide? && !s.WriteErrand?
    requires !s.MarkSent? && !s.Resend? && !s.GiveUp? && !s.RequeueRow? && !s.SettleRow?
    ensures Writes(w.db, Do(w, s).db, Nothing)
  {
    hide Process, CreateWallet, KeyOf, RejectionKey, FirstStage, StageAfterRead, MessageOf, ResultEvent, IsUuid;
  }
}
