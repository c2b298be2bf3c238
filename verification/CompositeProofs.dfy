/** Every step of the system keeps the invariant, so it holds in every run. */
module CompositeProofs {
  import opened Prelude
  import opened Keys
  import opened Errands
  import opened StateMachine
  import opened Wallets
  import opened StoreModel
  import opened Lifecycle
  import opened CreditParts
  import opened Composite
  import opened CompositeInv
  import opened CompositeCredit
  import opened CompositeSmallSteps
  import opened CompositeWrites
  import opened CompositeSubmit
  import Saga

  // ---------------------------------------------------------------- the compare-and-swap

  /** A transition decided on an older row never passes the store's WHERE clause; one that passes was decided on the
      row as it is. */
  lemma SwapIsCurrent(seen: Errand, cur: Errand, t: Transition, ev: Event, a: Actor, input: EventInput, now: Time)
    requires Earlier(seen, cur) && WellFormed(cur) && Enabled(seen, ev, a, input, now)
    requires Means(t, seen, ev, a, input, now)
    ensures CompareAndSwap(cur, t).None? <==> seen == cur
    ensures CompareAndSwap(cur, t).Some? ==> Resolved(CompareAndSwap(cur, t).value)
  {
    hide Enabled, Effect, EmissionOf, CreditOrderOf, OutboxOf, ReasonOf, ChangesReward;
    assert t.from == seen.status && t.expectedVersion == seen.version && t.expectedPendingEditKey == seen.EditKey();
    hide Means;
    KeyNotEmpty(cur.id, Slot(Adjust, cur.version));
    KeyNotEmpty(seen.id, Slot(Adjust, seen.version));
  }

  lemma KeyNotEmpty(id: string, x: Slot)
    ensures KeyOf(id, x) != ""
  {
    KeySplits(id, x);
  }

  // ---------------------------------------------------------------- users, scheduler, reconciler

  lemma StoredIsPast(w: World, id: string)
    requires PastInv(w) && id in w.db.errands
    ensures w.(db := w.db, past := w.past + {w.db.errands[id]}) == w
  {
    hide Earlier, Rank;
    assert w.past + {w.db.errands[id]} == w.past;
  }

  lemma SubmitKeeps(w: World, e: Errand, now: Time)
    requires WorldInv(w)
    ensures WorldInv(DoSubmit(w, e, now))
  {
    hide Enabled, Next, Means, Commit, KeysFree, Fenced, Fresh, IdsInv, KeyInv, NoticeInv, WireInv, CreditInv, ReplyInv,
         PastInv, SagaInv, HandlerInv, ConfirmInv;
    var a := Actor(RequesterActor, e.requesterId);
    NextMeans(e, Submit, a, NO_INPUT, now);
    var t := Next(e, Submit, a, NO_INPUT, now);
    if Fresh(e) && t.Ok? {
      var key := (e.requesterId, e.createIdempotencyKey);
      if e.id in w.db.errands {
        StoredIsPast(w, e.id);
      } else {
        InsertKeeps(w, t.value, e, now, w.db.createKeys[key := e.id]);
      }
    }
  }

  lemma DecideKeeps(w: World, seen: Errand, ev: Event, a: Actor, input: EventInput, now: Time)
    requires WorldInv(w)
    ensures WorldInv(DoDecide(w, seen, ev, a, input, now))
  {
    hide Enabled, Next, Means, Commit, KeysFree, Fenced, WellFormed, IsUuid, KeyInv, NoticeInv, WireInv, CreditInv,
         ReplyInv, Earlier, Rank, SagaInv, HandlerInv, ConfirmInv, View, CompareAndSwap, EditTarget, HasOpenReview;
    NextMeans(seen, ev, a, input, now);
    var t := Next(seen, ev, a, input, now);
    if seen in w.past && !FromResult(ev, input) && t.Ok? {
      var cur := w.db.errands[seen.id];
      SwapIsCurrent(seen, cur, t.value, ev, a, input, now);
      MeansHeader(t.value, seen, ev, a, input, now);
      if CompareAndSwap(cur, t.value).None? && ev != Submit {
        assert Backed(View(w, cur.id), ev, input);
        UpdateKeeps(w, t.value, cur, ev, a, input, now);
      }
    }
  }

  lemma MeansHeader(t: Transition, e: Errand, ev: Event, a: Actor, input: EventInput, now: Time)
    requires Enabled(e, ev, a, input, now) && Means(t, e, ev, a, input, now)
    ensures t.errandId == e.id && t.from == e.status && t.event == ev && t.at == now
    ensures ev == Submit ==> t.from == NoStatus
  {
    hide Effect, EmissionOf, CreditOrderOf, OutboxOf, ReasonOf, ChangesReward, DetailsOk, IsBlank;
  }

  // ---------------------------------------------------------------- credit results

  /** A handler changes; everything else stays. */
  lemma HandlerKeeps(w: World, h: nat, handler: Handler)
    requires WorldInv(w) && HandlerOk(w.db, w.credit, handler)
    ensures WorldInv(w.(handlers := w.handlers[h := handler]))
  {
    hide IdsInv, CreditInv, ReplyInv, PastInv, HandlerOk, ConfirmInv, SagaInv, NoticeInv, KeyInv, MessageOf;
    var w' := w.(handlers := w.handlers[h := handler]);
    forall k
      ensures CreditRecord(w', k) == CreditRecord(w, k)
    {
    }
    MessagesAndHandlers(w, w');
  }

  lemma ReceivedOk(db: Db, c: Credit, r: Reply)
    requires ReplyInv(db, c) && r in c.outbox
    ensures HandlerOk(db, c, Handler(r, 0, FirstStage(r)))
  {
    hide KeyOf, CodeText;
    assert ReplyOk(db, c, r);
    var x: Slot :| CommandKey(db, r.command, r.order, x);
  }

  lemma ReceiveKeeps(w: World, h: nat, r: Reply)
    requires WorldInv(w)
    ensures WorldInv(DoReceive(w, h, r))
  {
    hide IdsInv, CreditInv, ReplyInv, PastInv, HandlerOk, HandlerInv, WireInv, ConfirmInv, SagaInv, NoticeInv, KeyInv,
         FirstStage;
    if r in w.credit.outbox && h !in w.handlers {
      ReceivedOk(w.db, w.credit, r);
      HandlerKeeps(w, h, Handler(r, 0, FirstStage(r)));
    }
  }

  lemma PassedReservation(e: Errand, ev: Event, input: EventInput, now: Time)
    requires e.status.Valid() && (ev == ReservationConfirmed || ev == ReservationRefused)
    requires e.status != PendingReservation
    ensures Next(e, ev, SYSTEM, input, now) == Fail(ErrandUnavailable)
  {
    hide RulesFor, Build, ChooseRule, CheckActor, IsBlank;
    RuleAttributes(e.status, ev);
  }

  /** An event a result reports is enabled, or the errand has moved past it and refuses with a resolved code. */
  lemma ResultOutcome(e: Errand, r: Reply, now: Time)
    requires WellFormed(e) && ResultEvent(r).Some?
    ensures var (ev, input) := ResultEvent(r).value;
      if Spent(e, r) then Next(e, ev, SYSTEM, input, now).Fail? else Next(e, ev, SYSTEM, input, now).Ok?
    ensures var (ev, input) := ResultEvent(r).value;
      Spent(e, r) && (ev == ReservationConfirmed || ev == ReservationRefused) ==>
        Resolved(Next(e, ev, SYSTEM, input, now).code)
  {
    hide Next, KeyOf, IsBlank, CodeText, Build, TheRule;
    var (ev, input) := ResultEvent(r).value;
    NextAccepts(e, ev, SYSTEM, input, now);
    if (ev == ReservationConfirmed || ev == ReservationRefused) && e.status != PendingReservation {
      PassedReservation(e, ev, input, now);
    }
    hide FromOf;
  }

  /** A result's command is not the empty key. */
  lemma ReplyKeyed(db: Db, c: Credit, r: Reply)
    requires ReplyOk(db, c, r)
    ensures r.command != "" && r.order in db.errands
  {
    hide KeyOf;
    var x: Slot :| CommandKey(db, r.command, r.order, x);
    KeyNotEmpty(r.order, x);
  }

  lemma ReadOk(db: Db, c: Credit, h: Handler, now: Time)
    requires HandlerOk(db, c, h) && h.stage == Reading && IdsInv(db)
    ensures h.reply.order in db.errands && ResultEvent(h.reply).Some?
    ensures var (ev, input) := ResultEvent(h.reply).value;
      HandlerOk(db, c, h.(stage := StageAfterRead(db.errands[h.reply.order], ev, input, now)))
  {
    hide KeyOf, CodeText, Next, WellFormed, IsUuid, ReplyOk, Rank;
    var (ev, input) := ResultEvent(h.reply).value;
    var e := db.errands[h.reply.order];
    ReplyKeyed(db, c, h.reply);
    ResultOutcome(e, h.reply, now);
    NextMeans(e, ev, SYSTEM, input, now);
    if Next(e, ev, SYSTEM, input, now).Ok? {
      MeansHeader(Next(e, ev, SYSTEM, input, now).value, e, ev, SYSTEM, input, now);
    }
    hide Enabled, Means;
  }

  lemma ReadKeeps(w: World, h: nat, now: Time)
    requires WorldInv(w)
    ensures WorldInv(DoRead(w, h, now))
  {
    hide CreditInv, ReplyInv, PastInv, HandlerOk, WireInv, ConfirmInv, SagaInv, NoticeInv, KeyInv, StageAfterRead,
         IdsInv;
    if h in w.handlers && w.handlers[h].stage == Reading && ResultEvent(w.handlers[h].reply).Some? {
      var (ev, input) := ResultEvent(w.handlers[h].reply).value;
      ReadOk(w.db, w.credit, w.handlers[h], now);
      HandlerKeeps(w, h,
                   w.handlers[h].(stage := StageAfterRead(w.db.errands[w.handlers[h].reply.order], ev, input, now)));
    }
  }

  lemma ReplyInSaga(w: World, r: Reply) returns (x: Slot)
    requires ReplyOk(w.db, w.credit, r) && !r.result.OperationFailedResult?
    ensures r.order in w.db.errands && r.command == KeyOf(r.order, x)
    ensures var s := View(w, r.order); x in s.done && s.done[x] == r.result
  {
    hide KeyOf, PartOf, RowsView;
    x :| CommandKey(w.db, r.command, r.order, x);
  }

  /** The errand waits for this reply, if it answers an edit. */
  ghost predicate Awaits(e: Errand, r: Reply) {
    r.result.AdjustedResult? || r.result.AdjustRefusedResult? ==>
      r.command == KeyOf(e.id, Slot(Adjust, e.version))
  }

  lemma AnswerBacks(s: Saga.State, x: Slot, r: Reply)
    requires s.e.id == r.order && x in s.done && s.done[x] == r.result && ResultEvent(r).Some?
    requires r.result.ReservedResult? || r.result.ReservationRefusedResult? ==> x == Saga.RESERVE
    requires r.result.AdjustedResult? || r.result.AdjustRefusedResult? ==> x == Slot(Adjust, s.e.version)
    ensures var (ev, input) := ResultEvent(r).value; Backed(s, ev, input)
  {
    hide CodeText;
  }

  /** A remembered result backs the event it reports. */
  lemma ReplyBacks(w: World, r: Reply)
    requires ReplyOk(w.db, w.credit, r) && ResultEvent(r).Some? && r.order in w.db.errands
    requires var e := w.db.errands[r.order]; e.id == r.order && IsUuid(e.id) && Awaits(e, r)
    requires SagaInv(w)
    ensures var (ev, input) := ResultEvent(r).value; Backed(View(w, r.order), ev, input)
  {
    hide KeyOf, RowsView, DoneView, PartOf, Backed, ReplyOk, Saga.Inv;
    var x := ReplyInSaga(w, r);
    var s := View(w, r.order);
    AnswerInSlot(s, x);
    UuidColonFree(r.order);
    hide IsUuid;
    if r.result.AdjustedResult? || r.result.AdjustRefusedResult? {
      KeyInjective(r.order, x, r.order, Slot(Adjust, s.e.version));
    }
    AnswerBacks(s, x, r);
  }

  lemma AnswerInSlot(s: Saga.State, x: Slot)
    requires Saga.Inv(s) && x in s.done
    ensures Saga.AnswerFits(x.op, s.done[x])
    ensures s.done[x].ReservedResult? || s.done[x].ReservationRefusedResult? ==> x == Saga.RESERVE
  {
    hide KeyOf, Saga.StatusInv, Saga.DroppedInv, Saga.BaseInv, Saga.ReservationInv, Saga.SeqInv, Saga.LedgerInv;
    assert x in s.rows && Saga.RowOk(s.e, x, s.rows[x]);
  }

  /** A write decided on the errand as it is always commits; one that lost the race is always a resolved conflict. */
  lemma ResultWrite(w: World, h: Handler)
    requires h.stage.Applying? && HandlerOk(w.db, w.credit, h)
    requires WorldInv(w)
    ensures var t, seen, cur := h.stage.t, h.stage.seen, w.db.errands[h.reply.order];
      && t.errandId == h.reply.order
      && if seen == cur then
           && Apply(w.db, t) == Committed(Commit(w.db, cur, t))
           && h.reply.order in Commit(w.db, cur, t).errands
           && var e' := Commit(w.db, cur, t).errands[h.reply.order];
           && WorldInv(w.(db := Commit(w.db, cur, t), past := w.past + {e'}))
           && Rank(seen) < Rank(e')
         else Rank(seen) < Rank(cur) && Apply(w.db, t).Aborted? && Resolved(Apply(w.db, t).code)
  {
    hide Enabled, Next, Means, Commit, KeysFree, Fenced, KeyInv, NoticeInv, WireInv, CreditInv, ReplyInv, PastInv,
         SagaInv, HandlerInv, ConfirmInv, View, CompareAndSwap, HasOpenReview, ReplyOk, Spent, Rank, WellFormed, KeyOf,
         CodeText, Awaits, IsUuid;
    var t, seen, id := h.stage.t, h.stage.seen, h.reply.order;
    var cur := w.db.errands[id];
    var (ev, input) := ResultEvent(h.reply).value;
    NextMeans(seen, ev, SYSTEM, input, t.at);
    SwapIsCurrent(seen, cur, t, ev, SYSTEM, input, t.at);
    MeansHeader(t, seen, ev, SYSTEM, input, t.at);
    ResultFrom(seen, h.reply, t.at);
    if seen == cur {
      ReplyBacks(w, h.reply);
      UpdateKeeps(w, t, cur, ev, SYSTEM, input, t.at);
      CommitRank(w.db, t, cur, ev, SYSTEM, input, t.at);
    }
  }

  lemma ResultFrom(e: Errand, r: Reply, now: Time)
    requires ResultEvent(r).Some? && WellFormed(e)
    requires Enabled(e, ResultEvent(r).value.0, SYSTEM, ResultEvent(r).value.1, now)
    ensures e.status == PendingReservation || e.status == Open
    ensures Awaits(e, r)
  {
    hide KeyOf, CodeText, IsBlank;
  }

  lemma CommitRank(db: Db, t: Transition, e: Errand, ev: Event, a: Actor, input: EventInput, now: Time)
    requires WellFormed(e) && Enabled(e, ev, a, input, now) && Means(t, e, ev, a, input, now)
    ensures e.id in Commit(db, e, t).errands && Rank(e) < Rank(Commit(db, e, t).errands[e.id])
  {
    hide Enabled, Effect, EmissionOf, CreditOrderOf, OutboxOf, ReasonOf, ChangesReward, WriteReview, AddRows,
         WellFormed;
    EffectKeepsWellFormed(e, ev, a, input, now);
    EffectKeepsId(e, ev, a, input, now);
  }

  lemma AppliedOk(db: Db, c: Credit, h: Handler)
    requires h.stage.Applying? && HandlerOk(db, c, h) && h.reply.order in db.errands
    requires Rank(h.stage.seen) < Rank(db.errands[h.reply.order])
    ensures HandlerOk(db, c, h.(stage := Confirming)) && HandlerOk(db, c, h.(conflicts := 1, stage := Reading))
  {
    hide ReplyOk, Next, Spent, Rank, Earlier, CodeText;
  }

  lemma WriteKeeps(w: World, h: nat)
    requires WorldInv(w)
    ensures WorldInv(DoWrite(w, h))
  {
    hide IdsInv, CreditInv, ReplyInv, PastInv, WireInv, ConfirmInv, SagaInv, NoticeInv, KeyInv, Apply, Commit, ReplyOk,
         Next, Spent, Rank, Earlier, ResultEvent;
    if h in w.handlers && w.handlers[h].stage.Applying? {
      var handler := w.handlers[h];
      var id, cur := handler.reply.order, w.db.errands[handler.reply.order];
      ResultWrite(w, handler);
      if handler.stage.seen == cur {
        var db' := Commit(w.db, cur, handler.stage.t);
        var w1 := w.(db := db', past := w.past + {db'.errands[id]});
        AppliedOk(w1.db, w1.credit, handler);
        HandlerKeeps(w1, h, handler.(stage := Confirming));
      } else {
        AppliedOk(w.db, w.credit, handler);
        HandlerKeeps(w, h, handler.(conflicts := 1, stage := Reading));
      }
    }
  }

  /** A spent reply's row is not the reserve row of a waiting errand. */
  lemma SpentMaySettle(w: World, r: Reply)
    requires ReplyOk(w.db, w.credit, r) && !r.result.OperationFailedResult? && r.order in w.db.errands
    requires Spent(w.db.errands[r.order], r)
    requires IdsInv(w.db) && SagaInv(w)
    ensures MaySettle(w.db, r.command)
  {
    hide KeyOf, View, ReplyOk, WellFormed, Saga.Inv;
    var x := ReplyInSaga(w, r);
    AnswerInSlot(View(w, r.order), x);
    forall id | id in w.db.errands && w.db.errands[id].status == PendingReservation
      ensures r.command != KeyOf(id, Saga.RESERVE)
    {
      UuidColonFree(id);
      UuidColonFree(r.order);
      if r.command == KeyOf(id, Saga.RESERVE) {
        KeyInjective(r.order, x, id, Saga.RESERVE);
      }
    }
    hide IsUuid;
  }

  lemma SettledOk(db: Db, c: Credit, h: Handler)
    requires HandlerOk(db, c, h) && (h.stage.Confirming? || h.stage.Failing?)
    ensures HandlerOk(db, c, h.(stage := Finished(Ack)))
  {
    hide ReplyOk, Next, Spent, Rank, Earlier, ResultEvent;
  }

  lemma SetRowFrame(w: World, key: string, from: set<RowStatus>, to: RowStatus)
    ensures var w' := SetRow(w, key, from, to); w'.handlers == w.handlers && w'.credit == w.credit
  {
  }

  lemma SettleKeeps(w: World, h: nat)
    requires WorldInv(w)
    ensures WorldInv(DoSettle(w, h))
  {
    hide IdsInv, CreditInv, ReplyInv, PastInv, WireInv, ConfirmInv, SagaInv, NoticeInv, KeyInv, ReplyOk, Next, Spent,
         Rank, Earlier, ResultEvent, MaySettle, SetRow;
    if h in w.handlers {
      var handler := w.handlers[h];
      var key := handler.reply.command;
      var from := {RowPending, RowSent};
      if handler.stage.Confirming? {
        SpentMaySettle(w, handler.reply);
        SetRowKeeps(w, key, from, RowConfirmed);
        SetRowFrame(w, key, from, RowConfirmed);
        var w1 := SetRow(w, key, from, RowConfirmed);
        SettledOk(w1.db, w1.credit, handler);
        HandlerKeeps(w1, h, handler.(stage := Finished(Ack)));
      } else if handler.stage.Failing? {
        SetRowKeeps(w, key, from, RowFailed);
        SetRowFrame(w, key, from, RowFailed);
        var w1 := SetRow(w, key, from, RowFailed);
        SettledOk(w1.db, w1.credit, handler);
        HandlerKeeps(w1, h, handler.(stage := Finished(Ack)));
      }
    }
  }

  // ---------------------------------------------------------------- every run

  lemma RejectKeeps(w: World, id: string, action: RejectedAction, requestId: string)
    requires WorldInv(w) && id in w.db.errands
    ensures WorldInv(AddNotice(w, RejectionKey(id, action, requestId)))
  {
    hide KeyInv, NoticeInv, WireInv, CreditInv, ReplyInv, PastInv, SagaInv, HandlerInv, ConfirmInv, RejectionKey, KeyOf,
         WellFormed, IsUuid;
    assert IsUuid(id);
    NoticeKeeps(w, RejectionKey(id, action, requestId));
  }

  lemma RemindKeeps(w: World, id: string, x: Slot)
    requires WorldInv(w) && id in w.db.errands && (x.op == VerifyReminder || x.op == PickupReminder)
    ensures WorldInv(AddNotice(w, KeyOf(id, x)))
  {
    hide KeyInv, NoticeInv, WireInv, CreditInv, ReplyInv, PastInv, SagaInv, HandlerInv, ConfirmInv, RejectionKey, KeyOf,
         WellFormed, IsUuid;
    assert IsUuid(id);
    NoticeKeeps(w, KeyOf(id, x));
  }

  lemma DoKeeps(w: World, s: Step)
    requires WorldInv(w)
    ensures WorldInv(Do(w, s))
  {
    hide WorldInv, DoSubmit, DoDecide, DoPublish, DoRead, DoReceive, DoWrite, DoSettle, SetRow, Process, CreateWallet,
         KeyOf, RejectionKey, CreditRecord, AddNotice;
    match s
    case OpenWallet(owner, subject) => OpenWalletKeeps(w, owner, subject);
    case SubmitErrand(e, now) => SubmitKeeps(w, e, now);
    case Decide(seen, ev, actor, input, now) => DecideKeeps(w, seen, ev, actor, input, now);
    case Publish(key) => PublishKeeps(w, key);
    case MarkSent(key) => SetRowKeeps(w, key, {RowPending}, RowSent);
    case Resend(key) => SetRowKeeps(w, key, {RowSent}, RowPending);
    case GiveUp(key) => SetRowKeeps(w, key, {RowPending}, RowFailed);
    case RequeueRow(key) => SetRowKeeps(w, key, {RowFailed}, RowPending);
    case DeliverCommand(m) => if m in w.wire { DeliverKeeps(w, m); }
    case Receive(h, reply) => ReceiveKeeps(w, h, reply);
    case ReadErrand(h, now) => ReadKeeps(w, h, now);
    case WriteErrand(h) => WriteKeeps(w, h);
    case SettleRow(h) => SettleKeeps(w, h);
    case Crash(h) => CrashKeeps(w, h);
    case AcquireFence(op, supplierId) => FenceKeeps(w, DoAcquire(w, op, supplierId).db.fences);
    case CloseFence(op, state) => FenceKeeps(w, DoClose(w, op, state).db.fences);
    case Reject(id, action, requestId) => if id in w.db.errands { RejectKeeps(w, id, action, requestId); }
    case Remind(id, reminder) =>
      if id in w.db.errands && (reminder == VerifyReminder || reminder == PickupReminder) {
        RemindKeeps(w, id, Slot(reminder, w.db.errands[id].version));
      }
  }

  lemma InitInv(initialCredit: nat)
    ensures WorldInv(Init(initialCredit))
  {
  }

  /** The invariant holds in every run: any number of users, duplicated, reordered and lost messages, crashes at any
      point, stale reads and any interleaving. */
  lemma {:induction false} RunKeepsInv(initialCredit: nat, steps: seq<Step>)
    ensures WorldInv(Run(initialCredit, steps))
  {
    hide WorldInv, Do;
    if steps == [] {
      InitInv(initialCredit);
    } else {
      RunKeepsInv(initialCredit, steps[..|steps| - 1]);
      DoKeeps(Run(initialCredit, steps[..|steps| - 1]), steps[|steps| - 1]);
    }
  }
}
