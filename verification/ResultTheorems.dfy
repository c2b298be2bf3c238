/** What holds of credit-result handlers and of outbox rows in every run. */
module ResultTheorems {
  import opened Prelude
  import opened Keys
  import opened Errands
  import opened StateMachine
  import opened Wallets
  import opened StoreModel
  import opened Lifecycle
  import opened CreditParts
  import opened Composite
  import opened CompositeInv
  import opened CompositeCredit
  import opened CompositeWrites
  import opened CompositeProofs
  import opened Theorems
  import Saga

  // ---------------------------------------------------------------- results are never acknowledged too early

  /** The reply's event is refused on the errand as it is, now and at any later clock reading. */
  ghost predicate NoLongerApplies(w: World, r: Reply) {
    && r.order in w.db.errands
    && (ResultEvent(r).Some? ==>
          forall now :: Next(w.db.errands[r.order], ResultEvent(r).value.0, SYSTEM, ResultEvent(r).value.1, now).Fail?)
  }

  /** A write in progress commits, or loses the race with a code that is retried before the limit. */
  ghost predicate WriteIsSafe(w: World, h: Handler)
    requires h.stage.Applying?
  {
    var r := Apply(w.db, h.stage.t);
    r.Committed? || (Resolved(r.code) && AfterRefusedWrite(h, r.code).stage == Reading)
  }

  ghost predicate HandlerSafe(w: World, h: Handler) {
    && h.conflicts <= 1
    && (h.stage.Finished? ==> h.stage.d == Ack)
    && (h.stage.Finished? || h.stage.Confirming? ==> NoLongerApplies(w, h.reply))
    && (h.stage.Applying? ==> WriteIsSafe(w, h))
  }

  /** A confirmed reserve row of an errand that still waits for its reservation would be skipped forever. */
  ghost predicate NoLostReservation(w: World) {
    forall id ::
      id in w.db.errands && w.db.errands[id].status == PendingReservation && KeyOf(id, Saga.RESERVE) in w.db.outbox ==>
        w.db.outbox[KeyOf(id, Saga.RESERVE)].status != RowConfirmed
  }

  ghost predicate ResultsSafe(w: World) {
    && (forall h :: h in w.handlers ==> HandlerSafe(w, w.handlers[h]))
    && NoLostReservation(w)
  }

  lemma SpentNoLongerApplies(w: World, r: Reply)
    requires r.order in w.db.errands && WellFormed(w.db.errands[r.order])
    requires ResultEvent(r).Some? ==> Spent(w.db.errands[r.order], r)
    ensures NoLongerApplies(w, r)
  {
    hide WellFormed, Next, Spent, ResultEvent;
    if ResultEvent(r).Some? {
      forall now
        ensures Next(w.db.errands[r.order], ResultEvent(r).value.0, SYSTEM, ResultEvent(r).value.1, now).Fail?
      {
        ResultOutcome(w.db.errands[r.order], r, now);
      }
    }
  }

  lemma HandlerOkSafe(w: World, h: Handler)
    requires HandlerOk(w.db, w.credit, h)
    requires WorldInv(w)
    ensures HandlerSafe(w, h)
  {
    hide Next, Apply, WellFormed, Spent, ReplyOk, Earlier, Rank, NoLongerApplies, Commit, SagaInv, IdsInv, KeyInv,
         NoticeInv, WireInv, CreditInv, ReplyInv, PastInv, HandlerInv, ConfirmInv;
    if h.stage.Applying? {
      ResultWrite(w, h);
    }
    ErrandOfRun(w, h.reply.order);
    if h.stage.Finished? || h.stage.Confirming? {
      assert ResultEvent(h.reply).Some? ==> !h.reply.result.OperationFailedResult?;
      SpentNoLongerApplies(w, h.reply);
    }
  }

  lemma HandlersOfRun(w: World)
    requires WorldInv(w)
    ensures HandlerInv(w) && NoLostReservation(w)
  {
    hide SagaInv, IdsInv, KeyInv, NoticeInv, WireInv, CreditInv, ReplyInv, PastInv, HandlerInv, KeyOf;
  }

  /** In every run: a handler loses at most one race, so the conflict limit is never reached; no result of a stored
      errand is rejected or requeued; a result is confirmed only once it cannot apply any more; and no reserve row is
      confirmed while its errand waits. */
  lemma ResultsSafeInRuns(initialCredit: nat, steps: seq<Step>)
    ensures ResultsSafe(Run(initialCredit, steps))
  {
    hide WorldInv, Run, HandlerSafe, HandlerOk, NoLostReservation;
    RunKeepsInv(initialCredit, steps);
    var w := Run(initialCredit, steps);
    HandlersOfRun(w);
    forall h | h in w.handlers
      ensures HandlerSafe(w, w.handlers[h])
    {
      HandlerOkSafe(w, w.handlers[h]);
    }
  }

  // ---------------------------------------------------------------- outbox keys and sequence numbers

  /** What a transition decided on a stored errand adds never collides with a key in use, and its adjust is newer than
      every adjust the errand has sent. */
  ghost predicate RowsAreNew(w: World, t: Transition) {
    && KeysFree(w.db, t.outbox)
    && (forall i, k :: 0 <= i < |t.outbox| && t.outbox[i].kind == AdjustKind && k in w.db.outbox
                       && w.db.outbox[k].row.kind == AdjustKind && w.db.outbox[k].row.errandId == t.errandId ==>
          Saga.Cmd(w.db.outbox[k].row).seqNo < Saga.Cmd(t.outbox[i]).seqNo)
  }

  ghost predicate OutboxSafe(w: World) {
    && (forall id, ev, a, input, now :: id in w.db.errands && Next(w.db.errands[id], ev, a, input, now).Ok? ==>
          RowsAreNew(w, Next(w.db.errands[id], ev, a, input, now).value))
    && (forall e, now :: Fresh(e) && e.id !in w.db.errands && Submits(e, now).Ok? ==>
        KeysFree(w.db, Submits(e, now).value.outbox))
    && (forall id :: id in w.db.errands ==>
        !(KeyOf(id, Saga.RELEASE) in w.db.outbox && KeyOf(id, Saga.TRANSFER) in w.db.outbox))
  }

  ghost function Submits(e: Errand, now: Time): (r: Outcome<Transition>) {
    Next(e, Submit, Actor(RequesterActor, e.requesterId), NO_INPUT, now)
  }

  lemma AdjustIsNewest(s: Saga.State, ev: Event, a: Actor, input: EventInput, now: Time, y: Slot)
    requires Saga.RowsInv(s) && WellFormed(s.e) && Enabled(s.e, ev, a, input, now)
    requires y in s.rows && (y.op == Adjust || y.op == AdjustRevert)
    ensures var e' := Effect(s.e, ev, a, input, now);
            var x := EmissionOf(s.e, e', CreditOrderOf(s.e, ev, input, now));
            x.Emits? && x.row.kind == AdjustKind ==> Saga.Cmd(s.rows[y]).seqNo < Saga.Cmd(x.row).seqNo
  {
    hide WellFormed, Saga.RowsInv, Enabled, Effect, EmissionOf, CreditOrderOf, Saga.Cmd;
    AdjustBounds(s, y);
    EmittedSeq(s.e, ev, a, input, now);
  }

  lemma EmittedSeq(e: Errand, ev: Event, a: Actor, input: EventInput, now: Time)
    requires Enabled(e, ev, a, input, now)
    ensures var e' := Effect(e, ev, a, input, now);
            var x := EmissionOf(e, e', CreditOrderOf(e, ev, input, now));
            x.Emits? && x.row.kind == AdjustKind ==>
              Saga.Cmd(x.row).seqNo == 2 * e.version + 1
                || (e.pendingEdit.None? && Saga.Cmd(x.row).seqNo == 2 * e.version)
  {
    hide KeyOf, IsBlank, DetailsOk;
    match ev
    case Edit | Accept | EditRefused =>
    case _ =>
  }

  lemma AdjustBounds(s: Saga.State, y: Slot)
    requires Saga.RowsInv(s) && y in s.rows && (y.op == Adjust || y.op == AdjustRevert)
    ensures Saga.Cmd(s.rows[y]).seqNo <= 2 * s.e.version
      && (s.e.pendingEdit.None? ==> Saga.Cmd(s.rows[y]).seqNo < 2 * s.e.version)
  {
    hide KeyOf;
    assert Saga.RowOk(s.e, y, s.rows[y]);
  }

  /** A stored adjust row of an errand is a slot of its saga. */
  lemma AdjustRowSlot(w: World, k: string, id: string) returns (y: Slot)
    requires k in w.db.outbox && w.db.outbox[k].row.kind == AdjustKind && w.db.outbox[k].row.errandId == id
    requires IdsInv(w.db) && KeyInv(w.db) && SagaInv(w)
    ensures id in w.db.errands && y in View(w, id).rows && View(w, id).rows[y] == w.db.outbox[k].row
    ensures y.op == Adjust || y.op == AdjustRevert
  {
    hide KeyOf, Used, WellFormed, SagaInv, PartOf, DoneView, IsUuid, RowsView;
    var o, x: Slot :| OwnedBy(w.db, k, o, x) && (x.op.Credit() <==> w.db.outbox[k].row.kind.Credit());
    SagaRow(w, o, x);
    y := x;
  }

  lemma NewRows(w: World, id: string, ev: Event, a: Actor, input: EventInput, now: Time)
    requires id in w.db.errands && Next(w.db.errands[id], ev, a, input, now).Ok?
    requires IdsInv(w.db) && KeyInv(w.db) && NoticeInv(w.db) && SagaInv(w)
    ensures RowsAreNew(w, Next(w.db.errands[id], ev, a, input, now).value)
  {
    hide Next, Enabled, Effect, EmissionOf, CreditOrderOf, KeyInv, NoticeInv, SagaInv, WellFormed, IsUuid, KeysFree,
         View, Used, Saga.Cmd, Rank, KeyOf;
    var e := w.db.errands[id];
    NextMeans(e, ev, a, input, now);
    var t := Next(e, ev, a, input, now).value;
    MeansHeader(t, e, ev, a, input, now);
    var g := UpdateFits(w.db, t, e, ev, a, input, now);
    hide Means;
    forall i, k | 0 <= i < |t.outbox| && t.outbox[i].kind == AdjustKind && k in w.db.outbox
                  && w.db.outbox[k].row.kind == AdjustKind && w.db.outbox[k].row.errandId == id
      ensures Saga.Cmd(w.db.outbox[k].row).seqNo < Saga.Cmd(t.outbox[i]).seqNo
    {
      var y := AdjustRowSlot(w, k, id);
      assert g.slots[i].op.Credit() && t.outbox[i] == g.x.row;
      RowsOfSaga(w, id);
      AdjustIsNewest(View(w, id), ev, a, input, now, y);
    }
  }

  lemma RowsOfSaga(w: World, id: string)
    requires id in w.db.errands && IdsInv(w.db) && SagaInv(w)
    ensures Saga.RowsInv(View(w, id)) && View(w, id).e == w.db.errands[id] && WellFormed(View(w, id).e)
  {
    hide KeyOf, RowsView, DoneView, PartOf, Saga.RowsInv, Saga.StatusInv, Saga.AnswerInv, Saga.DroppedInv, Saga.BaseInv,
         Saga.ReservationInv, Saga.SeqInv, Saga.LedgerInv, WellFormed, IsUuid;
    assert Saga.Inv(View(w, id));
  }

  lemma NewSubmission(w: World, e: Errand, now: Time)
    requires Fresh(e) && e.id !in w.db.errands && Submits(e, now).Ok?
    requires WorldInv(w)
    ensures KeysFree(w.db, Submits(e, now).value.outbox)
  {
    hide Next, Enabled, Means, Fresh, KeysFree, Commit, IdsInv, KeyInv, NoticeInv, WireInv, CreditInv, ReplyInv,
         PastInv, SagaInv, HandlerInv, ConfirmInv;
    NextMeans(e, Submit, Actor(RequesterActor, e.requesterId), NO_INPUT, now);
    CompositeSubmit.InsertKeeps(w, Submits(e, now).value, e, now, map[]);
  }

  lemma OneEnding(w: World, id: string)
    requires id in w.db.errands && IdsInv(w.db) && SagaInv(w)
    ensures !(KeyOf(id, Saga.RELEASE) in w.db.outbox && KeyOf(id, Saga.TRANSFER) in w.db.outbox)
  {
    hide KeyOf, DoneView, PartOf, WellFormed, IsUuid, SagaInv, Saga.RowOk;
    RowsOfSaga(w, id);
  }

  lemma PartsOfRun(w: World)
    requires WorldInv(w)
    ensures IdsInv(w.db) && KeyInv(w.db) && NoticeInv(w.db) && SagaInv(w)
  {
    hide IdsInv, KeyInv, NoticeInv, WireInv, CreditInv, ReplyInv, PastInv, SagaInv, HandlerInv, ConfirmInv;
  }

  /** In every run, whatever event comes next: its outbox keys are unused, its adjust carries a larger sequence number
      than every adjust before it, and an errand never both releases and transfers. */
  lemma OutboxSafeInRuns(initialCredit: nat, steps: seq<Step>)
    ensures OutboxSafe(Run(initialCredit, steps))
  {
    hide WorldInv, Run, Next, RowsAreNew, KeysFree, Submits, Fresh, IdsInv, KeyInv, NoticeInv, SagaInv, KeyOf;
    RunKeepsInv(initialCredit, steps);
    var w := Run(initialCredit, steps);
    PartsOfRun(w);
    forall id, ev, a, input, now | id in w.db.errands && Next(w.db.errands[id], ev, a, input, now).Ok?
      ensures RowsAreNew(w, Next(w.db.errands[id], ev, a, input, now).value)
    {
      NewRows(w, id, ev, a, input, now);
    }
    forall e, now | Fresh(e) && e.id !in w.db.errands && Submits(e, now).Ok?
      ensures KeysFree(w.db, Submits(e, now).value.outbox)
    {
      NewSubmission(w, e, now);
    }
    forall id | id in w.db.errands
      ensures !(KeyOf(id, Saga.RELEASE) in w.db.outbox && KeyOf(id, Saga.TRANSFER) in w.db.outbox)
    {
      OneEnding(w, id);
    }
  }
}
