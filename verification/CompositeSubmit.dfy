/** Submitting an errand keeps the invariant: credit-service knows nothing of the new order. */
module CompositeSubmit {
  import opened Prelude
  import opened Keys
  import opened Errands
  import opened StateMachine
  import opened StoreModel
  import opened Lifecycle
  import opened CreditParts
  import opened Composite
  import opened CompositeInv
  import opened CompositeRows
  import opened CompositeCredit
  import opened CompositeWrites
  import Saga

  /** A saga that has only asked for its reservation. */
  lemma NewSagaInv(s: Saga.State, row: OutboxRow)
    requires s == Saga.State(s.e, imap[Saga.RESERVE := row], imap[], None, false, [])
    requires s.e.status == PendingReservation && s.e.version >= 1 && s.e.pendingEdit.None? && s.e.details.reward > 0
    requires Saga.RowOk(s.e, Saga.RESERVE, row) && Saga.Cmd(row).amount == s.e.details.reward
    ensures Saga.Inv(s)
  {
    hide KeyOf;
    assert Saga.BaseAt(s, 0);
  }

  lemma NoCommandsYet(w: World, id: string)
    requires IdsInv(w.db) && KeyInv(w.db) && NoticeInv(w.db) && CreditInv(w.db, w.credit) && IsUuid(id)
    requires id !in w.db.errands
    ensures RowsView(w.db.outbox, id) == imap[] && DoneView(w.credit.processed, id) == imap[]
    ensures PartOf(w.credit, id) == Part(None, false, [])
  {
    hide KeyOf, Used, WellFormed, NoticeInv;
    forall x: Slot
      ensures x.op.Credit() ==> KeyOf(id, x) !in w.db.outbox
    {
      if x.op.Credit() { KeyIsFree(w.db, id, x); }
    }
    hide KeyInv, IdsInv;
    OtherEntries(w.credit.ledger, id);
  }

  lemma SubmitFits(db: Db, t: Transition, e: Errand, now: Time) returns (g: Change)
    requires IdsInv(db) && KeyInv(db) && NoticeInv(db) && e.id !in db.errands && Fresh(e)
    requires var a := Actor(RequesterActor, e.requesterId);
      Enabled(e, Submit, a, NO_INPUT, now) && Means(t, e, Submit, a, NO_INPUT, now)
    ensures Fits(db, g) && g.rows == t.outbox && g.at == now
    ensures var a := Actor(RequesterActor, e.requesterId); g.e == Effect(e, Submit, a, NO_INPUT, now)
    ensures g.x == EmissionOf(e, g.e, OrderReserve)
  {
    hide Used, KeyOf, WellFormed, KeyInv, NoticeInv, KeysFree, DetailsOk, IdsInv, OutboxOf, SlotsOf, Keyed, OneCommand,
         Fresh;
    var a := Actor(RequesterActor, e.requesterId);
    var e' := Effect(e, Submit, a, NO_INPUT, now);
    var x := EmissionOf(e, e', OrderReserve);
    g := Change(e', t.outbox, now, SlotsOf(x, [Placed], e'.version), x);
    SubmitIsWellFormed(e, a, NO_INPUT, now);
    OutboxKeyed(e, Submit, a, NO_INPUT, now);
    assert IsUuid(e.id) by { FreshId(e); }
    hide IsUuid;
    RowsAreFree(db, e.id, g.rows, g.slots);
    SubmitSlotsUsed(e', x, [Placed]);
  }

  lemma FreshId(e: Errand)
    requires Fresh(e)
    ensures IsUuid(e.id)
  {
  }

  lemma SubmitSlotsUsed(e': Errand, x: Saga.Emission, names: seq<EventName>)
    requires x.Emits? && x.slot == Saga.RESERVE && e'.version == 1 && EditRequested !in names
    ensures var slots := SlotsOf(x, names, e'.version); forall i :: 0 <= i < |slots| ==> Used(e', slots[i])
  {
  }

  lemma SubmitSaga(w: World, db': Db, g: Change, e: Errand, now: Time)
    requires IdsInv(w.db) && KeyInv(w.db) && NoticeInv(w.db) && CreditInv(w.db, w.credit) && Fits(w.db, g)
    requires Stores(w.db, db', g)
    requires Fresh(e) && e.id !in w.db.errands
    requires var a := Actor(RequesterActor, e.requesterId);
      Enabled(e, Submit, a, NO_INPUT, now) && g.e == Effect(e, Submit, a, NO_INPUT, now)
        && g.x == EmissionOf(e, g.e, OrderReserve)
    ensures Saga.Inv(View(w.(db := db', past := w.past + {g.e}), e.id))
  {
    hide KeyOf, Used, WellFormed, KeyInv, NoticeInv, CreditInv, IdsInv, IsUuid, PartOf, RowsView, DoneView, Keyed,
         OneCommand, AddRows, Saga.Inv, Rank;
    NoCommandsYet(w, e.id);
    OwnRowsView(w.db.outbox, e.id, g.rows, g.slots, g.x, g.e.version, g.at);
    assert DetailsOk(e.details, now, true) ==> e.details.reward > 0;
    NewSagaInv(Saga.State(g.e, imap[Saga.RESERVE := g.x.row], imap[], None, false, []), g.x.row);
  }

  lemma SubmitSagas(w: World, db': Db, g: Change)
    requires IdsInv(w.db) && SagaInv(w) && Fits(w.db, g) && Stores(w.db, db', g) && g.e.id !in w.db.errands
    requires var w' := w.(db := db', past := w.past + {g.e}); Saga.Inv(View(w', g.e.id))
    ensures SagaInv(w.(db := db', past := w.past + {g.e}))
  {
    hide Saga.Inv, Keyed, OneCommand, Used, WellFormed, Rank, AddRows, RowsView, PartOf, DoneView, IsUuid, KeysFree;
    var w' := w.(db := db', past := w.past + {g.e});
    forall o | o in w.db.errands
      ensures Saga.Inv(View(w', o))
    {
      OtherRowsView(w.db.outbox, g.e.id, g.rows, g.slots, o, g.e.version, g.at);
      assert View(w', o) == View(w, o);
    }
  }

  lemma SubmitHandlers(w: World, db': Db, g: Change)
    requires HandlerInv(w) && Fits(w.db, g) && Stores(w.db, db', g) && Grows(w.db, db', g) && g.e.id !in w.db.errands
    ensures HandlerInv(w.(db := db', past := w.past + {g.e}))
  {
    hide Stores, Grows, Fits, ReplyOk, Next, Earlier, Spent;
    forall h | h in w.handlers
      ensures HandlerOk(db', w.credit, w.handlers[h])
    {
      StoresReplies(w.db, db', g, w.credit, w.handlers[h].reply);
      StoresHandler(w.db, db', g, w.credit, w.handlers[h]);
    }
  }

  lemma SubmitStores(db: Db, t: Transition, e: Errand, now: Time, g: Change, keys: map<(string, string), string>)
    requires var a := Actor(RequesterActor, e.requesterId);
      && Enabled(e, Submit, a, NO_INPUT, now) && Means(t, e, Submit, a, NO_INPUT, now)
      && g.e == Effect(e, Submit, a, NO_INPUT, now)
    requires g.rows == t.outbox && g.at == now
    ensures Stores(db, Commit(db, e, t).(createKeys := keys), g)
  {
    hide Enabled, Effect, EmissionOf, CreditOrderOf, OutboxOf, ReasonOf, ChangesReward, WriteReview, AddRows;
  }

  lemma InsertKeeps(w: World, t: Transition, e: Errand, now: Time, keys: map<(string, string), string>)
    requires Fresh(e) && e.id !in w.db.errands
    requires var a := Actor(RequesterActor, e.requesterId);
      Enabled(e, Submit, a, NO_INPUT, now) && Means(t, e, Submit, a, NO_INPUT, now)
    requires WorldInv(w)
    ensures KeysFree(w.db, t.outbox)
    ensures var db' := Commit(w.db, e, t).(createKeys := keys);
            e.id in db'.errands && WorldInv(w.(db := db', past := w.past + {db'.errands[e.id]}))
  {
    hide Enabled, Effect, EmissionOf, CreditOrderOf, Means, View, Commit, Keyed, OneCommand, Used, KeyOf, Rank, KeyInv,
         NoticeInv, WireInv, CreditInv, ReplyInv, PastInv, SagaInv, HandlerInv, ConfirmInv, AddRows, KeysFree, Grows,
         WellFormed, IsUuid, Fresh, IdsInv;
    var g := SubmitFits(w.db, t, e, now);
    SubmitStores(w.db, t, e, now, g, keys);
    EffectKeepsId(e, Submit, Actor(RequesterActor, e.requesterId), NO_INPUT, now);
    var db' := Commit(w.db, e, t).(createKeys := keys);
    StoresGrows(w.db, db', g);
    StoresKeys(w.db, db', g);
    StoresCredit(w.db, db', g, w.credit);
    StoresWire(w, db', g);
    StoresPast(w, db', g);
    KeyIsFree(w.db, e.id, Saga.RESERVE);
    StoresConfirm(w.db, db', g);
    SubmitSaga(w, db', g, e, now);
    SubmitSagas(w, db', g);
    SubmitHandlers(w, db', g);
    NoticesStay(w.db, db');
    hide Fits;
  }
}
