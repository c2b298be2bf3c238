/** Committing a transition keeps the invariant of the whole system. */
module CompositeWrites {
  import opened Keys
  import opened Errands
  import opened StateMachine
  import opened Wallets
  import opened StoreModel
  import opened Lifecycle
  import opened CreditParts
  import opened Composite
  import opened CompositeInv
  import opened CompositeRows
  import opened SagaProofs
  import Saga

  /** One errand's new row and the outbox rows stored with it. */
  datatype Change = Change(e: Errand, rows: seq<OutboxRow>, at: Time, slots: seq<Slot>, x: Saga.Emission)

  ghost predicate Fits(db: Db, g: Change) {
    && IsUuid(g.e.id) && WellFormed(g.e)
    && Keyed(g.rows, g.e.id, g.slots) && OneCommand(g.rows, g.slots, g.x) && KeysFree(db, g.rows)
    && (forall i :: 0 <= i < |g.slots| ==> Used(g.e, g.slots[i]))
    && (g.e.id in db.errands ==>
          && Rank(db.errands[g.e.id]) < Rank(g.e)
          && (forall y :: Used(db.errands[g.e.id], y) ==> Used(g.e, y)))
  }

  /** `db'` is `db` with the change stored. */
  ghost predicate Stores(db: Db, db': Db, g: Change) {
    && db'.errands == db.errands[g.e.id := g.e] && db'.notices == db.notices
    && db'.outbox == AddRows(db.outbox, g.rows, g.e.version, g.at)
  }

  /** What the database gains. */
  ghost predicate Grows(db: Db, db': Db, g: Change) {
    && (forall k :: k in db.outbox ==> k in db'.outbox && db'.outbox[k] == db.outbox[k])
    && (forall k :: k in db'.outbox && k !in db.outbox ==>
          exists i :: 0 <= i < |g.rows| && g.rows[i].key == k
            && db'.outbox[k] == OutboxRecord(g.rows[i], g.e.version, g.at, RowPending))
  }

  lemma StoresGrows(db: Db, db': Db, g: Change)
    requires KeysFree(db, g.rows) && Stores(db, db', g)
    ensures Grows(db, db', g)
  {
    AddRowsGives(db.outbox, g.rows, g.e.version, g.at);
    hide AddRows;
  }

  lemma StoresKeys(db: Db, db': Db, g: Change)
    requires IdsInv(db) && KeyInv(db) && Fits(db, g) && Stores(db, db', g) && Grows(db, db', g)
    ensures KeyInv(db')
  {
    hide KeyOf, Used, WellFormed, AddRows, IsUuid, KeysFree, Rank, OneCommand;
    forall k | k in db'.outbox
      ensures db'.outbox[k].row.key == k
      ensures exists id, x: Slot :: OwnedBy(db', k, id, x) && (x.op.Credit() <==> db'.outbox[k].row.kind.Credit())
    {
      if k in db.outbox {
        var id, x: Slot :| OwnedBy(db, k, id, x) && (x.op.Credit() <==> db.outbox[k].row.kind.Credit());
        assert OwnedBy(db', k, id, x);
      } else {
        var i :| 0 <= i < |g.rows| && g.rows[i].key == k && db'.outbox[k].row == g.rows[i];
        assert OwnedBy(db', k, g.e.id, g.slots[i]);
      }
    }
  }

  lemma StoresReplies(db: Db, db': Db, g: Change, c: Credit, r: Reply)
    requires Stores(db, db', g) && Grows(db, db', g) && ReplyOk(db, c, r)
    ensures ReplyOk(db', c, r)
  {
    hide KeyOf, AddRows;
    var x: Slot :| CommandKey(db, r.command, r.order, x);
    assert CommandKey(db', r.command, r.order, x);
  }

  lemma StoresCredit(db: Db, db': Db, g: Change, c: Credit)
    requires Stores(db, db', g) && Grows(db, db', g) && CreditInv(db, c) && ReplyInv(db, c)
    ensures CreditInv(db', c) && ReplyInv(db', c)
  {
    hide KeyOf, AddRows, ReplyOk;
    forall k | k in c.processed
      ensures exists id, x: Slot :: CommandKey(db', k, id, x)
    {
      var id, x: Slot :| CommandKey(db, k, id, x);
      assert CommandKey(db', k, id, x);
    }
    forall r | ReplyOk(db, c, r) { StoresReplies(db, db', g, c, r); }
  }

  lemma StoresWire(w: World, db': Db, g: Change)
    requires WireInv(w) && Grows(w.db, db', g)
    ensures WireInv(w.(db := db', past := w.past + {g.e}))
  {
    hide MessageOf;
    var w' := w.(db := db', past := w.past + {g.e});
    forall k | k in w.db.outbox
      ensures CreditRecord(w', k) == CreditRecord(w, k)
    {
    }
  }

  lemma StoresPast(w: World, db': Db, g: Change)
    requires IdsInv(w.db) && PastInv(w) && Fits(w.db, g) && Stores(w.db, db', g)
    ensures PastInv(w.(db := db', past := w.past + {g.e})) && IdsInv(db')
  {
    StoresIds(w.db, db', g);
    StoresRows(w, db', g);
    hide *;
  }

  lemma StoresIds(db: Db, db': Db, g: Change)
    requires IdsInv(db) && Fits(db, g) && Stores(db, db', g)
    ensures IdsInv(db')
  {
    hide Keyed, OneCommand, KeysFree, Used, WellFormed, Rank, IsUuid, AddRows;
  }

  lemma StoresRows(w: World, db': Db, g: Change)
    requires IdsInv(w.db) && PastInv(w) && Fits(w.db, g) && Stores(w.db, db', g)
    ensures PastInv(w.(db := db', past := w.past + {g.e}))
  {
    hide Keyed, OneCommand, KeysFree, Used, WellFormed, Rank, IsUuid, AddRows;
    var past := w.past + {g.e};
    forall s | s in w.past && s.id == g.e.id
      ensures Rank(s) < Rank(g.e) && WellFormed(s) && g.e.id in w.db.errands
    {
      assert Earlier(s, w.db.errands[s.id]);
    }
  }

  lemma StoresConfirm(db: Db, db': Db, g: Change)
    requires ConfirmInv(db) && Stores(db, db', g) && Grows(db, db', g)
    requires g.e.status == PendingReservation ==> KeyOf(g.e.id, Saga.RESERVE) !in db.outbox
    ensures ConfirmInv(db')
  {
    hide KeyOf, AddRows;
  }

  // ---------------------------------------------------------------- handlers

  /** The change leaves nothing more to do for a reply that was spent or waiting to be applied. */
  ghost predicate Overtakes(e: Errand, e': Errand, r: Reply) {
    && (Spent(e, r) ==> Spent(e', r))
    && (ResultEvent(r).Some? && Enabled(e, ResultEvent(r).value.0, SYSTEM, ResultEvent(r).value.1, e'.updatedAt) ==>
        Spent(e', r))
  }

  lemma EffectOvertakes(e: Errand, ev: Event, a: Actor, input: EventInput, now: Time, r: Reply)
    requires WellFormed(e) && Enabled(e, ev, a, input, now)
    requires var p := Effect(e, ev, a, input, now).pendingEdit;
             p.Some? && e.pendingEdit.None? ==> p.value.key != r.command
    ensures Overtakes(e, Effect(e, ev, a, input, now), r)
  {
    hide KeyOf, IsBlank, CodeText;
  }

  /** A credit result's event does not depend on the time. */
  lemma ResultTimeless(e: Errand, r: Reply, now: Time, later: Time)
    requires ResultEvent(r).Some?
    ensures var (ev, input) := ResultEvent(r).value;
      Enabled(e, ev, SYSTEM, input, now) == Enabled(e, ev, SYSTEM, input, later)
  {
    hide CodeText, IsBlank;
  }

  lemma StoresHandler(db: Db, db': Db, g: Change, c: Credit, h: Handler)
    requires Fits(db, g) && Stores(db, db', g) && HandlerOk(db, c, h) && ReplyOk(db', c, h.reply)
    requires g.e.id in db.errands && h.reply.order == g.e.id ==> Overtakes(db.errands[g.e.id], g.e, h.reply)
    requires g.e.id in db.errands ==> db.errands[g.e.id].id == g.e.id
    ensures HandlerOk(db', c, h)
  {
    hide ReplyOk, Keyed, OneCommand, KeysFree, Used, Spent, WellFormed, Rank, AddRows, Next, Enabled;
    if h.stage.Applying? && h.reply.order == g.e.id {
      var t, seen := h.stage.t, h.stage.seen;
      var (ev, input) := ResultEvent(h.reply).value;
      NextAccepts(seen, ev, SYSTEM, input, t.at);
      ResultTimeless(seen, h.reply, t.at, g.e.updatedAt);
    }
    hide ResultEvent;
  }

  // ---------------------------------------------------------------- an update

  /** The change a transition of a stored errand makes; its rows never violate the unique key. */
  lemma UpdateFits(db: Db, t: Transition, e: Errand, ev: Event, a: Actor, input: EventInput, now: Time)
    returns (g: Change)
    requires IdsInv(db) && KeyInv(db) && NoticeInv(db)
    requires e.id in db.errands && db.errands[e.id] == e && Enabled(e, ev, a, input, now)
    requires Means(t, e, ev, a, input, now)
    ensures Fits(db, g) && g.e == Effect(e, ev, a, input, now) && g.rows == t.outbox && g.at == now
    ensures g.x == EmissionOf(e, g.e, CreditOrderOf(e, ev, input, now))
  {
    hide Enabled, Effect, EmissionOf, CreditOrderOf, AnnouncementsOf, OutboxOf, Used, KeyOf, WellFormed, Rank, KeyInv,
         NoticeInv, KeysFree, IsUuid, SlotsOf, Keyed, OneCommand;
    var e' := Effect(e, ev, a, input, now);
    var x := EmissionOf(e, e', CreditOrderOf(e, ev, input, now));
    g := Change(e', t.outbox, now, SlotsOf(x, AnnouncementsOf(e, ev, input, now), e'.version), x);
    EffectKeepsWellFormed(e, ev, a, input, now);
    OutboxKeyed(e, ev, a, input, now);
    SlotsAreNew(e, ev, a, input, now);
    RowsAreFree(db, e.id, g.rows, g.slots);
    forall y | Used(e, y) { UsedStays(e, ev, a, input, now, y); }
    EffectKeepsId(e, ev, a, input, now);
  }

  lemma EffectKeepsId(e: Errand, ev: Event, a: Actor, input: EventInput, now: Time)
    requires Enabled(e, ev, a, input, now)
    ensures Effect(e, ev, a, input, now).id == e.id
    ensures ev != Submit ==> Effect(e, ev, a, input, now).status != PendingReservation
  {
    hide KeyOf, IsBlank;
  }

  lemma UpdateStores(db: Db, t: Transition, e: Errand, ev: Event, a: Actor, input: EventInput, now: Time, g: Change)
    requires Enabled(e, ev, a, input, now) && Means(t, e, ev, a, input, now)
    requires g.e == Effect(e, ev, a, input, now) && g.rows == t.outbox && g.at == now
    ensures Stores(db, Commit(db, e, t), g)
  {
    hide Enabled, Effect, EmissionOf, CreditOrderOf, OutboxOf, ReasonOf, ChangesReward, WriteReview, AddRows;
  }

  lemma UpdateSagas(w: World, db': Db, g: Change)
    requires IdsInv(w.db) && SagaInv(w) && Fits(w.db, g) && Stores(w.db, db', g) && g.e.id in w.db.errands
    requires Saga.Moves(View(w, g.e.id), g.e, g.x)
    ensures SagaInv(w.(db := db', past := w.past + {g.e}))
  {
    hide Saga.Inv, Saga.Moves, Keyed, OneCommand, Used, WellFormed, Rank, AddRows, RowsView, PartOf, DoneView, IsUuid;
    var w' := w.(db := db', past := w.past + {g.e});
    var id := g.e.id;
    forall o | o in w'.db.errands
      ensures Saga.Inv(View(w', o))
    {
      if o == id {
        OwnRowsView(w.db.outbox, id, g.rows, g.slots, g.x, g.e.version, g.at);
        MoveKeepsInv(View(w, id), g.e, g.x);
        assert View(w', id) == Saga.AfterMove(View(w, id), g.e, g.x);
      } else {
        OtherRowsView(w.db.outbox, id, g.rows, g.slots, o, g.e.version, g.at);
        assert View(w', o) == View(w, o);
      }
    }
  }

  /** A reply's command is stored, so a change that takes a fresh edit key cannot revive it. */
  lemma UpdateOvertakes(db: Db, c: Credit, g: Change, ev: Event, a: Actor, input: EventInput, now: Time, r: Reply)
    requires g.e.id in db.errands && Fits(db, g) && ReplyOk(db, c, r)
    requires var e := db.errands[g.e.id];
      && e.id == g.e.id && WellFormed(e) && Enabled(e, ev, a, input, now) && g.e == Effect(e, ev, a, input, now)
      && g.x == EmissionOf(e, g.e, CreditOrderOf(e, ev, input, now))
    ensures Overtakes(db.errands[g.e.id], g.e, r)
  {
    hide Used, KeyOf, Rank, Overtakes, IsUuid, WellFormed;
    var e := db.errands[g.e.id];
    if g.e.pendingEdit.Some? && e.pendingEdit.None? {
      FreshEditKey(e, ev, a, input, now);
      assert g.rows[0].key == g.e.pendingEdit.value.key;
    }
    hide Enabled, Effect, EmissionOf, CreditOrderOf;
    EffectOvertakes(e, ev, a, input, now, r);
  }

  lemma FreshEditKey(e: Errand, ev: Event, a: Actor, input: EventInput, now: Time)
    requires WellFormed(e) && Enabled(e, ev, a, input, now)
    requires Effect(e, ev, a, input, now).pendingEdit.Some? && e.pendingEdit.None?
    ensures var e' := Effect(e, ev, a, input, now);
            var x := EmissionOf(e, e', CreditOrderOf(e, ev, input, now));
            x.Emits? && KeyOf(e.id, x.slot) == e'.pendingEdit.value.key
  {
    hide KeyOf, IsBlank;
  }

  lemma UpdateHandlers(w: World, db': Db, g: Change, ev: Event, a: Actor, input: EventInput, now: Time)
    requires HandlerInv(w) && IdsInv(w.db) && Fits(w.db, g) && Stores(w.db, db', g) && Grows(w.db, db', g)
    requires g.e.id in w.db.errands
    requires var e := w.db.errands[g.e.id];
      && Enabled(e, ev, a, input, now) && g.e == Effect(e, ev, a, input, now)
      && g.x == EmissionOf(e, g.e, CreditOrderOf(e, ev, input, now))
    ensures HandlerInv(w.(db := db', past := w.past + {g.e}))
  {
    hide Enabled, Effect, EmissionOf, CreditOrderOf, Stores, Grows, Fits, ReplyOk, WellFormed, Next, Earlier, Spent,
         IsUuid, Overtakes;
    forall h | h in w.handlers
      ensures HandlerOk(db', w.credit, w.handlers[h])
    {
      StoresReplies(w.db, db', g, w.credit, w.handlers[h].reply);
      UpdateOvertakes(w.db, w.credit, g, ev, a, input, now, w.handlers[h].reply);
      StoresHandler(w.db, db', g, w.credit, w.handlers[h]);
    }
  }

  /** Storing a transition decided on the errand as it is keeps the invariant. */
  lemma UpdateKeeps(w: World, t: Transition, e: Errand, ev: Event, a: Actor, input: EventInput, now: Time)
    requires e.id in w.db.errands && w.db.errands[e.id] == e && Enabled(e, ev, a, input, now)
    requires Means(t, e, ev, a, input, now)
    requires ev != Submit && Backed(View(w, e.id), ev, input)
    requires WorldInv(w)
    ensures KeysFree(w.db, t.outbox)
    ensures var db' := Commit(w.db, e, t);
      e.id in db'.errands && WorldInv(w.(db := db', past := w.past + {db'.errands[e.id]}))
  {
    hide Enabled, Effect, EmissionOf, CreditOrderOf, Means, Backed, View, Commit, Keyed, OneCommand, Used, KeyOf, Rank,
         Saga.Moves, KeyInv, NoticeInv, WireInv, CreditInv, ReplyInv, PastInv, SagaInv, HandlerInv, ConfirmInv, AddRows,
         KeysFree, Grows, WellFormed, IsUuid;
    var g := UpdateFits(w.db, t, e, ev, a, input, now);
    UpdateStores(w.db, t, e, ev, a, input, now, g);
    EffectKeepsId(e, ev, a, input, now);
    var db' := Commit(w.db, e, t);
    StoresGrows(w.db, db', g);
    StoresKeys(w.db, db', g);
    StoresCredit(w.db, db', g, w.credit);
    StoresWire(w, db', g);
    StoresPast(w, db', g);
    StoresConfirm(w.db, db', g);
    MovesTheSaga(w, e, ev, a, input, now);
    UpdateSagas(w, db', g);
    UpdateHandlers(w, db', g, ev, a, input, now);
    NoticesStay(w.db, db');
    hide Fits, IdsInv;
  }

  lemma NoticesStay(db: Db, db': Db)
    requires NoticeInv(db) && db'.notices == db.notices
    ensures NoticeInv(db')
  {
    hide IsNotice;
  }

  lemma MovesTheSaga(w: World, e: Errand, ev: Event, a: Actor, input: EventInput, now: Time)
    requires e.id in w.db.errands && w.db.errands[e.id] == e && IdsInv(w.db)
    requires Enabled(e, ev, a, input, now) && Backed(View(w, e.id), ev, input)
    ensures var e' := Effect(e, ev, a, input, now);
            Saga.Moves(View(w, e.id), e', EmissionOf(e, e', CreditOrderOf(e, ev, input, now)))
  {
    hide Enabled, Effect, EmissionOf, CreditOrderOf, Backed, Saga.Moves, RowsView, DoneView, PartOf, WellFormed, IsUuid;
    EffectMoves(View(w, e.id), ev, a, input, now);
  }
}
