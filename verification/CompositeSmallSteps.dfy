/** Steps that change no errand and no reservation keep the invariant: the dispatcher's, the fences' and the
    notices'. */
module CompositeSmallSteps {
  import opened Keys
  import opened Errands
  import opened StateMachine
  import opened Wallets
  import opened StoreModel
  import opened Lifecycle
  import opened CreditParts
  import opened Composite
  import opened CompositeInv
  import Saga

  /** The same errands and rows; row statuses, fences and notices may differ. */
  ghost predicate SameRows(db: Db, db': Db) {
    && db'.errands == db.errands && db'.reviews == db.reviews
    && db'.outbox.Keys == db.outbox.Keys
    && (forall k :: k in db.outbox ==> db'.outbox[k].row == db.outbox[k].row)
  }

  lemma SameRowsView(w: World, db': Db, id: string)
    requires SameRows(w.db, db') && id in w.db.errands
    ensures View(w.(db := db'), id) == View(w, id)
  {
    hide KeyOf, PartOf;
    assert RowsView(db'.outbox, id) == RowsView(w.db.outbox, id);
  }

  lemma SameRowsKeys(db: Db, db': Db)
    requires SameRows(db, db') && KeyInv(db)
    ensures KeyInv(db')
  {
    hide KeyOf, Used;
    forall k | k in db'.outbox
      ensures exists id, x: Slot :: OwnedBy(db', k, id, x) && (x.op.Credit() <==> db'.outbox[k].row.kind.Credit())
    {
      var id, x: Slot :| OwnedBy(db, k, id, x) && (x.op.Credit() <==> db.outbox[k].row.kind.Credit());
      assert OwnedBy(db', k, id, x);
    }
  }

  lemma SameRowsCommandKeys(db: Db, db': Db, k: string, id: string, x: Slot)
    requires SameRows(db, db')
    ensures CommandKey(db', k, id, x) == CommandKey(db, k, id, x)
  {
    hide KeyOf;
  }

  lemma SameRowsReplies(db: Db, db': Db, c: Credit, r: Reply)
    requires SameRows(db, db')
    ensures ReplyOk(db', c, r) == ReplyOk(db, c, r)
  {
    hide CommandKey;
    forall x { SameRowsCommandKeys(db, db', r.command, r.order, x); }
  }

  lemma SameRowsCredit(db: Db, db': Db, c: Credit)
    requires SameRows(db, db') && CreditInv(db, c) && ReplyInv(db, c)
    ensures CreditInv(db', c) && ReplyInv(db', c)
  {
    hide CommandKey, ReplyOk;
    forall k, id, x { SameRowsCommandKeys(db, db', k, id, x); }
    forall r { SameRowsReplies(db, db', c, r); }
  }

  lemma SameRowsHandler(db: Db, db': Db, c: Credit, h: Handler)
    requires SameRows(db, db') && HandlerOk(db, c, h)
    ensures HandlerOk(db', c, h)
  {
    hide ReplyOk, Next, Earlier, Spent;
    SameRowsReplies(db, db', c, h.reply);
  }

  lemma SameRowsWire(w: World, db': Db)
    requires SameRows(w.db, db') && WireInv(w)
    ensures WireInv(w.(db := db'))
  {
    hide MessageOf;
    forall k
      ensures CreditRecord(w.(db := db'), k) == CreditRecord(w, k)
    {
    }
  }

  lemma SameRowsKeeps(w: World, db': Db)
    requires WorldInv(w) && SameRows(w.db, db') && NoticeInv(db') && ConfirmInv(db')
    ensures WorldInv(w.(db := db'))
  {
    hide WellFormed, Earlier, HandlerOk, Saga.Inv, View, KeyInv, WireInv, CreditInv, ReplyInv, NoticeInv, ConfirmInv,
         IsUuid;
    SameRowsKeys(w.db, db');
    SameRowsCredit(w.db, db', w.credit);
    SameRowsWire(w, db');
    forall h | HandlerOk(w.db, w.credit, h) { SameRowsHandler(w.db, db', w.credit, h); }
    forall id | id in w.db.errands { SameRowsView(w, db', id); }
  }

  // ---------------------------------------------------------------- the steps

  /** The reserve row of a waiting errand may not be confirmed. */
  ghost predicate MaySettle(db: Db, key: string) {
    forall id :: id in db.errands && db.errands[id].status == PendingReservation ==> key != KeyOf(id, Saga.RESERVE)
  }

  lemma SetRowKeeps(w: World, key: string, from: set<RowStatus>, to: RowStatus)
    requires WorldInv(w) && (to == RowConfirmed ==> MaySettle(w.db, key))
    ensures WorldInv(SetRow(w, key, from, to))
  {
    hide KeyOf, IdsInv, KeyInv, WireInv, CreditInv, ReplyInv, PastInv, SagaInv, HandlerInv;
    if SetRow(w, key, from, to) != w {
      SameRowsKeeps(w, SetRow(w, key, from, to).db);
    }
  }

  lemma SameView(w: World, w': World, id: string)
    requires w'.db == w.db && w'.credit == w.credit && id in w.db.errands
    ensures View(w', id) == View(w, id)
  {
    hide RowsView, DoneView, PartOf;
  }

  lemma SameSagas(w: World, w': World)
    requires SagaInv(w) && w'.db == w.db && w'.credit == w.credit
    ensures SagaInv(w')
  {
    hide View, Saga.Inv;
    forall id | id in w'.db.errands
      ensures Saga.Inv(View(w', id))
    {
      SameView(w, w', id);
    }
  }

  lemma SamePast(w: World, w': World)
    requires PastInv(w) && w'.db == w.db && w'.past == w.past
    ensures PastInv(w')
  {
    hide Earlier, Rank;
  }

  /** Messages and handlers appear in two clauses of the invariant only. */
  lemma MessagesAndHandlers(w: World, w': World)
    requires WorldInv(w) && w' == w.(wire := w'.wire, handlers := w'.handlers) && WireInv(w') && HandlerInv(w')
    ensures WorldInv(w')
  {
    hide IdsInv, CreditInv, ReplyInv, PastInv, HandlerInv, WireInv, ConfirmInv, SagaInv, NoticeInv, KeyInv;
    SameSagas(w, w');
    SamePast(w, w');
  }

  lemma PublishWire(w: World, key: string)
    requires KeyInv(w.db) && WireInv(w)
    ensures WireInv(DoPublish(w, key))
  {
    hide OwnedBy, Saga.ToCommand;
    var w' := DoPublish(w, key);
    forall k
      ensures CreditRecord(w', k) == CreditRecord(w, k)
    {
    }
  }

  lemma PublishKeeps(w: World, key: string)
    requires WorldInv(w)
    ensures WorldInv(DoPublish(w, key))
  {
    hide IdsInv, CreditInv, ReplyInv, PastInv, HandlerOk, WireInv, ConfirmInv, SagaInv, NoticeInv, KeyInv, MessageOf;
    PublishWire(w, key);
    MessagesAndHandlers(w, DoPublish(w, key));
  }

  lemma CrashKeeps(w: World, h: nat)
    requires WorldInv(w)
    ensures WorldInv(w.(handlers := w.handlers - {h}))
  {
    hide IdsInv, CreditInv, ReplyInv, PastInv, HandlerOk, ConfirmInv, SagaInv, NoticeInv, KeyInv, MessageOf;
    var w' := w.(handlers := w.handlers - {h});
    forall k
      ensures CreditRecord(w', k) == CreditRecord(w, k)
    {
    }
    MessagesAndHandlers(w, w');
  }

  lemma FenceKeeps(w: World, fences: map<string, Fence>)
    requires WorldInv(w)
    ensures WorldInv(w.(db := w.db.(fences := fences)))
  {
    hide KeyOf, IdsInv, KeyInv, WireInv, CreditInv, ReplyInv, PastInv, SagaInv, HandlerInv, IsNotice;
    SameRowsKeeps(w, w.db.(fences := fences));
  }

  lemma NoticeKeeps(w: World, key: string)
    requires WorldInv(w) && IsNotice(key)
    ensures WorldInv(AddNotice(w, key))
  {
    hide KeyOf, IdsInv, KeyInv, WireInv, CreditInv, ReplyInv, PastInv, SagaInv, HandlerInv, IsNotice;
    SameRowsKeeps(w, AddNotice(w, key).db);
  }
}
