/** What holds in every reachable world, and how a world projects onto one errand's saga. */
module CompositeInv {
  import opened Prelude
  import opened Keys
  import opened Errands
  import opened StateMachine
  import opened Wallets
  import opened StoreModel
  import opened Lifecycle
  import opened CreditParts
  import opened Composite
  import Saga

  // ---------------------------------------------------------------- projection

  ghost function RowsView(outbox: map<string, OutboxRecord>, id: string): (rows: imap<Slot, OutboxRow>) {
    imap x: Slot | x.op.Credit() && KeyOf(id, x) in outbox :: outbox[KeyOf(id, x)].row
  }

  ghost function DoneView(processed: map<string, Result>, id: string): (done: imap<Slot, Result>) {
    imap x: Slot | x.op.Credit() && KeyOf(id, x) in processed :: processed[KeyOf(id, x)]
  }

  /** One errand's saga in a world. */
  ghost function View(w: World, id: string): (s: Saga.State)
    requires id in w.db.errands
  {
    var p := PartOf(w.credit, id);
    Saga.State(w.db.errands[id], RowsView(w.db.outbox, id), DoneView(w.credit.processed, id), p.res, p.tomb, p.entries)
  }

  // ---------------------------------------------------------------- invariant

  ghost predicate IdsInv(db: Db) {
    forall id :: id in db.errands ==> db.errands[id].id == id && IsUuid(id) && WellFormed(db.errands[id])
  }

  /** A row for this slot may already exist for the errand. */
  ghost predicate Used(e: Errand, x: Slot) {
    match x.op
    case Reserve => x.version == 0
    case Release => x.version == 0 && Saga.Refunding(e.status)
    case Transfer => x.version == 0 && e.status == Completed
    case Adjust => 1 <= x.version <= e.version && (x.version == e.version ==> e.pendingEdit.Some?)
    case AdjustRevert => 1 <= x.version <= e.version
    case Emit(n) =>
      1 <= x.version <= e.version && (n == EditRequested && x.version == e.version ==> e.pendingEdit.Some?)
    case _ => false
  }

  ghost predicate OwnedBy(db: Db, key: string, id: string, x: Slot) {
    id in db.errands && key == KeyOf(id, x) && Used(db.errands[id], x)
  }

  ghost predicate KeyInv(db: Db) {
    forall k :: k in db.outbox ==>
      && db.outbox[k].row.key == k
      && exists id, x: Slot :: OwnedBy(db, k, id, x) && (x.op.Credit() <==> db.outbox[k].row.kind.Credit())
  }

  ghost predicate IsNotice(k: string) {
    || (exists id, a, q :: IsUuid(id) && k == RejectionKey(id, a, q))
    || (exists id, x: Slot :: IsUuid(id) && (x.op == VerifyReminder || x.op == PickupReminder) && k == KeyOf(id, x))
  }

  ghost predicate NoticeInv(db: Db) {
    forall k :: k in db.notices ==> IsNotice(k)
  }

  /** The key of a credit command some stored errand has emitted. */
  ghost predicate CommandKey(db: Db, k: string, id: string, x: Slot) {
    id in db.errands && x.op.Credit() && k == KeyOf(id, x) && k in db.outbox
  }

  ghost predicate WireInv(w: World) {
    forall m :: m in w.wire ==> CreditRecord(w, m.id) && m == MessageOf(w.db.outbox[m.id].row)
  }

  /** credit-service knows only orders of stored errands and messages they sent. */
  ghost predicate CreditInv(db: Db, c: Credit) {
    && (forall k :: k in c.processed ==> exists id, x: Slot :: CommandKey(db, k, id, x))
    && (forall o :: o in c.reservations ==> o in db.errands)
    && (forall o :: o in c.tombstones ==> o in db.errands)
    && (forall i :: 0 <= i < |c.ledger| ==> c.ledger[i].order == "" || c.ledger[i].order in db.errands)
  }

  /** A recorded reply names a command of its errand, and carries the remembered result unless it is a failure. */
  ghost predicate ReplyOk(db: Db, c: Credit, r: Reply) {
    && (exists x: Slot :: CommandKey(db, r.command, r.order, x))
    && (r.result.OperationFailedResult? || (r.command in c.processed && c.processed[r.command] == r.result))
  }

  ghost predicate ReplyInv(db: Db, c: Credit) {
    forall r :: r in c.outbox ==> ReplyOk(db, c, r)
  }

  /** `s` was stored before `cur`, or is `cur`. */
  ghost predicate Earlier(s: Errand, cur: Errand) {
    s.id == cur.id && WellFormed(s) && (Rank(s) < Rank(cur) || s == cur)
  }

  ghost predicate PastInv(w: World) {
    && (forall s :: s in w.past ==> s.id in w.db.errands && Earlier(s, w.db.errands[s.id]))
    && (forall id :: id in w.db.errands ==> w.db.errands[id] in w.past)
    && (forall s, r :: s in w.past && r in w.past && s.id == r.id && Rank(s) == Rank(r) ==> s == r)
  }

  ghost predicate SagaInv(w: World) {
    forall id :: id in w.db.errands ==> Saga.Inv(View(w, id))
  }

  /** The errand has moved past everything the reply could still do to it. */
  ghost predicate Spent(e: Errand, r: Reply) {
    && (r.result.ReservedResult? || r.result.ReservationRefusedResult? ==> e.status != PendingReservation)
    && (r.result.AdjustedResult? || r.result.AdjustRefusedResult? ==>
        e.pendingEdit.None? || e.pendingEdit.value.key != r.command)
  }

  ghost predicate HandlerOk(db: Db, c: Credit, h: Handler) {
    && ReplyOk(db, c, h.reply) && h.reply.order in db.errands
    && var e := db.errands[h.reply.order];
    && h.conflicts <= 1
    && (h.conflicts == 1 ==> Spent(e, h.reply))
    && match h.stage
       case Reading => ResultEvent(h.reply).Some?
       case Applying(t, seen) =>
         && h.conflicts == 0 && ResultEvent(h.reply).Some? && Earlier(seen, e)
         && var (ev, input) := ResultEvent(h.reply).value;
         && Next(seen, ev, SYSTEM, input, t.at) == Ok(t) && (Rank(seen) < Rank(e) ==> Spent(e, h.reply))
         && (input.editKey != "" ==> seen.pendingEdit.Some? && seen.pendingEdit.value.key == input.editKey)
       case Confirming => !h.reply.result.OperationFailedResult? && Spent(e, h.reply)
       case Failing => h.reply.result.OperationFailedResult?
       case Finished(d) => d == Ack && (!h.reply.result.OperationFailedResult? ==> Spent(e, h.reply))
  }

  ghost predicate HandlerInv(w: World) {
    forall h :: h in w.handlers ==> HandlerOk(w.db, w.credit, w.handlers[h])
  }

  /** A confirmed reserve row never waits for its reservation. */
  ghost predicate ConfirmInv(db: Db) {
    forall id ::
      id in db.errands && db.errands[id].status == PendingReservation && KeyOf(id, Saga.RESERVE) in db.outbox ==>
        db.outbox[KeyOf(id, Saga.RESERVE)].status != RowConfirmed
  }

  ghost predicate WorldInv(w: World) {
    && IdsInv(w.db) && KeyInv(w.db) && NoticeInv(w.db) && WireInv(w) && CreditInv(w.db, w.credit)
    && ReplyInv(w.db, w.credit) && PastInv(w) && SagaInv(w) && HandlerInv(w) && ConfirmInv(w.db)
  }
}
