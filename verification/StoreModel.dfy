/** The errand store as one value, and its transactions as functions on it. `Store` runs them in place. */
module StoreModel {
  import opened Prelude
  import opened Errands

  /** Delivery state of an outbox row. */
  datatype RowStatus = RowPending | RowSent | RowConfirmed | RowFailed

  datatype OutboxRecord = OutboxRecord(row: OutboxRow, errandVersion: nat, at: Time, status: RowStatus)

  datatype TransitionRecord = TransitionRecord(t: Transition, courierId: string)

  /** An open review has no resolution. */
  datatype Review = Review(
    errandId: string, reason: ReviewReason, reporterId: string, note: string, createdAt: Time,
    resolution: Option<Status>, resolverId: string, resolutionReason: string, resolvedAt: Option<Time>)

  datatype FenceState = FenceOpen | FenceCommitted | FenceReleased

  datatype Fence = Fence(supplierId: string, state: FenceState)

  /** `outbox` is keyed by the unique idempotency key; `notices` are the keys of rejection and reminder rows. */
  datatype Db = Db(
    errands: map<string, Errand>,
    createKeys: map<(string, string), string>,
    fences: map<string, Fence>,
    transitions: seq<TransitionRecord>,
    reviews: seq<Review>,
    outbox: map<string, OutboxRecord>,
    notices: set<string>)

  const EMPTY_DB := Db(map[], map[], map[], [], [], map[], {})

  /** A transaction commits a new database or changes nothing. */
  datatype Txn = Committed(db: Db) | Aborted(code: Code)

  // ---------------------------------------------------------------- fences

  /** The supplier has an OPEN or COMMITTED fence. */
  predicate Fenced(fences: map<string, Fence>, supplierId: string) {
    exists op :: op in fences && fences[op].supplierId == supplierId && fences[op].state != FenceReleased
  }

  // ---------------------------------------------------------------- conditions of a write

  /** The UPDATE's WHERE clause. */
  function CompareAndSwap(cur: Errand, t: Transition): (refused: Option<Code>) {
    if cur.status != t.from then Some(ErrandUnavailable)
    else if cur.version != t.expectedVersion || cur.EditKey() != t.expectedPendingEditKey then Some(ErrandChanged)
    else None
  }

  /** The supplier an edit moves `cur` to, at once or as a pending edit. */
  function EditTarget(cur: Errand, t: Transition): (to: Option<string>) {
    if t.event != Edit then None
    else
      var to := if t.changes.details.Some? then t.changes.details.value.supplierId
                else if t.changes.pendingEdit.SetTo? then t.changes.pendingEdit.value.details.supplierId
                else "";
      if to != "" && to != cur.details.supplierId then Some(to) else None
  }

  predicate IsOpenReview(r: Review, id: string) {
    r.errandId == id && r.resolution.None?
  }

  predicate HasOpenReview(reviews: seq<Review>, id: string) {
    exists i :: 0 <= i < |reviews| && IsOpenReview(reviews[i], id)
  }

  /** The unique idempotency key constraint. */
  predicate KeysFree(db: Db, rows: seq<OutboxRow>) {
    && (forall i :: 0 <= i < |rows| ==> rows[i].key !in db.outbox && rows[i].key !in db.notices)
    && (forall i, j :: 0 <= i < j < |rows| ==> rows[i].key != rows[j].key)
  }

  // ---------------------------------------------------------------- writes

  function AddRows(outbox: map<string, OutboxRecord>, rows: seq<OutboxRow>, version: nat, at: Time)
    : (r: map<string, OutboxRecord>)
    decreases |rows|
  {
    if rows == [] then outbox
    else
      var n := |rows| - 1;
      AddRows(outbox, rows[..n], version, at)[rows[n].key := OutboxRecord(rows[n], version, at, RowPending)]
  }

  /** The first open review of the errand, resolved by `t`. */
  function Resolve(reviews: seq<Review>, t: Transition): (r: seq<Review>)
    ensures |r| == |reviews|
  {
    if reviews == [] then []
    else if IsOpenReview(reviews[0], t.errandId) then
      [reviews[0].(resolution := Some(t.to), resolverId := t.actor.id, resolutionReason := t.reason,
                   resolvedAt := Some(t.at))]
      + reviews[1..]
    else [reviews[0]] + Resolve(reviews[1..], t)
  }

  function OpenedReview(after: Errand, t: Transition): (r: Review) {
    Review(t.errandId, after.reviewReason,
           if t.actor.kind != SystemActorType then t.actor.id else "",
           if IsBlank(t.reason) then "" else t.reason,
           t.at, None, "", "", None)
  }

  function WriteReview(reviews: seq<Review>, after: Errand, t: Transition): (r: seq<Review>) {
    if t.to == ReviewRequired then reviews + [OpenedReview(after, t)]
    else if t.from == ReviewRequired then Resolve(reviews, t)
    else reviews
  }

  /** The errand row, its transition record, its review row and its outbox rows, together. */
  function Commit(db: Db, before: Errand, t: Transition): (db': Db) {
    var after := t.ApplyTo(before);
    db.(errands := db.errands[after.id := after],
        transitions :=
          db.transitions + [TransitionRecord(t, if before.courierId != "" then before.courierId else after.courierId)],
        reviews := WriteReview(db.reviews, after, t),
        outbox := AddRows(db.outbox, t.outbox, after.version, t.at))
  }

  /** Idempotent per (requester, create key): a replay changes nothing. */
  function Create(db: Db, e: Errand, t: Transition): (r: Txn) {
    if e.status != NoStatus || t.event != Submit || t.from != NoStatus || t.errandId != e.id
    then Aborted(InvalidArgument)
    else if e.createIdempotencyKey == "" then Aborted(InvalidArgument)
    else
      var key := (e.requesterId, e.createIdempotencyKey);
      if key in db.createKeys then Committed(db)
      else if Fenced(db.fences, e.details.supplierId) then Aborted(SupplierDeletionInProgress)
      else if e.id in db.errands then Aborted(PlainError)
      else if !KeysFree(db, t.outbox) then Aborted(PlainError)
      else Committed(Commit(db, e, t).(createKeys := db.createKeys[key := e.id]))
  }

  /** Writes `t` only if the errand still is what `t` was decided on. */
  function Apply(db: Db, t: Transition): (r: Txn) {
    if t.from == NoStatus then Aborted(InvalidArgument)
    else if t.errandId !in db.errands then Aborted(ErrandNotFound)
    else
      var cur := db.errands[t.errandId];
      var refused := CompareAndSwap(cur, t);
      if refused.Some? then Aborted(refused.value)
      else
        var to := EditTarget(cur, t);
        if to.Some? && Fenced(db.fences, to.value) then Aborted(SupplierDeletionInProgress)
        else if t.from == ReviewRequired && !HasOpenReview(db.reviews, t.errandId) then Aborted(PlainError)
        else if !KeysFree(db, t.outbox) then Aborted(PlainError)
        else Committed(Commit(db, cur, t))
  }

  // ---------------------------------------------------------------- reading the result

  lemma {:induction false} AddRowsGives(outbox: map<string, OutboxRecord>, rows: seq<OutboxRow>, version: nat, at: Time)
    requires forall i, j :: 0 <= i < j < |rows| ==> rows[i].key != rows[j].key
    ensures var r := AddRows(outbox, rows, version, at);
      && (forall k :: k in r <==> k in outbox || exists i :: 0 <= i < |rows| && rows[i].key == k)
      && (forall i :: 0 <= i < |rows| ==>
          rows[i].key in r && r[rows[i].key] == OutboxRecord(rows[i], version, at, RowPending))
      && (forall k :: k in outbox && (forall i :: 0 <= i < |rows| ==> rows[i].key != k) ==> k in r && r[k] == outbox[k])
    decreases |rows|
  {
    if rows != [] {
      var n := |rows| - 1;
      AddRowsGives(outbox, rows[..n], version, at);
      assert rows == rows[..n] + [rows[n]];
      assert forall i :: 0 <= i < n ==> rows[..n][i] == rows[i];
    }
  }
}
