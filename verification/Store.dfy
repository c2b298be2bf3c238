/** The errand store, updated in place. Each method is one transaction of `StoreModel`. */
module Store {
  import opened Prelude
  import opened Errands
  import opened StoreModel
  import opened Due

  /** What Create returns: the stored errand, and whether this call stored it. */
  datatype CreateResult = Stored(e: Errand, created: bool) | CreateFailed(code: Code)

  lemma {:induction false} ResolveAt(reviews: seq<Review>, t: Transition, i: nat)
    requires i < |reviews| && IsOpenReview(reviews[i], t.errandId)
    requires forall j :: 0 <= j < i ==> !IsOpenReview(reviews[j], t.errandId)
    ensures Resolve(reviews, t)
         == reviews[i :=
                    reviews[i].(resolution := Some(t.to), resolverId := t.actor.id, resolutionReason := t.reason,
                                resolvedAt := Some(t.at))]
  {
    if i > 0 {
      ResolveAt(reviews[1..], t, i - 1);
    }
  }

  lemma {:induction false} ResolveNone(reviews: seq<Review>, t: Transition)
    requires !HasOpenReview(reviews, t.errandId)
    ensures Resolve(reviews, t) == reviews
  {
    if reviews != [] {
      assert !IsOpenReview(reviews[0], t.errandId);
      assert forall i :: 0 <= i < |reviews[1..]| ==> reviews[1..][i] == reviews[i + 1];
      ResolveNone(reviews[1..], t);
    }
  }

  /** The keys of a transition's rows. */
  function KeySet(rows: seq<OutboxRow>): (keys: set<string>) {
    set i | 0 <= i < |rows| :: rows[i].key
  }

  // ---------------------------------------------------------------- claims

  /** What a job decides for one claimed errand. */
  datatype Decision = Skip | Fire(t: Transition) | Fails(code: Code)

  /** The decisions of a batch in order; the first failure ends it. */
  function DecideFrom(batch: seq<Errand>, decide: Errand -> Decision,
                      decided: seq<Transition>): (r: Outcome<seq<Transition>>)
    decreases |batch|
  {
    if batch == [] then Ok(decided)
    else
      match decide(batch[0])
      case Fails(code) => Fail(code)
      case Skip => DecideFrom(batch[1..], decide, decided)
      case Fire(t) => DecideFrom(batch[1..], decide, decided + [t])
  }

  /** Checks a batch before anything is written: each transition fits the errand as the earlier ones leave it, and no
      key is stored or used twice. */
  function CheckFrom(db: Db, claimed: map<string, Errand>, staged: set<string>,
                     ts: seq<Transition>): (refused: Option<Code>)
    decreases |ts|
  {
    if ts == [] then None
    else
      var t := ts[0];
      if t.errandId !in claimed then Some(PlainError)
      else if t.from == NoStatus then Some(InvalidArgument)
      else if CompareAndSwap(claimed[t.errandId], t).Some? then CompareAndSwap(claimed[t.errandId], t)
      else if !(KeysFree(db, t.outbox) && KeySet(t.outbox) !! staged) then Some(PlainError)
      else CheckFrom(db, claimed[t.errandId := t.ApplyTo(claimed[t.errandId])], staged + KeySet(t.outbox), ts[1..])
  }

  function CommitAll(db: Db, ts: seq<Transition>): (db': Db)
    decreases |ts|
  {
    if ts == [] then db
    else if ts[0].errandId in db.errands then CommitAll(Commit(db, db.errands[ts[0].errandId], ts[0]), ts[1..])
    else CommitAll(db, ts[1..])
  }

  /** The transition resolves its errand's open review. */
  predicate Resolves(t: Transition) {
    t.from == ReviewRequired && t.to != ReviewRequired
  }

  /** Every transition that resolves a review finds one open. */
  predicate ReviewsOpen(db: Db, ts: seq<Transition>)
    decreases |ts|
  {
    if ts == [] then true
    else if ts[0].errandId !in db.errands then ReviewsOpen(db, ts[1..])
    else
      && (Resolves(ts[0]) ==> HasOpenReview(db.reviews, ts[0].errandId))
      && ReviewsOpen(Commit(db, db.errands[ts[0].errandId], ts[0]), ts[1..])
  }

  function ById(batch: seq<Errand>): (claimed: map<string, Errand>)
    decreases |batch|
  {
    if batch == [] then map[] else ById(batch[..|batch| - 1])[batch[|batch| - 1].id := batch[|batch| - 1]]
  }

  /** One claim: every decision of the batch is written, or none. */
  function Claim(db: Db, batch: seq<Errand>, decide: Errand -> Decision): (r: Outcome<(Db, nat)>) {
    var decided := DecideFrom(batch, decide, []);
    if decided.Fail? then Fail(decided.code)
    else
      var refused := CheckFrom(db, ById(batch), {}, decided.value);
      if refused.Some? then Fail(refused.value)
      else if !ReviewsOpen(db, decided.value) then Fail(PlainError)
      else Ok((CommitAll(db, decided.value), |decided.value|))
  }

  /** The batch a claim selects: the oldest due errands no other batch holds. */
  ghost predicate Selected(db: Db, k: DueKind, now: Time, limit: int, locked: set<string>, batch: seq<Errand>) {
    exists due :: && Lists(db.errands, k, now, db.errands.Keys - locked, due)
                  && batch == if |due| > limit >= 0 then due[..limit] else due
  }

  class ErrandStore {
    var errands: map<string, Errand>
    var createKeys: map<(string, string), string>
    var fences: map<string, Fence>
    var transitions: seq<TransitionRecord>
    var reviews: seq<Review>
    var outbox: map<string, OutboxRecord>
    var notices: set<string>

    ghost function State(): (db: Db)
      reads this
    {
      Db(errands, createKeys, fences, transitions, reviews, outbox, notices)
    }

    constructor ()
      ensures State() == EMPTY_DB
    {
      errands, createKeys, fences, transitions, reviews, outbox, notices := map[], map[], map[], [], [], map[], {};
    }

    /** The index of the errand's open review, or -1. */
    method OpenReview(id: string) returns (i: int)
      ensures -1 <= i < |reviews|
      ensures i >= 0 ==> IsOpenReview(reviews[i], id) && forall j :: 0 <= j < i ==> !IsOpenReview(reviews[j], id)
      ensures i < 0 <==> !HasOpenReview(reviews, id)
    {
      i := 0;
      while i < |reviews|
        invariant 0 <= i <= |reviews|
        invariant forall j :: 0 <= j < i ==> !IsOpenReview(reviews[j], id)
      {
        if reviews[i].errandId == id && reviews[i].resolution.None? {
          return;
        }
        i := i + 1;
      }
      i := -1;
    }

    /** No row's key is stored, staged or repeated. Checked rows are staged. */
    method CheckOutboxKeys(rows: seq<OutboxRow>, pending: set<string>) returns (ok: bool, staged: set<string>)
      ensures ok <==> KeysFree(State(), rows) && KeySet(rows) !! pending
      ensures ok ==> staged == pending + KeySet(rows)
    {
      staged := pending;
      ok := true;
      var i := 0;
      while i < |rows| && ok
        invariant 0 <= i <= |rows|
        invariant ok ==>
          KeysFree(State(), rows[..i]) && KeySet(rows[..i]) !! pending && staged == pending + KeySet(rows[..i])
        invariant !ok ==> !(KeysFree(State(), rows) && KeySet(rows) !! pending)
      {
        var key := rows[i].key;
        if key in outbox || key in notices || key in staged {
          if key in staged && key !in pending {
            var j :| 0 <= j < i && rows[..i][j].key == key;
            assert rows[j].key == rows[i].key;
          }
          assert key in KeySet(rows);
          ok := false;
        } else {
          assert rows[..i + 1] == rows[..i] + [rows[i]];
          assert KeySet(rows[..i + 1]) == KeySet(rows[..i]) + {key};
          staged := staged + {key};
        }
        i := i + 1;
      }
      assert ok ==> rows[..i] == rows;
    }

    method WriteReview(after: Errand, t: Transition)
      modifies this`reviews
      ensures reviews == StoreModel.WriteReview(old(reviews), after, t)
    {
      if t.to == ReviewRequired {
        var r := Review(t.errandId, after.reviewReason, "", "", t.at, None, "", "", None);
        if t.actor.kind != SystemActorType {
          r := r.(reporterId := t.actor.id);
        }
        if !IsBlank(t.reason) {
          r := r.(note := t.reason);
        }
        reviews := reviews + [r];
      } else if t.from == ReviewRequired {
        var i := OpenReview(t.errandId);
        if i >= 0 {
          ResolveAt(reviews, t, i);
          reviews :=
            reviews[i := reviews[i].(resolution := Some(t.to), resolverId := t.actor.id, resolutionReason := t.reason,
                                              resolvedAt := Some(t.at))];
        } else {
          ResolveNone(reviews, t);
        }
      }
    }

    /** One accepted transition in all four tables, unconditionally: the callers have checked it. */
    method Commit(before: Errand, t: Transition) returns (after: Errand)
      modifies this
      ensures State() == StoreModel.Commit(old(State()), before, t) && after == t.ApplyTo(before)
    {
      after := t.ApplyTo(before);
      errands := errands[after.id := after];
      var courier := if before.courierId != "" then before.courierId else after.courierId;
      transitions := transitions + [TransitionRecord(t, courier)];
      this.WriteReview(after, t);
      var i := 0;
      while i < |t.outbox|
        invariant 0 <= i <= |t.outbox|
        invariant outbox == AddRows(old(outbox), t.outbox[..i], after.version, t.at)
        invariant errands == old(errands)[after.id := after] && createKeys == old(createKeys) && fences == old(fences)
        invariant transitions == old(transitions) + [TransitionRecord(t, courier)] && notices == old(notices)
        invariant reviews == StoreModel.WriteReview(old(reviews), after, t)
      {
        var row := t.outbox[i];
        outbox := outbox[row.key := OutboxRecord(row, after.version, t.at, RowPending)];
        assert t.outbox[..i + 1][..i] == t.outbox[..i];
        i := i + 1;
      }
      assert t.outbox[..i] == t.outbox;
    }

    predicate SupplierFenced(supplierId: string)
      reads this`fences
    {
      Fenced(fences, supplierId)
    }

    method Create(e: Errand, t: Transition) returns (r: CreateResult)
      requires forall k :: k in createKeys ==> createKeys[k] in errands
      modifies this
      ensures var spec := StoreModel.Create(old(State()), e, t);
        && State() == (if spec.Committed? then spec.db else old(State()))
        && (r.CreateFailed? <==> spec.Aborted?) && (r.CreateFailed? ==> r.code == spec.code)
      ensures r.Stored? ==>
        var key := (e.requesterId, e.createIdempotencyKey);
        && key in createKeys && createKeys[key] in errands && r.e == errands[createKeys[key]]
        && (r.created <==> key !in old(createKeys))
      ensures forall k :: k in createKeys ==> createKeys[k] in errands
    {
      if e.status != NoStatus || t.event != Submit || t.from != NoStatus || t.errandId != e.id {
        return CreateFailed(InvalidArgument);
      }
      if e.createIdempotencyKey == "" {
        return CreateFailed(InvalidArgument);
      }
      var key := (e.requesterId, e.createIdempotencyKey);
      if key in createKeys {
        return Stored(errands[createKeys[key]], false);
      }
      if SupplierFenced(e.details.supplierId) {
        return CreateFailed(SupplierDeletionInProgress);
      }
      if e.id in errands {
        return CreateFailed(PlainError);
      }
      var ok, _ := CheckOutboxKeys(t.outbox, {});
      if !ok {
        return CreateFailed(PlainError);
      }
      var stored := this.Commit(e, t);
      createKeys := createKeys[key := e.id];
      r := Stored(stored, true);
    }

    /** Takes the transition only if the errand is still what it was decided on. */
    method Apply(t: Transition) returns (r: Outcome<Errand>)
      modifies this
      ensures var spec := StoreModel.Apply(old(State()), t);
        && State() == (if spec.Committed? then spec.db else old(State()))
        && if spec.Committed? then t.errandId in old(errands) && r == Ok(t.ApplyTo(old(errands)[t.errandId]))
           else r == Fail(spec.code)
    {
      if t.from == NoStatus {
        return Fail(InvalidArgument);
      }
      if t.errandId !in errands {
        return Fail(ErrandNotFound);
      }
      var cur := errands[t.errandId];
      var refused := CompareAndSwap(cur, t);
      if refused.Some? {
        return Fail(refused.value);
      }
      var to := EditTarget(cur, t);
      if to.Some? && SupplierFenced(to.value) {
        return Fail(SupplierDeletionInProgress);
      }
      if t.from == ReviewRequired {
        var i := OpenReview(t.errandId);
        if i < 0 {
          return Fail(PlainError);
        }
      }
      var ok, _ := CheckOutboxKeys(t.outbox, {});
      if !ok {
        return Fail(PlainError);
      }
      var stored := this.Commit(cur, t);
      r := Ok(stored);
    }

    /** Claims up to `limit` due errands, oldest first, skipping those other batches have locked, and writes what
        `decide` decides for them. A failure writes nothing. */
    method ClaimDue(k: DueKind, now: Time, limit: int, locked: set<string>, decide: Errand -> Decision)
      returns (batch: seq<Errand>, r: Outcome<nat>)
      requires forall id :: id in errands ==> errands[id].id == id
      modifies this
      ensures limit < 1 ==> r == Fail(InvalidArgument) && batch == [] && State() == old(State())
      ensures limit >= 1 ==>
        && Selected(old(State()), k, now, limit, locked, batch)
        && var spec := Claim(old(State()), batch, decide);
        && if spec.Ok? then State() == spec.value.0 && r == Ok(spec.value.1)
           else State() == old(State()) && r == Fail(spec.code)
    {
      if limit < 1 {
        return [], Fail(InvalidArgument);
      }
      batch := SelectDue(errands, k, now, locked);
      if |batch| > limit {
        batch := batch[..limit];
      }
      assert Selected(State(), k, now, limit, locked, batch);
      var claimed := Index(batch);
      var decided, failed := DecideBatch(batch, decide);
      if failed.Some? {
        return batch, Fail(failed.value);
      }
      var refused := CheckBatch(claimed, decided);
      if refused.Some? {
        return batch, Fail(refused.value);
      }
      var ok := WriteBatch(decided);
      r := if ok then Ok(|decided|) else Fail(PlainError);
    }

    /** Writes a checked batch; a review that is missing rolls everything back. */
    method WriteBatch(decided: seq<Transition>) returns (ok: bool)
      modifies this
      ensures ok <==> ReviewsOpen(old(State()), decided)
      ensures State() == if ok then CommitAll(old(State()), decided) else old(State())
    {
      hide StoreModel.Commit, HasOpenReview;
      var errands0, createKeys0, fences0, transitions0 := errands, createKeys, fences, transitions;
      var reviews0, outbox0, notices0 := reviews, outbox, notices;
      var i := 0;
      while i < |decided|
        invariant 0 <= i <= |decided|
        invariant CommitAll(old(State()), decided) == CommitAll(State(), decided[i..])
        invariant ReviewsOpen(old(State()), decided) <==> ReviewsOpen(State(), decided[i..])
      {
        assert decided[i..][0] == decided[i] && decided[i..][1..] == decided[i + 1..];
        var t := decided[i];
        if t.errandId in errands {
          var found := OpenReview(t.errandId);
          if Resolves(t) && found < 0 {
            errands, createKeys, fences, transitions := errands0, createKeys0, fences0, transitions0;
            reviews, outbox, notices := reviews0, outbox0, notices0;
            return false;
          }
          var _ := this.Commit(errands[t.errandId], t);
        }
        i := i + 1;
      }
      ok := true;
    }

    method Index(batch: seq<Errand>) returns (claimed: map<string, Errand>)
      ensures claimed == ById(batch)
    {
      claimed := map[];
      var i := 0;
      while i < |batch|
        invariant 0 <= i <= |batch| && claimed == ById(batch[..i])
      {
        claimed := claimed[batch[i].id := batch[i]];
        assert batch[..i + 1][..i] == batch[..i];
        i := i + 1;
      }
      assert batch[..i] == batch;
    }

    method DecideBatch(batch: seq<Errand>, decide: Errand -> Decision)
      returns (decided: seq<Transition>, failed: Option<Code>)
      ensures DecideFrom(batch, decide, []) == if failed.Some? then Fail(failed.value) else Ok(decided)
    {
      decided, failed := [], None;
      var i := 0;
      while i < |batch|
        invariant 0 <= i <= |batch|
        invariant DecideFrom(batch, decide, []) == DecideFrom(batch[i..], decide, decided) && failed.None?
      {
        assert batch[i..][1..] == batch[i + 1..];
        match decide(batch[i]) {
          case Fails(code) => return decided, Some(code);
          case Fire(t) => decided := decided + [t];
          case Skip =>
        }
        i := i + 1;
      }
    }

    method CheckBatch(claimed0: map<string, Errand>, ts: seq<Transition>) returns (refused: Option<Code>)
      ensures refused == CheckFrom(State(), claimed0, {}, ts)
    {
      var claimed, staged := claimed0, {};
      var i := 0;
      while i < |ts|
        invariant 0 <= i <= |ts|
        invariant CheckFrom(State(), claimed0, {}, ts) == CheckFrom(State(), claimed, staged, ts[i..])
      {
        assert ts[i..][1..] == ts[i + 1..];
        var t := ts[i];
        if t.errandId !in claimed {
          return Some(PlainError);
        }
        if t.from == NoStatus {
          return Some(InvalidArgument);
        }
        refused := CompareAndSwap(claimed[t.errandId], t);
        if refused.Some? {
          return;
        }
        var ok, staged' := CheckOutboxKeys(t.outbox, staged);
        if !ok {
          return Some(PlainError);
        }
        claimed, staged := claimed[t.errandId := t.ApplyTo(claimed[t.errandId])], staged';
        i := i + 1;
      }
      refused := None;
    }
  }
}
