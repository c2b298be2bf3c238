/** Acquiring, committing and releasing supplier fences. Each call is one transaction and leaves one audit row. */
module FenceService {
  import opened Prelude
  import opened Keys
  import opened Errands
  import opened StoreModel
  import opened FenceTheorems
  import opened Store

  /** What a caller sees of a fence. */
  datatype FenceView = FenceView(op: string, supplierId: string, state: FenceState, hasActiveErrands: bool)

  datatype AuditAction = AcquireAction | CommitAction | ReleaseAction

  datatype Audit = Audit(actor: string, action: AuditAction, op: string, rejected: Option<Code>)

  function ActionOf(state: FenceState): (a: AuditAction) {
    if state == FenceReleased then ReleaseAction else CommitAction
  }

  /** Active, and on this supplier or moving to it. */
  predicate Counts(e: Errand, supplier: string) {
    && e.status.Active()
    && (e.details.supplierId == supplier || (e.pendingEdit.Some? && e.pendingEdit.value.details.supplierId == supplier))
  }

  class Service {
    const store: ErrandStore
    var audits: seq<Audit>

    constructor (store: ErrandStore)
      ensures this.store == store && audits == []
    {
      this.store, audits := store, [];
    }

    /** Counts the supplier's active errands. */
    method HasActiveErrands(supplier: string) returns (active: bool)
      ensures active <==> !NoActiveErrands(store.State(), supplier)
    {
      active := false;
      var rest := store.errands.Keys;
      while rest != {} && !active
        invariant rest <= store.errands.Keys
        invariant !active ==> forall id :: id in store.errands && id !in rest ==> Avoids(store.errands[id], supplier)
        invariant active ==> !NoActiveErrands(store.State(), supplier)
        decreases |rest|
      {
        var id :| id in rest;
        if Counts(store.errands[id], supplier) {
          active := true;
        }
        rest := rest - {id};
      }
    }

    /** Creates the fence open if the operation has none. A replay never reopens it. */
    method Acquire(actor: string, op: string, supplierId: string) returns (r: Outcome<FenceView>)
      modifies this, store
      ensures r.Ok? <==>
        IsUuid(op) && IsUuid(supplierId) && (op in old(store.fences) ==> old(store.fences)[op].supplierId == supplierId)
      ensures r.Fail? ==> r.code == InvalidArgument && store.State() == old(store.State())
      ensures r.Ok? ==>
        && store.State() == old(store.State()).(fences := store.fences)
        && store.fences
           == (if op in old(store.fences) then old(store.fences)
               else old(store.fences)[op := Fence(supplierId, FenceOpen)])
        && r.value == FenceView(op, supplierId, store.fences[op].state, !NoActiveErrands(store.State(), supplierId))
      // An answer without active errands from a fence that is not released guards the supplier from then on.
      ensures r.Ok? && !r.value.hasActiveErrands && r.value.state != FenceReleased ==>
        Guards(store.State(), op, supplierId) && NoActiveErrands(store.State(), supplierId)
      ensures audits == old(audits) + [Audit(actor, AcquireAction, op, if r.Ok? then None else Some(r.code))]
    {
      if !IsUuid(op) || !IsUuid(supplierId) {
        audits := audits + [Audit(actor, AcquireAction, op, Some(InvalidArgument))];
        return Fail(InvalidArgument);
      }
      if op !in store.fences {
        store.fences := store.fences[op := Fence(supplierId, FenceOpen)];
      }
      var stored := store.fences[op];
      if stored.supplierId != supplierId {
        audits := audits + [Audit(actor, AcquireAction, op, Some(InvalidArgument))];
        return Fail(InvalidArgument);
      }
      var active := HasActiveErrands(stored.supplierId);
      audits := audits + [Audit(actor, AcquireAction, op, None)];
      r := Ok(FenceView(op, supplierId, stored.state, active));
    }

    /** Commits or releases an open fence. Repeating it changes nothing; undoing it is refused. */
    method Close(actor: string, op: string, state: FenceState) returns (r: Outcome<FenceView>)
      requires state != FenceOpen
      modifies this, store
      ensures r.Ok? <==> IsUuid(op) && op in old(store.fences) && old(store.fences)[op].state in {FenceOpen, state}
      ensures r.Fail? ==> store.State() == old(store.State())
      ensures r.Fail? ==>
        r.code == if !IsUuid(op) then InvalidArgument else if op !in old(store.fences) then FenceNotFound
          else InvalidTransition
      ensures r.Ok? ==>
        && store.State()
           == old(store.State()).(fences := old(store.fences)[op := old(store.fences)[op].(state := state)])
        && r.value
           == FenceView(op, store.fences[op].supplierId, state,
                        !NoActiveErrands(store.State(), store.fences[op].supplierId))
      ensures audits == old(audits) + [Audit(actor, ActionOf(state), op, if r.Ok? then None else Some(r.code))]
    {
      if !IsUuid(op) {
        audits := audits + [Audit(actor, ActionOf(state), op, Some(InvalidArgument))];
        return Fail(InvalidArgument);
      }
      if op !in store.fences {
        audits := audits + [Audit(actor, ActionOf(state), op, Some(FenceNotFound))];
        return Fail(FenceNotFound);
      }
      if store.fences[op].state == FenceOpen {
        store.fences := store.fences[op := store.fences[op].(state := state)];
      } else if store.fences[op].state != state {
        audits := audits + [Audit(actor, ActionOf(state), op, Some(InvalidTransition))];
        return Fail(InvalidTransition);
      }
      assert store.fences[op := store.fences[op]] == store.fences;
      var active := HasActiveErrands(store.fences[op].supplierId);
      audits := audits + [Audit(actor, ActionOf(state), op, None)];
      r := Ok(FenceView(op, store.fences[op].supplierId, state, active));
    }
  }
}
