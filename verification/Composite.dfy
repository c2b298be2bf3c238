/** The whole protocol: order-service's store, the broker, credit-service's database and the handlers that apply credit
    results. The broker may lose, duplicate and reorder: a message or a reply, once on the wire, may be delivered any
    number of times at any moment, or never. A run is any sequence of steps; a step that is not possible does
    nothing. */
module Composite {
  import opened Prelude
  import opened Keys
  import opened Errands
  import opened StateMachine
  import opened Wallets
  import opened StoreModel
  import opened Lifecycle
  import Saga

  /** A published credit command. */
  datatype Message = Message(id: string, cmd: Command)

  datatype Disposition = Ack | Requeue | Reject

  /** Where a handler is: it reads the errand, applies its transition, settles the command's row, and is finished. */
  datatype Stage =
    | Reading
    | Applying(t: Transition, seen: Errand)
    | Confirming
    | Failing
    | Finished(d: Disposition)

  datatype Handler = Handler(reply: Reply, conflicts: nat, stage: Stage)

  const MAX_CONFLICTS := 3

  /** `past` holds every errand row ever stored: any of them may be what a client last read. */
  datatype World = World(
    db: Db,
    credit: Credit,
    wire: set<Message>,
    past: set<Errand>,
    handlers: map<nat, Handler>)

  datatype Step =
    // users, the scheduler and the reconciler
    | OpenWallet(owner: string, subject: string)
    | SubmitErrand(e: Errand, now: Time)
    | Decide(seen: Errand, ev: Event, actor: Actor, input: EventInput, now: Time)
    // the outbox dispatcher and its administrators
    | Publish(key: string)
    | MarkSent(key: string)
    | Resend(key: string)
    | GiveUp(key: string)
    | RequeueRow(key: string)
    // credit-service handles one delivery
    | DeliverCommand(m: Message)
    // the credit-result handlers
    | Receive(h: nat, reply: Reply)
    | ReadErrand(h: nat, now: Time)
    | WriteErrand(h: nat)
    | SettleRow(h: nat)
    | Crash(h: nat)
    // supplier fences
    | AcquireFence(op: string, supplierId: string)
    | CloseFence(op: string, state: FenceState)
    // rejection and reminder rows
    | Reject(id: string, action: RejectedAction, requestId: string)
    | Remind(id: string, reminder: Op)

  function Init(initialCredit: nat): (w: World) {
    World(EMPTY_DB, Credit(initialCredit, map[], map[], [], {}, map[], {}), {}, {}, map[])
  }

  // ---------------------------------------------------------------- order-service

  /** Events only a credit result may cause. */
  predicate FromResult(ev: Event, input: EventInput) {
    ev == ReservationConfirmed || ev == ReservationRefused || ev == EditConfirmed
      || (ev == EditRefused && !input.editTimedOut)
  }

  function WithDb(w: World, r: Txn, id: string): (w': World) {
    if r.Committed? && id in r.db.errands then w.(db := r.db, past := w.past + {r.db.errands[id]}) else w
  }

  ghost function DoSubmit(w: World, e: Errand, now: Time): (w': World) {
    var t := Next(e, Submit, Actor(RequesterActor, e.requesterId), NO_INPUT, now);
    if Fresh(e) && t.Ok? then WithDb(w, Create(w.db, e, t.value), e.id) else w
  }

  /** A client decides on any row it once read, and the store takes the transition or refuses it. */
  ghost function DoDecide(w: World, seen: Errand, ev: Event, actor: Actor, input: EventInput, now: Time): (w': World) {
    var t := Next(seen, ev, actor, input, now);
    if seen in w.past && !FromResult(ev, input) && t.Ok? then WithDb(w, Apply(w.db, t.value), seen.id) else w
  }

  // ---------------------------------------------------------------- outbox

  predicate CreditRecord(w: World, key: string) {
    key in w.db.outbox && w.db.outbox[key].row.kind.Credit() && w.db.outbox[key].row.payload.CommandPayload?
  }

  function MessageOf(row: OutboxRow): (m: Message)
    requires row.kind.Credit() && row.payload.CommandPayload?
  {
    Message(row.key, Saga.ToCommand(row))
  }

  function SetRow(w: World, key: string, from: set<RowStatus>, to: RowStatus): (w': World) {
    if CreditRecord(w, key) && w.db.outbox[key].status in from
    then w.(db := w.db.(outbox := w.db.outbox[key := w.db.outbox[key].(status := to)]))
    else w
  }

  function DoPublish(w: World, key: string): (w': World) {
    if CreditRecord(w, key) && w.db.outbox[key].status == RowPending
    then w.(wire := w.wire + {MessageOf(w.db.outbox[key].row)})
    else w
  }

  function DoMarkSent(w: World, key: string): (w': World) {
    if CreditRecord(w, key) && MessageOf(w.db.outbox[key].row) in w.wire
    then SetRow(w, key, {RowPending}, RowSent)
    else w
  }

  // ---------------------------------------------------------------- credit results

  /** The event a result reports; None for the results that only settle a row. */
  function ResultEvent(r: Reply): (ev: Option<(Event, EventInput)>) {
    match r.result
    case ReservedResult(_) => Some((ReservationConfirmed, NO_INPUT))
    case ReservationRefusedResult(code) => Some((ReservationRefused, NO_INPUT.(reason := CodeText(code))))
    case AdjustedResult(_, _) => Some((EditConfirmed, NO_INPUT.(editKey := r.command)))
    case AdjustRefusedResult(code, _) => Some((EditRefused, NO_INPUT.(editKey := r.command, reason := CodeText(code))))
    case _ => None
  }

  function CodeText(c: ResultCode): (s: string) {
    match c
    case InsufficientCredits => "INSUFFICIENT_CREDITS"
    case AccountNotFound => "ACCOUNT_NOT_FOUND"
    case ReservationReleased => "RESERVATION_RELEASED"
    case ReservationNotActive => "RESERVATION_NOT_ACTIVE"
    case ReservationAlreadyTransferred => "RESERVATION_ALREADY_TRANSFERRED"
    case ReservationAlreadyReleased => "RESERVATION_ALREADY_RELEASED"
    case ReservationNotFound => "RESERVATION_NOT_FOUND"
  }

  predicate Resolved(code: Code) {
    code == ErrandUnavailable || code == ErrandChanged
  }

  function FirstStage(r: Reply): (s: Stage) {
    if ResultEvent(r).Some? then Reading
    else if r.result.OperationFailedResult? then Failing
    else Confirming
  }

  function DoReceive(w: World, h: nat, r: Reply): (w': World) {
    if r in w.credit.outbox && h !in w.handlers
    then w.(handlers := w.handlers[h := Handler(r, 0, FirstStage(r))])
    else w
  }

  function SetStage(w: World, h: nat, s: Stage): (w': World)
    requires h in w.handlers
  {
    w.(handlers := w.handlers[h := w.handlers[h].(stage := s)])
  }

  /** What a handler does next after reading the errand. */
  function StageAfterRead(e: Errand, ev: Event, input: EventInput, now: Time): (s: Stage) {
    if input.editKey != "" && (e.pendingEdit.None? || e.pendingEdit.value.key != input.editKey) then Confirming
    else
      var t := Next(e, ev, SYSTEM, input, now);
      if t.Ok? then Applying(t.value, e)
      else if Resolved(t.code) then Confirming
      else Finished(Disposition.Reject)
  }

  function DoRead(w: World, h: nat, now: Time): (w': World) {
    if h !in w.handlers || w.handlers[h].stage != Reading || ResultEvent(w.handlers[h].reply).None? then w
    else
      var (ev, input) := ResultEvent(w.handlers[h].reply).value;
      var id := w.handlers[h].reply.order;
      if id !in w.db.errands then SetStage(w, h, Finished(Disposition.Reject))
      else SetStage(w, h, StageAfterRead(w.db.errands[id], ev, input, now))
  }

  /** A lost compare-and-swap is decided again on fresh state, a bounded number of times. */
  function AfterRefusedWrite(h: Handler, code: Code): (h': Handler) {
    if Resolved(code) && h.conflicts + 1 < MAX_CONFLICTS then h.(conflicts := h.conflicts + 1, stage := Reading)
    else if Resolved(code) then h.(stage := Confirming)
    else if code == PlainError then h.(stage := Finished(Requeue))
    else h.(stage := Finished(Disposition.Reject))
  }

  function DoWrite(w: World, h: nat): (w': World) {
    if h !in w.handlers || !w.handlers[h].stage.Applying? then w
    else
      var t := w.handlers[h].stage.t;
      var r := Apply(w.db, t);
      if r.Committed? then WithDb(SetStage(w, h, Confirming), r, t.errandId)
      else w.(handlers := w.handlers[h := AfterRefusedWrite(w.handlers[h], r.code)])
  }

  function DoSettle(w: World, h: nat): (w': World) {
    if h !in w.handlers then w
    else
      var key := w.handlers[h].reply.command;
      match w.handlers[h].stage
      case Confirming => SetStage(SetRow(w, key, {RowPending, RowSent}, RowConfirmed), h, Finished(Ack))
      case Failing => SetStage(SetRow(w, key, {RowPending, RowSent}, RowFailed), h, Finished(Ack))
      case _ => w
  }

  // ---------------------------------------------------------------- fences and notices

  function DoAcquire(w: World, op: string, supplierId: string): (w': World) {
    if IsUuid(op) && IsUuid(supplierId) && op !in w.db.fences
    then w.(db := w.db.(fences := w.db.fences[op := Fence(supplierId, FenceOpen)]))
    else w
  }

  function DoClose(w: World, op: string, state: FenceState): (w': World) {
    if op in w.db.fences && w.db.fences[op].state == FenceOpen && state != FenceOpen
    then w.(db := w.db.(fences := w.db.fences[op := w.db.fences[op].(state := state)]))
    else w
  }

  function AddNotice(w: World, key: string): (w': World) {
    w.(db := w.db.(notices := w.db.notices + {key}))
  }

  /** One step of the system. */
  ghost function Do(w: World, s: Step): (w': World) {
    match s
    case OpenWallet(owner, subject) => w.(credit := CreateWallet(w.credit, owner, subject))
    case SubmitErrand(e, now) => DoSubmit(w, e, now)
    case Decide(seen, ev, actor, input, now) => DoDecide(w, seen, ev, actor, input, now)
    case Publish(key) => DoPublish(w, key)
    case MarkSent(key) => DoMarkSent(w, key)
    case Resend(key) => SetRow(w, key, {RowSent}, RowPending)
    case GiveUp(key) => SetRow(w, key, {RowPending}, RowFailed)
    case RequeueRow(key) => SetRow(w, key, {RowFailed}, RowPending)
    case DeliverCommand(m) => if m in w.wire then w.(credit := Process(w.credit, m.id, m.cmd)) else w
    case Receive(h, reply) => DoReceive(w, h, reply)
    case ReadErrand(h, now) => DoRead(w, h, now)
    case WriteErrand(h) => DoWrite(w, h)
    case SettleRow(h) => DoSettle(w, h)
    case Crash(h) => w.(handlers := w.handlers - {h})
    case AcquireFence(op, supplierId) => DoAcquire(w, op, supplierId)
    case CloseFence(op, state) => DoClose(w, op, state)
    case Reject(id, action, requestId) =>
      if id in w.db.errands then AddNotice(w, RejectionKey(id, action, requestId)) else w
    case Remind(id, reminder) =>
      if id in w.db.errands && (reminder == VerifyReminder || reminder == PickupReminder)
      then AddNotice(w, KeyOf(id, Slot(reminder, w.db.errands[id].version))) else w
  }

  /** The world after a run. */
  ghost function Run(initialCredit: nat, steps: seq<Step>): (w: World) {
    if steps == [] then Init(initialCredit) else Do(Run(initialCredit, steps[..|steps| - 1]), steps[|steps| - 1])
  }
}
