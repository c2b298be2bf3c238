/** The messages between the two services. Bodies are records; a JSON field that is left out reads as zero or empty. */
module Contracts {
  import opened Prelude
  import opened Keys
  import opened Errands
  import opened StateMachine
  import opened Wallets
  import opened StoreModel
  import opened Lifecycle
  import opened CreditParts
  import opened Composite
  import opened CompositeInv
  import opened CompositeCredit
  import opened CompositeProofs
  import opened AnnouncedRows
  import opened Theorems
  import Saga

  const MAX_ENVELOPE_ID := 255

  /** Go's zero time; a real instant is later. */
  const ZERO_TIME: Time := 0

  datatype Exchange = CommandsExchange | EventsExchange

  datatype Route =
    | ReserveRoute | AdjustRoute | ReleaseRoute | TransferRoute
    | ReservedRoute | ReservationRefusedRoute | AdjustedRoute | AdjustRefusedRoute
    | ReleasedRoute | TransferredRoute | OperationFailedRoute
    | EventRoute(name: EventName)
  {
    predicate Command() {
      ReserveRoute? || AdjustRoute? || ReleaseRoute? || TransferRoute?
    }

    predicate CreditResult() {
      !Command() && !EventRoute?
    }
  }

  /** The data of a message. */
  datatype Data = CommandData(cmd: CreditCommand) | LifecycleData(ev: EventData)
      | ResultData(amount: int, seqNo: int, code: string)

  datatype Envelope = Envelope(
    messageId: string, correlationId: string, route: Route, occurredAt: Time, errandId: string, errandVersion: int,
      data: Data)

  datatype Outgoing = Outgoing(exchange: Exchange, route: Route, env: Envelope)

  // ---------------------------------------------------------------- order-service sends

  function RouteOf(k: RowKind): (r: Route) {
    match k
    case ReserveKind => ReserveRoute
    case AdjustKind => AdjustRoute
    case ReleaseKind => ReleaseRoute
    case TransferKind => TransferRoute
    case EventKind(n) => EventRoute(n)
  }

  /** The checks every message passes before it is published. */
  predicate Encodes(m: Outgoing) {
    var e := m.env;
    && (if m.exchange == CommandsExchange then m.route.Command() else m.route.EventRoute?)
    && e.route == m.route && 0 < |e.messageId| <= MAX_ENVELOPE_ID && |e.correlationId| <= MAX_ENVELOPE_ID
    && e.errandId != "" && e.errandVersion >= 1 && e.occurredAt != ZERO_TIME
    && (m.exchange == CommandsExchange ==>
          && e.data.CommandData?
          && var c := e.data.cmd;
          && c.errandId == e.errandId && c.errandVersion == e.errandVersion && c.requesterId != ""
          && (m.route.ReserveRoute? || m.route.TransferRoute? ==> c.amount > 0)
          && (m.route.TransferRoute? ==> c.courierId != "")
          && (m.route.AdjustRoute? ==> c.newAmount > 0 && c.seqNo > 0))
  }

  /** The message of an outbox row: its own identity, version and time, whatever the errand is now. */
  function MessageFromOutbox(row: OutboxRow, createdAt: Time): (r: Outcome<Outgoing>) {
    var (id, version) := if row.payload.CommandPayload? then (row.payload.cmd.errandId, row.payload.cmd.errandVersion)
                         else (row.payload.data.errandId, row.payload.data.errandVersion);
    if id != row.errandId || version < 1 then Fail(PlainError)
    else
      var route := RouteOf(row.kind);
      var data := if row.payload.CommandPayload? then CommandData(row.payload.cmd) else LifecycleData(row.payload.data);
      var at := if row.kind.Credit() then createdAt else if row.payload.EventPayload? then row.payload.data.at
        else ZERO_TIME;
      var m := Outgoing(if row.kind.Credit() then CommandsExchange else EventsExchange, route,
                        Envelope(row.key, "", route, at, row.errandId, version, data));
      if Encodes(m) then Ok(m) else Fail(PlainError)
  }

  // ---------------------------------------------------------------- credit-service receives

  /** The command of a delivery, and its message ID. */
  function DecodeCommand(route: Route, env: Envelope): (r: Outcome<Message>) {
    if env.messageId == "" || env.route != route || env.errandId == "" || env.errandVersion < 1 then Fail(PlainError)
    else if !route.Command() || !env.data.CommandData? then Fail(PlainError)
    else
      var d := env.data.cmd;
      if Lower(d.errandId) != Lower(env.errandId) || d.errandVersion != env.errandVersion then Fail(PlainError)
      else
        Ok(Message(env.messageId,
          match route
          case ReserveRoute => ReserveCommand(env.errandId, env.errandVersion, d.requesterId, d.amount)
          case AdjustRoute => AdjustCommand(env.errandId, env.errandVersion, d.requesterId, d.newAmount, d.seqNo)
          case ReleaseRoute => ReleaseCommand(env.errandId, env.errandVersion, d.requesterId)
          case _ => TransferCommand(env.errandId, env.errandVersion, d.requesterId, d.courierId, d.amount)))
  }

  // ---------------------------------------------------------------- credit-service answers

  function ResultRoute(r: Result): (route: Route) {
    match r
    case ReservedResult(_) => ReservedRoute
    case ReservationRefusedResult(_) => ReservationRefusedRoute
    case AdjustedResult(_, _) => AdjustedRoute
    case AdjustRefusedResult(_, _) => AdjustRefusedRoute
    case ReleasedResult => ReleasedRoute
    case TransferredResult => TransferredRoute
    case OperationFailedResult(_) => OperationFailedRoute
  }

  function ResultText(route: Route): (s: string) {
    match route
    case ReservedRoute => "credit.reserved"
    case ReservationRefusedRoute => "credit.reservation_refused"
    case AdjustedRoute => "credit.adjusted"
    case AdjustRefusedRoute => "credit.adjust_refused"
    case ReleasedRoute => "credit.released"
    case TransferredRoute => "credit.transferred"
    case _ => "credit.operation_failed"
  }

  function DataOf(r: Result): (d: Data) {
    match r
    case ReservedResult(amount) => ResultData(amount, 0, "")
    case ReservationRefusedResult(code) => ResultData(0, 0, CodeText(code))
    case AdjustedResult(amount, seqNo) => ResultData(amount, seqNo, "")
    case AdjustRefusedResult(code, seqNo) => ResultData(0, seqNo, CodeText(code))
    case ReleasedResult => ResultData(0, 0, "")
    case TransferredResult => ResultData(0, 0, "")
    case OperationFailedResult(code) => ResultData(0, 0, CodeText(code))
  }

  const SECOND: Duration := 1_000_000_000

  /** A result says when it was made, to the second. */
  function BuildResult(reply: Reply, at: Time): (env: Envelope) {
    var route := ResultRoute(reply.result);
    Envelope(reply.command + ":" + ResultText(route), reply.command, route, at / SECOND * SECOND, reply.order,
             reply.version, DataOf(reply.result))
  }

  // ---------------------------------------------------------------- order-service receives

  /** A decoded credit result. */
  datatype Decoded = Decoded(route: Route, command: string, order: string, code: string)

  predicate HasPrefix(s: string, prefix: string) {
    |prefix| <= |s| && s[..|prefix|] == prefix
  }

  /** The correlation names a command of the kind this result answers. */
  predicate Answers(route: Route, key: string, id: string) {
    match route
    case ReservedRoute => key == IdempotencyKey(id, "reserve", 0)
    case ReservationRefusedRoute => key == IdempotencyKey(id, "reserve", 0)
    case AdjustedRoute => HasPrefix(key, id + ":adjust:") || HasPrefix(key, id + ":adjust-revert:")
    case AdjustRefusedRoute => HasPrefix(key, id + ":adjust:") || HasPrefix(key, id + ":adjust-revert:")
    case ReleasedRoute => key == IdempotencyKey(id, "release", 0)
    case TransferredRoute => key == IdempotencyKey(id, "transfer", 0)
    case _ => true
  }

  predicate NeedsCode(route: Route) {
    route.ReservationRefusedRoute? || route.AdjustRefusedRoute? || route.OperationFailedRoute?
  }

  function DecodeResult(route: Route, env: Envelope): (r: Outcome<Decoded>) {
    if !route.CreditResult() || env.route != route then Fail(PlainError)
    else if env.errandId == "" || env.correlationId == "" then Fail(PlainError)
    else if !HasPrefix(env.correlationId, env.errandId + ":") then Fail(PlainError)
    else if !env.data.ResultData? || !Answers(route, env.correlationId, env.errandId) then Fail(PlainError)
    else if NeedsCode(route) && env.data.code == "" then Fail(PlainError)
    else Ok(Decoded(route, env.correlationId, env.errandId, env.data.code))
  }

  /** The event a decoded result reports; None for the results that only settle a row. */
  function EventOf(d: Decoded): (ev: Option<(Event, EventInput)>) {
    match d.route
    case ReservedRoute => Some((ReservationConfirmed, NO_INPUT))
    case ReservationRefusedRoute => Some((ReservationRefused, NO_INPUT.(reason := d.code)))
    case AdjustedRoute => Some((EditConfirmed, NO_INPUT.(editKey := d.command)))
    case AdjustRefusedRoute => Some((EditRefused, NO_INPUT.(editKey := d.command, reason := d.code)))
    case _ => None
  }

  // ---------------------------------------------------------------- commands arrive as sent

  lemma OpNameIsShort(op: Op)
    ensures |OpName(op)| <= 15
  {
    OpNameShape(op);
    hide OpName;
  }

  /** A key fits an envelope unless the errand has changed more than 10^200 times. */
  lemma KeyFits(id: string, x: Slot)
    requires IsUuid(id) && x.version < Pow10(200)
    ensures 0 < |KeyOf(id, x)| <= MAX_ENVELOPE_ID <= MAX_MESSAGE_ID_LENGTH
  {
    hide Pow10, OpName, Itoa, KeyOf;
    OpNameIsShort(x.op);
    KeySplits(id, x);
    ItoaLength(x.version, 200);
  }

  /** A row of a stored errand is published and arrives as the command the row stands for. */
  lemma CommandRoundTrip(e: Errand, x: Slot, row: OutboxRow, createdAt: Time)
    requires Saga.RowOk(e, x, row) && e.id != "" && e.requesterId != "" && (x.op == Transfer ==> e.courierId != "")
    requires 0 < |row.key| <= MAX_ENVELOPE_ID && createdAt != ZERO_TIME
    ensures row.kind.Credit() && row.payload.CommandPayload?
    ensures MessageFromOutbox(row, createdAt).Ok?
    ensures var m := MessageFromOutbox(row, createdAt).value; DecodeCommand(m.route, m.env) == Ok(MessageOf(row))
  {
    hide KeyOf, Lower;
  }

  // ---------------------------------------------------------------- what is published and what is understood

  /** A row is published exactly if it names its errand and a version, its key has 1 to 255 characters, and it is a
      complete command of its kind or an announcement with a time; and then goes out as what it says, at its own
      time. */
  lemma PublishedExactly(row: OutboxRow, createdAt: Time)
    ensures MessageFromOutbox(row, createdAt).Ok? <==>
      && row.errandId != "" && 1 <= |row.key| <= 255
      && match row.kind
         case EventKind(_) =>
           && row.payload.EventPayload? && row.payload.data.at != 0
           && row.payload.data.errandId == row.errandId && row.payload.data.errandVersion >= 1
         case kind =>
           && row.payload.CommandPayload? && createdAt != 0
           && var d := row.payload.cmd;
           && d.errandId == row.errandId && d.errandVersion >= 1 && d.requesterId != ""
           && match kind
              case ReserveKind => d.amount > 0
              case AdjustKind => d.newAmount > 0 && d.seqNo > 0
              case TransferKind => d.amount > 0 && d.courierId != ""
              case _ => true
    ensures MessageFromOutbox(row, createdAt).Ok? ==>
      var m := MessageFromOutbox(row, createdAt).value;
      && m.exchange == (if row.kind.EventKind? then EventsExchange else CommandsExchange) && m.env.route == m.route
      && m.env.messageId == row.key && m.env.correlationId == "" && m.env.errandId == row.errandId
      && match row.payload
         case CommandPayload(d) =>
           m.env.data == CommandData(d) && m.env.errandVersion == d.errandVersion && m.env.occurredAt == createdAt
         case EventPayload(d) =>
           m.env.data == LifecycleData(d) && m.env.errandVersion == d.errandVersion && m.env.occurredAt == d.at
  {
  }

  /** A delivery is understood as a command exactly if envelope, route and body agree on what and whom it is about. */
  lemma UnderstoodExactly(route: Route, env: Envelope)
    ensures DecodeCommand(route, env).Ok? <==>
      && route in {ReserveRoute, AdjustRoute, ReleaseRoute, TransferRoute} && env.route == route
      && env.messageId != "" && env.errandId != "" && env.errandVersion >= 1
      && env.data.CommandData? && env.data.cmd.errandVersion == env.errandVersion
      && Lower(env.data.cmd.errandId) == Lower(env.errandId)
  {
    hide Lower;
  }

  /** The key begins with these texts. */
  ghost predicate Begins(key: string, id: string, rest: string) {
    exists tail: string :: key == id + rest + tail
  }

  lemma BeginsWith(key: string, id: string, rest: string)
    ensures HasPrefix(key, id + rest) <==> Begins(key, id, rest)
  {
    if HasPrefix(key, id + rest) {
      assert key == id + rest + key[|id + rest|..];
    }
    if tail: string :| key == id + rest + tail {
      PrefixOf(id + rest, tail);
    }
  }

  /** A result is understood exactly if it answers a command of its kind for its errand, and says why if it refuses. */
  lemma ResultsExactly(route: Route, env: Envelope)
    ensures var key, id := env.correlationId, env.errandId;
      DecodeResult(route, env).Ok? <==>
        && env.route == route && id != "" && Begins(key, id, ":") && env.data.ResultData?
        && match route
           case ReservedRoute => key == id + ":reserve"
           case ReservationRefusedRoute => key == id + ":reserve" && env.data.code != ""
           case AdjustedRoute => Begins(key, id, ":adjust:") || Begins(key, id, ":adjust-revert:")
           case AdjustRefusedRoute =>
             (Begins(key, id, ":adjust:") || Begins(key, id, ":adjust-revert:")) && env.data.code != ""
           case ReleasedRoute => key == id + ":release"
           case TransferredRoute => key == id + ":transfer"
           case OperationFailedRoute => env.data.code != ""
           case _ => false
  {
    hide HasPrefix, Begins;
    var key, id := env.correlationId, env.errandId;
    BeginsWith(key, id, ":");
    BeginsWith(key, id, ":adjust:");
    BeginsWith(key, id, ":adjust-revert:");
    NotPrefixOfEmpty(id);
    assert id + ":" + "reserve" == id + ":reserve" && id + ":" + "release" == id + ":release";
    assert id + ":" + "transfer" == id + ":transfer";
  }

  lemma NotPrefixOfEmpty(id: string)
    ensures !HasPrefix("", id + ":")
  {
  }

  // ---------------------------------------------------------------- results arrive as sent

  lemma PrefixOf(a: string, b: string)
    ensures HasPrefix(a + b, a)
  {
    assert (a + b)[..|a|] == a;
  }

  lemma CodesHaveText(c: ResultCode)
    ensures CodeText(c) != ""
  {
  }

  /** A command key begins with its errand and its operation. */
  lemma KeyPrefixes(id: string, x: Slot)
    ensures HasPrefix(KeyOf(id, x), id + ":")
    ensures x.op == Adjust && x.version > 0 ==> HasPrefix(KeyOf(id, x), id + ":adjust:")
    ensures x.op == AdjustRevert && x.version > 0 ==> HasPrefix(KeyOf(id, x), id + ":adjust-revert:")
  {
    hide HasPrefix, Itoa, KeyTail;
    KeySplits(id, x);
    PrefixOf(id + ":", KeyTail(x));
    if x.version > 0 && x.op == Adjust {
      OpPrefix(id, "adjust", ":adjust:", Itoa(x.version));
    }
    if x.version > 0 && x.op == AdjustRevert {
      OpPrefix(id, "adjust-revert", ":adjust-revert:", Itoa(x.version));
    }
  }

  lemma OpPrefix(id: string, op: string, middle: string, digits: string)
    requires middle == ":" + op + ":"
    ensures HasPrefix(id + ":" + op + ":" + digits, id + middle)
  {
    hide HasPrefix;
    assert id + ":" + op + ":" + digits == id + middle + digits;
    PrefixOf(id + middle, digits);
  }

  lemma ResultRoundTrip(reply: Reply, x: Slot, at: Time)
    requires reply.order != "" && reply.command == KeyOf(reply.order, x) && x.op.Credit()
    requires x.op == Adjust || x.op == AdjustRevert ==> x.version > 0
    requires x.op == Reserve || x.op == Release || x.op == Transfer ==> x.version == 0
    requires reply.result.OperationFailedResult? || Saga.AnswerFits(x.op, reply.result)
    ensures var env := BuildResult(reply, at);
      && DecodeResult(env.route, env).Ok?
      && var d := DecodeResult(env.route, env).value;
      && d.route == ResultRoute(reply.result) && d.command == reply.command && d.order == reply.order
      && EventOf(d) == ResultEvent(reply)
  {
    KeyPrefixes(reply.order, x);
    KeyNotEmpty(reply.order, x);
    forall c { CodesHaveText(c); }
    hide CodeText, HasPrefix, ResultText;
    assert x.op == Reserve ==> KeyOf(reply.order, x) == IdempotencyKey(reply.order, "reserve", 0);
    assert x.op == Release ==> KeyOf(reply.order, x) == IdempotencyKey(reply.order, "release", 0);
    assert x.op == Transfer ==> KeyOf(reply.order, x) == IdempotencyKey(reply.order, "transfer", 0);
    hide IdempotencyKey, KeyOf;
  }

  /** What a result's envelope says besides its kind and its numbers: whose command it answers, for which version of
      which errand, and in which second. */
  lemma ResultSays(reply: Reply, at: Time)
    ensures var env := BuildResult(reply, at);
      && env.correlationId == reply.command && env.errandId == reply.order && env.errandVersion == reply.version
      && env.occurredAt <= at < env.occurredAt + 1_000_000_000
      && env.occurredAt % 1_000_000_000 == 0
      && env.data == match reply.result
                     case ReservedResult(amount) => ResultData(amount, 0, "")
                     case AdjustedResult(amount, seqNo) => ResultData(amount, seqNo, "")
                     case ReservationRefusedResult(code) => ResultData(0, 0, CodeText(code))
                     case AdjustRefusedResult(code, seqNo) => ResultData(0, seqNo, CodeText(code))
                     case OperationFailedResult(code) => ResultData(0, 0, CodeText(code))
                     case _ => ResultData(0, 0, "")
  {
    hide CodeText, ResultText;
  }

  lemma ResultTextsDiffer(a: Result, b: Result)
    ensures ColonFree(ResultText(ResultRoute(a)))
    ensures ResultText(ResultRoute(a)) == ResultText(ResultRoute(b)) ==> ResultRoute(a) == ResultRoute(b)
  {
  }

  /** Two results have the same message ID exactly when they answer the same command in the same way: a result that is
      published twice is a duplicate, and no other is. */
  lemma ResultIdsDiffer(a: Reply, at: Time, b: Reply, bt: Time)
    ensures BuildResult(a, at).messageId == BuildResult(b, bt).messageId <==>
      a.command == b.command && BuildResult(a, at).route == BuildResult(b, bt).route
  {
    hide ResultText, ResultRoute, DataOf;
    ResultTextsDiffer(a.result, b.result);
    ResultTextsDiffer(b.result, a.result);
    var x, y := ResultText(ResultRoute(a.result)), ResultText(ResultRoute(b.result));
    if a.command + ":" + x == b.command + ":" + y {
      SplitAtLastColon(a.command, x, b.command, y);
    }
  }

  // ---------------------------------------------------------------- every run

  /** The row is published, and credit-service decodes it as the command it stands for. */
  ghost predicate Arrives(row: OutboxRow, createdAt: Time)
    requires row.kind.Credit() && row.payload.CommandPayload?
  {
    && MessageFromOutbox(row, createdAt).Ok?
    && var m := MessageFromOutbox(row, createdAt).value;
    && DecodeCommand(m.route, m.env) == Ok(MessageOf(row))
  }

  /** The row is published under its key, with the version, the time and the contents it announces. */
  ghost predicate Announces(row: OutboxRow, createdAt: Time)
    requires row.kind.EventKind? && row.payload.EventPayload?
  {
    && MessageFromOutbox(row, createdAt).Ok?
    && var m := MessageFromOutbox(row, createdAt).value;
    && var d := row.payload.data;
    && m.exchange == EventsExchange && m.route == EventRoute(row.kind.name)
    && m.env == Envelope(row.key, "", m.route, d.at, row.errandId, d.errandVersion, LifecycleData(d))
  }

  /** A command is published exactly when its key fits an envelope, an announcement when it also has a time; and a key
      fits unless its errand has changed more than 10^200 times. */
  ghost predicate Publishes(db: Db, k: string, createdAt: Time)
    requires k in db.outbox
  {
    var row := db.outbox[k].row;
    && (if row.kind.Credit()
        then row.payload.CommandPayload? && (|k| <= MAX_ENVELOPE_ID <==> Arrives(row, createdAt))
        else && row.kind.EventKind? && row.payload.EventPayload?
             && (|k| <= MAX_ENVELOPE_ID && row.payload.data.at != ZERO_TIME <==> Announces(row, createdAt)))
    && row.errandId in db.errands
    && (db.errands[row.errandId].version < Pow10(200) ==> |k| <= MAX_ENVELOPE_ID)
  }

  ghost predicate Understood(r: Reply, at: Time) {
    var env := BuildResult(r, at);
    && DecodeResult(env.route, env).Ok?
    && var d := DecodeResult(env.route, env).value;
    && d.command == r.command && d.order == r.order && EventOf(d) == ResultEvent(r)
  }

  /** Every row is published as what it says, and every recorded reply is decoded as what it says. */
  ghost predicate ContractHolds(w: World, createdAt: Time, at: Time) {
    && (forall k :: k in w.db.outbox ==> Publishes(w.db, k, createdAt))
    && (forall r :: r in w.credit.outbox ==> Understood(r, at))
  }

  /** A credit row belongs to a slot of a stored errand. */
  lemma RowSlot(w: World, k: string) returns (id: string, x: Slot)
    requires k in w.db.outbox && w.db.outbox[k].row.kind.Credit() && IdsInv(w.db) && KeyInv(w.db) && SagaInv(w)
    ensures id in w.db.errands && IsUuid(id) && k == KeyOf(id, x) && Used(w.db.errands[id], x)
    ensures Saga.RowOk(w.db.errands[id], x, w.db.outbox[k].row)
  {
    hide KeyOf, Used, WellFormed, SagaInv, PartOf, DoneView, IsUuid, RowsView, Saga.RowOk;
    id, x :| OwnedBy(w.db, k, id, x) && (x.op.Credit() <==> w.db.outbox[k].row.kind.Credit());
    SagaRow(w, id, x);
  }

  lemma PayeeSet(w: World, id: string, x: Slot)
    requires id in w.db.errands && x.op == Transfer && KeyOf(id, x) in w.db.outbox && IdsInv(w.db) && SagaInv(w)
    ensures w.db.errands[id].courierId != ""
  {
    hide KeyOf, DoneView, PartOf, IsUuid, DeliveryInv, ReviewInv, EditInv;
    var s := View(w, id);
    assert Saga.RowsInv(s) && x in s.rows && Saga.RowOk(s.e, x, s.rows[x]);
  }

  lemma UsedVersion(e: Errand, x: Slot)
    requires Used(e, x) && x.op.Credit()
    ensures x.version <= e.version
  {
  }

  /** A published message's key fits. */
  lemma PublishedFits(row: OutboxRow, createdAt: Time)
    ensures MessageFromOutbox(row, createdAt).Ok? ==> |row.key| <= MAX_ENVELOPE_ID
  {
  }

  lemma CommandPublishes(w: World, k: string, createdAt: Time)
    requires k in w.db.outbox && w.db.outbox[k].row.kind.Credit() && createdAt != ZERO_TIME
    requires WorldInv(w)
    ensures Publishes(w.db, k, createdAt)
  {
    hide KeyOf, IdsInv, KeyInv, NoticeInv, WireInv, CreditInv, ReplyInv, PastInv, SagaInv, HandlerInv, ConfirmInv, Used,
         MessageFromOutbox, DecodeCommand, MessageOf, IsUuid, Pow10, Saga.RowOk;
    var id, x := RowSlot(w, k);
    var e, row := w.db.errands[id], w.db.outbox[k].row;
    ErrandOfRun(w, id);
    RequesterSet(e);
    KeyNotEmpty(id, x);
    if x.op == Transfer {
      PayeeSet(w, id, x);
    }
    assert id != "" by { NotEmpty(id); }
    RowKey(e, x, row);
    PublishedFits(row, createdAt);
    if |k| <= MAX_ENVELOPE_ID {
      CommandRoundTrip(e, x, row, createdAt);
    }
    if e.version < Pow10(200) {
      UsedVersion(e, x);
      KeyFits(id, x);
    }
  }

  lemma EventPublishes(db: Db, k: string, createdAt: Time)
    requires k in db.outbox && !db.outbox[k].row.kind.Credit() && AnnouncedInv(db) && IdsInv(db)
    ensures Publishes(db, k, createdAt)
  {
    hide KeyOf, IsUuid, Pow10, WellFormed;
    assert Announced(db, k);
    var row := db.outbox[k].row;
    var x := Slot(Emit(row.kind.name), row.payload.data.errandVersion);
    assert row.errandId != "" by { NotEmpty(row.errandId); }
    KeyNotEmpty(row.errandId, x);
    if x.version < Pow10(200) {
      KeyFits(row.errandId, x);
    }
  }

  lemma NotEmpty(id: string)
    requires IsUuid(id)
    ensures id != ""
  {
  }

  lemma RowKey(e: Errand, x: Slot, row: OutboxRow)
    requires Saga.RowOk(e, x, row)
    ensures row.key == KeyOf(e.id, x) && row.errandId == e.id && row.payload.CommandPayload? && x.op.Credit()
  {
    hide KeyOf;
  }

  lemma RequesterSet(e: Errand)
    requires WellFormed(e)
    ensures e.requesterId != ""
  {
    hide KeyOf, DeliveryInv, ReviewInv, EditInv;
  }

  lemma ReplySlot(w: World, r: Reply) returns (x: Slot)
    requires ReplyOk(w.db, w.credit, r) && IdsInv(w.db) && SagaInv(w)
    ensures r.order in w.db.errands && r.order != "" && r.command == KeyOf(r.order, x) && x.op.Credit()
      && r.command in w.db.outbox
    ensures Saga.RowOk(w.db.errands[r.order], x, w.db.outbox[r.command].row)
    ensures r.result.OperationFailedResult? || Saga.AnswerFits(x.op, r.result)
  {
    hide KeyOf, View, WellFormed, SagaInv, Saga.Inv, Saga.RowOk;
    x :| CommandKey(w.db, r.command, r.order, x);
    SagaRowAt(w, r.order, x);
    if !r.result.OperationFailedResult? {
      FitsSlot(w, r, x);
    }
    hide IsUuid;
  }

  lemma SagaRowAt(w: World, id: string, x: Slot)
    requires SagaInv(w) && CommandKey(w.db, KeyOf(id, x), id, x)
    ensures Saga.RowOk(w.db.errands[id], x, w.db.outbox[KeyOf(id, x)].row)
  {
    hide KeyOf, SagaInv, RowsView, DoneView, PartOf, Saga.RowOk;
    SagaRow(w, id, x);
  }

  lemma FitsSlot(w: World, r: Reply, x: Slot)
    requires ReplyOk(w.db, w.credit, r) && !r.result.OperationFailedResult? && SagaInv(w)
    requires CommandKey(w.db, r.command, r.order, x)
    ensures Saga.AnswerFits(x.op, r.result)
  {
    hide KeyOf, PartOf, RowsView, Saga.Inv;
    assert x in View(w, r.order).done;
    AnswerInSlot(View(w, r.order), x);
  }

  lemma SlotVersions(e: Errand, x: Slot, row: OutboxRow)
    requires Saga.RowOk(e, x, row)
    ensures x.op == Adjust || x.op == AdjustRevert ==> x.version > 0
    ensures x.op == Reserve || x.op == Release || x.op == Transfer ==> x.version == 0
  {
    hide KeyOf;
  }

  /** In every run, what one service sends is what the other understands, in both directions, and every announcement
      goes out as it was written. */
  lemma ContractHoldsInRuns(initialCredit: nat, steps: seq<Step>, createdAt: Time, at: Time)
    requires createdAt != ZERO_TIME
    ensures ContractHolds(Run(initialCredit, steps), createdAt, at)
  {
    hide WorldInv, Run, Publishes, BuildResult, DecodeResult, EventOf, ResultEvent, IdsInv, KeyInv, SagaInv, KeyOf,
         Saga.RowOk, ReplyOk, AnnouncedInv;
    RunKeepsInv(initialCredit, steps);
    AnnouncedInRuns(initialCredit, steps);
    var w := Run(initialCredit, steps);
    PastOfRun(w);
    forall k | k in w.db.outbox
      ensures Publishes(w.db, k, createdAt)
    {
      if w.db.outbox[k].row.kind.Credit() {
        CommandPublishes(w, k, createdAt);
      } else {
        EventPublishes(w.db, k, createdAt);
      }
    }
    forall r | r in w.credit.outbox
      ensures Understood(r, at)
    {
      RepliesOfRun(w, r);
      var x := ReplySlot(w, r);
      SlotVersions(w.db.errands[r.order], x, w.db.outbox[r.command].row);
      ResultRoundTrip(r, x, at);
    }
  }

  lemma RepliesOfRun(w: World, r: Reply)
    requires r in w.credit.outbox
    requires WorldInv(w)
    ensures ReplyOk(w.db, w.credit, r) && IdsInv(w.db) && SagaInv(w)
  {
    hide ReplyOk, IdsInv, KeyInv, NoticeInv, WireInv, CreditInv, PastInv, SagaInv, HandlerInv, ConfirmInv;
  }

  // ---------------------------------------------------------------- announcements

  /** An announcement of an accepted event, on a new or stored errand, is publishable and says when it happened. */
  lemma AnnouncementsPublish(e: Errand, ev: Event, a: Actor, input: EventInput, now: Time, name: EventName,
                             createdAt: Time)
    requires Next(e, ev, a, input, now).Ok? && now != ZERO_TIME && e.id != ""
    requires e.status == NoStatus || e.version >= 1
    requires var t := Next(e, ev, a, input, now).value; |EventRow(name, e, t).key| <= MAX_ENVELOPE_ID
    ensures var row := EventRow(name, e, Next(e, ev, a, input, now).value);
      && MessageFromOutbox(row, createdAt).Ok?
      && var m := MessageFromOutbox(row, createdAt).value;
         m.route == EventRoute(name) && m.env.messageId == row.key && m.env.occurredAt == now
           && m.env.data == LifecycleData(row.payload.data)
  {
    hide Next, KeyOf, EmissionOf, CreditOrderOf, OutboxOf, ReasonOf, IsBlank;
    NextMeans(e, ev, a, input, now);
    var t := Next(e, ev, a, input, now).value;
    KeyNotEmpty(e.id, Slot(Emit(name), t.newVersion));
    EffectVersion(e, ev, a, input, now);
  }
}
