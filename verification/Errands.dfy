/** The errand domain: states, events, rows and what a transition writes. */
module Errands {
  import opened Prelude
  import opened Keys

  /** Instants and durations, in nanoseconds. */
  type Time = int
  type Duration = int

  const MINUTE: Duration := 60_000_000_000
  const MIN_ACCEPTANCE_WINDOW: Duration := 10 * MINUTE
  const MAX_ACCEPTANCE_WINDOW: Duration := 24 * 60 * MINUTE
  const MAX_CONTACT_NAME := 100
  const MAX_CONTACT_MOBILE := 32

  /** `NoStatus` is the start pseudo-state; `Unknown` is any text that is not a stored state. */
  datatype Status =
    | NoStatus
    | PendingReservation | Open | Assigned | PickedUp | Delivered | ReviewRequired
    | Rejected | Cancelled | Expired | Completed | Refunded
    | Unknown(raw: string)
  {
    predicate Terminal() {
      Rejected? || Cancelled? || Expired? || Completed? || Refunded?
    }

    predicate Valid() {
      !NoStatus? && !Unknown?
    }

    predicate Active() {
      !NoStatus? && !Terminal() && Valid()
    }
  }

  datatype Event =
    | Submit | ReservationConfirmed | ReservationRefused | ReservationFailed
    | Edit | Cancel | Confirm | Dispute
    | EditConfirmed | EditRefused
    | Accept | Withdraw | PickUp | Deliver | ReportIssue
    | AcceptanceDeadlinePassed | PickupDeadlinePassed | DeliveryDeadlinePassed | VerificationLapsed
    | AdminComplete | AdminRefund

  datatype ActorType = RequesterActor | CourierActor | AdminActor | SystemActorType

  /** `id` is the identity provider subject, empty for the system. */
  datatype Actor = Actor(kind: ActorType, id: string)

  const SYSTEM := Actor(SystemActorType, "")

  datatype ReviewReason = NoReview | CourierIssue | RequesterDispute | DeliveryOverdue

  const REASON_INSUFFICIENT_CREDITS := "INSUFFICIENT_CREDITS"
  const REASON_RESERVATION_FAILED := "RESERVATION_FAILED"
  const REASON_EDIT_FAILED := "EDIT_FAILED"

  /** The requester-editable fields. `items` is None when the text is not a JSON array. */
  datatype Details = Details(
    supplierId: string,
    supplierVersionId: string,
    deliveryBuildingId: string,
    deliveryBuildingSnapshot: string,
    deliveryDetail: string,
    items: Option<seq<string>>,
    notes: string,
    contactName: string,
    contactMobile: string,
    reward: int,
    acceptanceDeadline: Time)
  {
    function WithoutContact(): (d: Details) {
      this.(contactName := "", contactMobile := "")
    }
  }

  datatype PendingEdit = PendingEdit(details: Details, key: string, at: Time)

  /** One row of the errands table. Empty strings stand for NULL columns. */
  datatype Errand = Errand(
    id: string,
    status: Status,
    version: nat,
    requesterId: string,
    courierId: string,
    details: Details,
    pickupDeadline: Option<Time>,
    deliveryDeadline: Option<Time>,
    deliveredAt: Option<Time>,
    verificationDeadline: Option<Time>,
    reviewReason: ReviewReason,
    createIdempotencyKey: string,
    pendingEdit: Option<PendingEdit>,
    createdAt: Time,
    updatedAt: Time)
  {
    /** The pending_edit_key column. */
    function EditKey(): (k: string) {
      if pendingEdit.Some? then pendingEdit.value.key else ""
    }
  }

  /** A change to one nullable column. */
  datatype Update<T> = Keep | SetTo(value: T) | SetNull
  {
    function OnOption(current: Option<T>): (r: Option<T>) {
      match this
      case Keep => current
      case SetTo(v) => Some(v)
      case SetNull => None
    }

    function OnValue(current: T, zero: T): (r: T) {
      match this
      case Keep => current
      case SetTo(v) => v
      case SetNull => zero
    }
  }

  datatype Changes = Changes(
    courierId: Update<string>,
    details: Option<Details>,
    pickupDeadline: Update<Time>,
    deliveryDeadline: Update<Time>,
    deliveredAt: Update<Time>,
    verificationDeadline: Update<Time>,
    reviewReason: Update<ReviewReason>,
    pendingEdit: Update<PendingEdit>)

  const NO_CHANGES := Changes(Keep, None, Keep, Keep, Keep, Keep, Keep, Keep)

  /** Outbox row kinds; credit kinds are also routing keys. */
  datatype RowKind = ReserveKind | AdjustKind | ReleaseKind | TransferKind | EventKind(name: EventName)
  {
    predicate Credit() {
      !EventKind?
    }
  }

  /** A zero or empty field is omitted from the payload. */
  datatype CreditCommand = CreditCommand(
    errandId: string, errandVersion: nat, requesterId: string,
    courierId: string, amount: int, newAmount: int, seqNo: int)

  datatype EventData = EventData(
    errandId: string, errandVersion: nat, event: Event, from: Status, to: Status,
    actor: Actor, reason: string, reviewReason: ReviewReason,
    requesterId: string, courierId: string, reward: int, at: Time,
    pendingEdit: Option<Details>, editDropped: bool)

  datatype Payload = CommandPayload(cmd: CreditCommand) | EventPayload(data: EventData)

  datatype OutboxRow = OutboxRow(kind: RowKind, key: string, errandId: string, payload: Payload)

  /** Everything the store writes in one transaction. */
  datatype Transition = Transition(
    errandId: string,
    from: Status,
    to: Status,
    event: Event,
    actor: Actor,
    reason: string,
    expectedVersion: nat,
    expectedPendingEditKey: string,
    newVersion: nat,
    changes: Changes,
    outbox: seq<OutboxRow>,
    at: Time)
  {
    /** The row a store writes over `e`. */
    function ApplyTo(e: Errand): (after: Errand) {
      var c := changes;
      e.(status := to,
         version := newVersion,
         updatedAt := at,
         createdAt := if from.NoStatus? then at else e.createdAt,
         details := if c.details.Some? then c.details.value else e.details,
         courierId := c.courierId.OnValue(e.courierId, ""),
         pickupDeadline := c.pickupDeadline.OnOption(e.pickupDeadline),
         deliveryDeadline := c.deliveryDeadline.OnOption(e.deliveryDeadline),
         deliveredAt := c.deliveredAt.OnOption(e.deliveredAt),
         verificationDeadline := c.verificationDeadline.OnOption(e.verificationDeadline),
         reviewReason := c.reviewReason.OnValue(e.reviewReason, NoReview),
         pendingEdit := c.pendingEdit.OnOption(e.pendingEdit))
    }
  }

  datatype DeadlineSettings = DeadlineSettings(
    pickupAfter: Duration, deliveryAfter: Duration,
    verificationAfter: Duration, verificationReminderAfter: Duration)
  {
    predicate Valid() {
      && pickupAfter > 0 && deliveryAfter > 0
      && 0 < verificationReminderAfter < verificationAfter
    }
  }

  datatype EventInput = EventInput(
    edit: Option<Details>,
    reason: string,
    previouslyWithdrew: bool,
    restricted: bool,
    deadlines: DeadlineSettings,
    editKey: string,
    editTimedOut: bool)

  const NO_INPUT := EventInput(None, "", false, false, DeadlineSettings(0, 0, 0, 0), "", false)

  /** A deadline has passed at the instant it falls. */
  predicate Passed(deadline: Time, now: Time) {
    now >= deadline
  }

  predicate AcceptanceDeadlineOk(deadline: Time, now: Time) {
    && deadline > now
    && deadline >= now + MIN_ACCEPTANCE_WINDOW
    && deadline <= now + MAX_ACCEPTANCE_WINDOW
  }

  predicate IsSpace(c: char) {
    c == ' ' || c == '\t' || c == '\n' || c == '\r' || c as int == 11 || c as int == 12 || c as int == 0x85
      || c as int == 0xA0
  }

  predicate IsControl(c: char) {
    c as int < 32 || 127 <= c as int < 160
  }

  /** strings.TrimSpace(s) == "" */
  predicate IsBlank(s: string) {
    forall i :: 0 <= i < |s| ==> IsSpace(s[i])
  }

  predicate ContactOk(s: string, max: int) {
    && !IsBlank(s)
    && |s| <= max
    && (forall i :: 0 <= i < |s| ==> !IsControl(s[i]))
  }

  /** The acceptance window applies to a new deadline only; an old one just must not have passed. */
  predicate DetailsOk(d: Details, now: Time, newDeadline: bool) {
    && d.reward > 0
    && d.items.Some? && |d.items.value| > 0
    && ContactOk(d.contactName, MAX_CONTACT_NAME)
    && ContactOk(d.contactMobile, MAX_CONTACT_MOBILE)
    && (if newDeadline then AcceptanceDeadlineOk(d.acceptanceDeadline, now) else !Passed(d.acceptanceDeadline, now))
  }
}
