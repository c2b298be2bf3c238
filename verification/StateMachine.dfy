/** The transition table and `Next`, which decides every change of an errand. */
module StateMachine {
  import opened Prelude
  import opened Keys
  import opened Errands

  datatype Relationship = RelRequester | RelAssignedCourier | RelEligibleCourier | RelAdmin | RelSystem

  datatype Guard =
    | BeforeAcceptanceDeadline | AfterAcceptanceDeadline
    | AfterPickupDeadline | AfterDeliveryDeadline | AfterVerificationDeadline

  datatype CreditEffect = NoCredit | CreditReserve | CreditRelease | CreditTransfer

  datatype Rule = Rule(
    from: Status, event: Event, to: Status, actor: Relationship,
    guards: seq<Guard>, credit: CreditEffect, emits: seq<EventName>,
    review: ReviewReason, needsReason: bool)

  // ---------------------------------------------------------------- rules

  function Simple(from: Status, ev: Event, to: Status, actor: Relationship, guards: seq<Guard>,
                  credit: CreditEffect, emits: seq<EventName>): (r: Rule)
  {
    Rule(from, ev, to, actor, guards, credit, emits, NoReview, false)
  }

  const SUBMISSION: seq<Rule> :=
    [Simple(NoStatus, Submit, PendingReservation, RelRequester, [], CreditReserve, [Placed])]

  const RESERVATION: seq<Rule> :=
    [Simple(PendingReservation, ReservationConfirmed, Open, RelSystem, [], NoCredit, [Opened]),
     Simple(PendingReservation, ReservationRefused, Rejected, RelSystem, [], NoCredit, [RejectedEvent]),
     Simple(PendingReservation, ReservationFailed, Rejected, RelSystem, [], CreditRelease, [RejectedEvent])]

  const OPEN: seq<Rule> :=
    [Simple(Open, Edit, Open, RelRequester, [], NoCredit, [Edited]),
     Simple(Open, EditConfirmed, Open, RelSystem, [], NoCredit, [Edited]),
     Simple(Open, EditRefused, Open, RelSystem, [], NoCredit, [EditRejected]),
     Simple(Open, Accept, Assigned, RelEligibleCourier, [BeforeAcceptanceDeadline], NoCredit, [Accepted]),
     Simple(Open, Cancel, Cancelled, RelRequester, [], CreditRelease, [CancelledEvent]),
     Simple(Open, AcceptanceDeadlinePassed, Expired, RelSystem, [AfterAcceptanceDeadline], CreditRelease,
            [ExpiredEvent])]

  const ASSIGNED: seq<Rule> :=
    [Simple(Assigned, Withdraw, Open, RelAssignedCourier, [BeforeAcceptanceDeadline], NoCredit, [Withdrawn]),
     Simple(Assigned, Withdraw, Expired, RelAssignedCourier, [AfterAcceptanceDeadline], CreditRelease,
            [Withdrawn, ExpiredEvent]),
     Simple(Assigned, PickupDeadlinePassed, Open, RelSystem, [AfterPickupDeadline, BeforeAcceptanceDeadline], NoCredit,
            [Withdrawn]),
     Simple(Assigned, PickupDeadlinePassed, Expired, RelSystem, [AfterPickupDeadline, AfterAcceptanceDeadline],
            CreditRelease,
            [Withdrawn, ExpiredEvent]),
     Simple(Assigned, PickUp, PickedUp, RelAssignedCourier, [], NoCredit, [PickedUpEvent])]

  const PICKED_UP: seq<Rule> :=
    [Simple(PickedUp, Deliver, Delivered, RelAssignedCourier, [], NoCredit, [DeliveredEvent]),
     Rule(PickedUp, ReportIssue, ReviewRequired, RelAssignedCourier, [], NoCredit, [ReviewRequiredEvent], CourierIssue,
          true),
     Rule(PickedUp, DeliveryDeadlinePassed, ReviewRequired, RelSystem, [AfterDeliveryDeadline], NoCredit,
          [ReviewRequiredEvent],
          DeliveryOverdue, false)]

  const DELIVERED: seq<Rule> :=
    [Simple(Delivered, Confirm, Completed, RelRequester, [], CreditTransfer, [CompletedEvent]),
     Simple(Delivered, VerificationLapsed, Completed, RelSystem, [AfterVerificationDeadline], CreditTransfer,
            [CompletedEvent]),
     Rule(Delivered, Dispute, ReviewRequired, RelRequester, [], NoCredit, [ReviewRequiredEvent], RequesterDispute,
          true)]

  const REVIEW: seq<Rule> :=
    [Rule(ReviewRequired, AdminComplete, Completed, RelAdmin, [], CreditTransfer, [CompletedEvent], NoReview, true),
     Rule(ReviewRequired, AdminRefund, Refunded, RelAdmin, [], CreditRelease, [RefundedEvent], NoReview, true)]

  const TABLE: seq<Rule> := SUBMISSION + RESERVATION + OPEN + ASSIGNED + PICKED_UP + DELIVERED + REVIEW

  predicate IsFor(r: Rule, from: Status, ev: Event) {
    r.from == from && r.event == ev
  }

  /** The rules for a pair among some rules, in their order. */
  function Filter(rules: seq<Rule>, from: Status, ev: Event): (kept: seq<Rule>)
    ensures forall i :: 0 <= i < |kept| ==> IsFor(kept[i], from, ev)
  {
    if rules == [] then []
    else (if IsFor(rules[0], from, ev) then [rules[0]] else []) + Filter(rules[1..], from, ev)
  }

  /** The candidates for an event in a state; none if the table does not have the pair. */
  function RulesFor(from: Status, ev: Event): (rules: seq<Rule>) {
    Filter(TABLE, from, ev)
  }

  /** The one state each event leaves. */
  function FromOf(ev: Event): (s: Status) {
    match ev
    case Submit => NoStatus
    case ReservationConfirmed | ReservationRefused | ReservationFailed => PendingReservation
    case Edit | EditConfirmed | EditRefused | Accept | Cancel | AcceptanceDeadlinePassed => Open
    case Withdraw | PickupDeadlinePassed | PickUp => Assigned
    case Deliver | ReportIssue | DeliveryDeadlinePassed => PickedUp
    case Confirm | VerificationLapsed | Dispute => Delivered
    case AdminComplete | AdminRefund => ReviewRequired
  }

  function LifecycleRank(s: Status): (rank: nat) {
    match s
    case NoStatus => 0
    case PendingReservation => 1
    case Open => 2
    case Assigned => 3
    case PickedUp => 4
    case Delivered => 5
    case ReviewRequired => 6
    case _ => 7
  }

  /** The errand is further along than the state the event leaves. */
  predicate MovedPast(current: Status, ev: Event) {
    LifecycleRank(current) > LifecycleRank(FromOf(ev))
  }

  // ---------------------------------------------------------------- checks

  /** The error for an actor without the rule's relationship to the errand. */
  function CheckActor(rel: Relationship, e: Errand, actor: Actor, input: EventInput): (denied: Option<Code>) {
    match rel
    case RelSystem =>
      if actor.kind != SystemActorType || actor.id != "" then Some(Forbidden) else None
    case RelAdmin =>
      if actor.kind != AdminActor || actor.id == "" then Some(Forbidden) else None
    case RelRequester =>
      if actor.kind != RequesterActor || actor.id == "" || actor.id != e.requesterId then Some(Forbidden) else None
    case RelAssignedCourier =>
      if actor.kind != CourierActor || actor.id == "" || actor.id != e.courierId then Some(Forbidden) else None
    case RelEligibleCourier =>
      if actor.kind != CourierActor || actor.id == "" then Some(Forbidden)
      else if actor.id == e.requesterId then Some(NotEligible)
      else if input.previouslyWithdrew then Some(NotEligible)
      else if input.restricted then Some(CourierRestricted)
      else None
  }

  predicate GuardHolds(g: Guard, e: Errand, now: Time) {
    match g
    case BeforeAcceptanceDeadline => !Passed(e.details.acceptanceDeadline, now)
    case AfterAcceptanceDeadline => Passed(e.details.acceptanceDeadline, now)
    case AfterPickupDeadline => e.pickupDeadline.Some? && Passed(e.pickupDeadline.value, now)
    case AfterDeliveryDeadline => e.deliveryDeadline.Some? && Passed(e.deliveryDeadline.value, now)
    case AfterVerificationDeadline => e.verificationDeadline.Some? && Passed(e.verificationDeadline.value, now)
  }

  predicate RuleHolds(r: Rule, e: Errand, now: Time) {
    forall g :: g in r.guards ==> GuardHolds(g, e, now)
  }

  /** The first guard that does not hold. */
  function FirstFailing(guards: seq<Guard>, e: Errand, now: Time): (g: Option<Guard>) {
    if guards == [] then None
    else if !GuardHolds(guards[0], e, now) then Some(guards[0])
    else FirstFailing(guards[1..], e, now)
  }

  /** The first rule whose guards all hold, or the error for the guard that failed last. */
  function ChooseRule(rules: seq<Rule>, e: Errand, now: Time): (r: Outcome<Rule>)
    requires |rules| > 0
    ensures r.Ok? ==> r.value in rules && RuleHolds(r.value, e, now)
  {
    if RuleHolds(rules[0], e, now) then Ok(rules[0])
    else if |rules| > 1 then ChooseRule(rules[1..], e, now)
    else Fail(GuardError(FirstFailing(rules[0].guards, e, now)))
  }

  function GuardError(failed: Option<Guard>): (c: Code) {
    if failed == Some(BeforeAcceptanceDeadline) then ErrandUnavailable else InvalidTransition
  }

  // ---------------------------------------------------------------- event-specific parts

  function OrDefault(s: string, fallback: string): (r: string) {
    if s == "" then fallback else s
  }

  /** What each event adds to the draft, or the check of its own that fails. */
  function ApplyEvent(t: Transition, e: Errand, input: EventInput, now: Time): (r: Outcome<Transition>) {
    match t.event
    case Submit =>
      if e.id == "" || e.version != 0 then Fail(InvalidArgument)
      else if !DetailsOk(e.details, now, true) then Fail(ValidationFailed)
      else Ok(t.(expectedVersion := 0, newVersion := 1))
    case ReservationRefused =>
      Ok(t.(reason := OrDefault(t.reason, REASON_INSUFFICIENT_CREDITS)))
    case ReservationFailed =>
      Ok(t.(reason := OrDefault(t.reason, REASON_RESERVATION_FAILED)))
    case Edit =>
      ApplyEdit(t, e, input, now)
    case EditConfirmed =>
      if e.pendingEdit.None? || input.editKey != e.pendingEdit.value.key then Fail(ErrandChanged)
      else Ok(t.(changes := t.changes.(pendingEdit := SetNull, details := Some(e.pendingEdit.value.details))))
    case EditRefused =>
      if e.pendingEdit.None? || input.editKey != e.pendingEdit.value.key then Fail(ErrandChanged)
      else Ok(t.(changes := t.changes.(pendingEdit := SetNull),
                 reason := OrDefault(t.reason,
                                     if input.editTimedOut then REASON_EDIT_FAILED else REASON_INSUFFICIENT_CREDITS)))
    case Accept =>
      if !input.deadlines.Valid() then Fail(ValidationFailed)
      else Ok(t.(changes := t.changes.(courierId := SetTo(t.actor.id),
                                       pickupDeadline := SetTo(now + input.deadlines.pickupAfter),
                                       deliveryDeadline := SetTo(now + input.deadlines.deliveryAfter))))
    case Withdraw | PickupDeadlinePassed =>
      Ok(t.(changes := t.changes.(courierId := SetNull, pickupDeadline := SetNull, deliveryDeadline := SetNull)))
    case Deliver =>
      if !input.deadlines.Valid() then Fail(ValidationFailed)
      else Ok(t.(changes := t.changes.(deliveredAt := SetTo(now),
                                       verificationDeadline := SetTo(now + input.deadlines.verificationAfter))))
    case _ => Ok(t)
  }

  /** A reward change waits for credit-service and keeps the version; any other edit applies at once. */
  function ApplyEdit(t: Transition, e: Errand, input: EventInput, now: Time): (r: Outcome<Transition>) {
    if e.pendingEdit.Some? then Fail(EditPending)
    else if input.edit.None? then Fail(InvalidArgument)
    else
      var edit := input.edit.value;
      if !DetailsOk(edit, now, edit.acceptanceDeadline != e.details.acceptanceDeadline) then Fail(ValidationFailed)
      else if edit.reward == e.details.reward then Ok(t.(changes := t.changes.(details := Some(edit))))
      else Ok(t.(newVersion := e.version,
                 changes :=
                   t.changes.(pendingEdit := SetTo(PendingEdit(edit, KeyOf(e.id, Slot(Adjust, e.version)), now)))))
  }

  // ---------------------------------------------------------------- outbox rows

  function AdjustSeq(version: nat): (s: int) {
    2 * version
  }

  function RevertSeq(newVersion: nat): (s: int) {
    2 * newVersion - 1
  }

  function CreditRow(kind: RowKind, slot: Slot, before: Errand, t: Transition, courierId: string,
                     amount: int, newAmount: int, seqNo: int): (row: OutboxRow)
  {
    OutboxRow(kind, KeyOf(before.id, slot), before.id,
              CommandPayload(CreditCommand(before.id, t.newVersion, before.requesterId, courierId, amount, newAmount,
                                           seqNo)))
  }

  function RuleRows(r: Rule, before: Errand, t: Transition): (rows: seq<OutboxRow>) {
    match r.credit
    case NoCredit => []
    case CreditReserve =>
      [CreditRow(ReserveKind, Slot(Reserve, 0), before, t, "", t.ApplyTo(before).details.reward, 0, 0)]
    case CreditRelease =>
      [CreditRow(ReleaseKind, Slot(Release, 0), before, t, "", 0, 0, 0)]
    case CreditTransfer =>
      [CreditRow(TransferKind, Slot(Transfer, 0), before, t, before.courierId, t.ApplyTo(before).details.reward, 0, 0)]
  }

  predicate EditRequestedBy(t: Transition) {
    t.event == Edit && t.changes.pendingEdit.SetTo?
  }

  function AdjustRows(before: Errand, t: Transition): (rows: seq<OutboxRow>) {
    if EditRequestedBy(t) then
      [CreditRow(AdjustKind, Slot(Adjust, t.expectedVersion), before, t, "", 0,
                 t.changes.pendingEdit.value.details.reward, AdjustSeq(t.expectedVersion))]
    else []
  }

  /** `t` clears a pending edit whose adjust may have landed while the reservation stays held. */
  predicate RevertsAdjust(before: Errand, t: Transition, input: EventInput) {
    && before.pendingEdit.Some?
    && (t.event == Accept || (t.event == EditRefused && input.editTimedOut))
  }

  function RevertRows(before: Errand, t: Transition, input: EventInput): (rows: seq<OutboxRow>) {
    if RevertsAdjust(before, t, input) then
      [CreditRow(AdjustKind, Slot(AdjustRevert, t.newVersion), before, t, "", 0,
                 before.details.reward, RevertSeq(t.newVersion))]
    else []
  }

  function EventRow(name: EventName, before: Errand, t: Transition): (row: OutboxRow) {
    var after := t.ApplyTo(before);
    OutboxRow(EventKind(name), KeyOf(before.id, Slot(Emit(name), t.newVersion)), before.id,
              EventPayload(EventData(
                before.id, t.newVersion, t.event, t.from, t.to, t.actor, t.reason, after.reviewReason,
                before.requesterId, if before.courierId == "" then after.courierId else before.courierId,
                after.details.reward, t.at,
                if EditRequestedBy(t) then Some(t.changes.pendingEdit.value.details.WithoutContact()) else None,
                t.event == Accept && before.pendingEdit.Some?)))
  }

  function EmittedNames(r: Rule, t: Transition): (names: seq<EventName>) {
    if EditRequestedBy(t) then [EditRequested] else r.emits
  }

  function EventRows(names: seq<EventName>, before: Errand, t: Transition): (rows: seq<OutboxRow>) {
    seq(|names|, i requires 0 <= i < |names| => EventRow(names[i], before, t))
  }

  function CreditRows(r: Rule, before: Errand, t: Transition, input: EventInput): (rows: seq<OutboxRow>) {
    RuleRows(r, before, t) + AdjustRows(before, t) + RevertRows(before, t, input)
  }

  function OutboxRows(r: Rule, before: Errand, t: Transition, input: EventInput): (rows: seq<OutboxRow>) {
    CreditRows(r, before, t, input) + EventRows(EmittedNames(r, t), before, t)
  }

  // ---------------------------------------------------------------- Next

  /** The transition before its event-specific parts. */
  function Draft(rule: Rule, e: Errand, ev: Event, actor: Actor, input: EventInput, now: Time): (t: Transition) {
    Transition(e.id, e.status, rule.to, ev, actor, input.reason, e.version, e.EditKey(), e.version + 1,
               if rule.review.NoReview? then NO_CHANGES else NO_CHANGES.(reviewReason := SetTo(rule.review)),
               [], now)
  }

  /** Leaving OPEN drops a pending edit. */
  function DropEdit(e: Errand, t: Transition): (r: Transition) {
    if e.pendingEdit.Some? && t.to != Open then t.(changes := t.changes.(pendingEdit := SetNull)) else t
  }

  function Build(rule: Rule, e: Errand, ev: Event, actor: Actor, input: EventInput,
                 now: Time): (r: Outcome<Transition>) {
    var filled := ApplyEvent(Draft(rule, e, ev, actor, input, now), e, input, now);
    if filled.Fail? then filled
    else
      var t := DropEdit(e, filled.value);
      Ok(t.(outbox := OutboxRows(rule, e, t, input)))
  }

  /** Decides the transition for event `ev` on errand `e`, or the first check that fails. */
  function Next(e: Errand, ev: Event, actor: Actor, input: EventInput, now: Time): (r: Outcome<Transition>) {
    if e.status.Unknown? then Fail(InvalidArgument)
    else if e.status.Terminal() then Fail(ErrandUnavailable)
    else
      var rules := RulesFor(e.status, ev);
      if |rules| == 0 then Fail(if MovedPast(e.status, ev) then ErrandUnavailable else InvalidTransition)
      else
        var denied := CheckActor(rules[0].actor, e, actor, input);
        if denied.Some? then Fail(denied.value)
        else
          var chosen := ChooseRule(rules, e, now);
          if chosen.Fail? then Fail(chosen.code)
          else if chosen.value.needsReason && IsBlank(input.reason) then Fail(ValidationFailed)
          else Build(chosen.value, e, ev, actor, input, now)
  }
}
