/** What each event means: when `Next` accepts it, what it changes, and which credit command it sends.
    From that, what every reachable errand looks like. */
module Lifecycle {
  import opened Prelude
  import opened Keys
  import opened Errands
  import opened StateMachine
  import opened RuleTable
  import opened Saga

  // ---------------------------------------------------------------- the meaning of an event

  predicate IsRequester(e: Errand, a: Actor) {
    a.kind == RequesterActor && a.id != "" && a.id == e.requesterId
  }

  predicate IsCourier(e: Errand, a: Actor) {
    a.kind == CourierActor && a.id != "" && a.id == e.courierId
  }

  predicate IsAdmin(a: Actor) {
    a.kind == AdminActor && a.id != ""
  }

  predicate DeadlinePassed(d: Option<Time>, now: Time) {
    d.Some? && Passed(d.value, now)
  }

  /** When an event applies to an errand. */
  predicate Enabled(e: Errand, ev: Event, a: Actor, input: EventInput, now: Time) {
    match ev
    case Submit =>
      e.status == NoStatus && IsRequester(e, a) && e.id != "" && e.version == 0 && DetailsOk(e.details, now, true)
    case ReservationConfirmed | ReservationRefused | ReservationFailed => e.status == PendingReservation && a == SYSTEM
    case Edit => e.status == Open && IsRequester(e, a) && e.pendingEdit.None? && input.edit.Some?
              && DetailsOk(input.edit.value, now, input.edit.value.acceptanceDeadline != e.details.acceptanceDeadline)
    case EditConfirmed | EditRefused =>
      e.status == Open && a == SYSTEM && e.pendingEdit.Some? && input.editKey == e.pendingEdit.value.key
    case Accept => e.status == Open && a.kind == CourierActor && a.id != "" && a.id != e.requesterId
                && !input.previouslyWithdrew && !input.restricted && !Passed(e.details.acceptanceDeadline, now)
                   && input.deadlines.Valid()
    case Cancel => e.status == Open && IsRequester(e, a)
    case AcceptanceDeadlinePassed => e.status == Open && a == SYSTEM && Passed(e.details.acceptanceDeadline, now)
    case Withdraw | PickUp => e.status == Assigned && IsCourier(e, a)
    case PickupDeadlinePassed => e.status == Assigned && a == SYSTEM && DeadlinePassed(e.pickupDeadline, now)
    case Deliver => e.status == PickedUp && IsCourier(e, a) && input.deadlines.Valid()
    case ReportIssue => e.status == PickedUp && IsCourier(e, a) && !IsBlank(input.reason)
    case DeliveryDeadlinePassed => e.status == PickedUp && a == SYSTEM && DeadlinePassed(e.deliveryDeadline, now)
    case Confirm => e.status == Delivered && IsRequester(e, a)
    case VerificationLapsed => e.status == Delivered && a == SYSTEM && DeadlinePassed(e.verificationDeadline, now)
    case Dispute => e.status == Delivered && IsRequester(e, a) && !IsBlank(input.reason)
    case AdminComplete | AdminRefund => e.status == ReviewRequired && IsAdmin(a) && !IsBlank(input.reason)
  }

  predicate ChangesReward(e: Errand, input: EventInput) {
    input.edit.Some? && input.edit.value.reward != e.details.reward
  }

  /** The errand after an enabled event: these columns change and no others. */
  function Effect(e: Errand, ev: Event, a: Actor, input: EventInput, now: Time): (e': Errand)
    requires Enabled(e, ev, a, input, now)
  {
    var b := e.(version := e.version + 1, updatedAt := now);
    var dropped := b.(pendingEdit := None);
    match ev
    case Submit => dropped.(status := PendingReservation, createdAt := now)
    case ReservationConfirmed => b.(status := Open)
    case ReservationRefused | ReservationFailed => dropped.(status := Rejected)
    case Edit =>
      if ChangesReward(e, input)
      then e.(updatedAt := now,
              pendingEdit := Some(PendingEdit(input.edit.value, KeyOf(e.id, Slot(Adjust, e.version)), now)))
      else b.(details := input.edit.value)
    case EditConfirmed => dropped.(details := e.pendingEdit.value.details)
    case EditRefused => dropped
    case Accept => dropped.(status := Assigned, courierId := a.id,
                            pickupDeadline := Some(now + input.deadlines.pickupAfter),
                            deliveryDeadline := Some(now + input.deadlines.deliveryAfter))
    case Cancel => dropped.(status := Cancelled)
    case AcceptanceDeadlinePassed => dropped.(status := Expired)
    case Withdraw | PickupDeadlinePassed =>
      var left :=
        (if Passed(e.details.acceptanceDeadline, now) then dropped.(status := Expired) else b.(status := Open));
      left.(courierId := "", pickupDeadline := None, deliveryDeadline := None)
    case PickUp => dropped.(status := PickedUp)
    case Deliver => dropped.(status := Delivered, deliveredAt := Some(now),
                             verificationDeadline := Some(now + input.deadlines.verificationAfter))
    case ReportIssue => dropped.(status := ReviewRequired, reviewReason := CourierIssue)
    case DeliveryDeadlinePassed => dropped.(status := ReviewRequired, reviewReason := DeliveryOverdue)
    case Confirm | VerificationLapsed | AdminComplete => dropped.(status := Completed)
    case Dispute => dropped.(status := ReviewRequired, reviewReason := RequesterDispute)
    case AdminRefund => dropped.(status := Refunded)
  }

  /** The credit command an enabled event sends. */
  datatype CreditOrder = NoOrder | OrderReserve | OrderRelease | OrderTransfer | OrderAdjust | OrderRevert

  function CreditOrderOf(e: Errand, ev: Event, input: EventInput, now: Time): (o: CreditOrder) {
    match ev
    case Submit => OrderReserve
    case ReservationFailed | Cancel | AcceptanceDeadlinePassed | AdminRefund => OrderRelease
    case Withdraw | PickupDeadlinePassed => if Passed(e.details.acceptanceDeadline, now) then OrderRelease else NoOrder
    case Confirm | VerificationLapsed | AdminComplete => OrderTransfer
    case Edit => if ChangesReward(e, input) then OrderAdjust else NoOrder
    case Accept => if e.pendingEdit.Some? then OrderRevert else NoOrder
    case EditRefused => if e.pendingEdit.Some? && input.editTimedOut then OrderRevert else NoOrder
    case _ => NoOrder
  }

  /** The outbox row of that command. `e'` is the errand afterwards. */
  function EmissionOf(e: Errand, e': Errand, o: CreditOrder): (x: Emission) {
    var base := CreditCommand(e.id, e'.version, e.requesterId, "", 0, 0, 0);
    match o
    case NoOrder => Quiet
    case OrderReserve => Row(e.id, RESERVE, ReserveKind, base.(amount := e.details.reward))
    case OrderRelease => Row(e.id, RELEASE, ReleaseKind, base)
    case OrderTransfer => Row(e.id, TRANSFER, TransferKind, base.(courierId := e.courierId, amount := e.details.reward))
    case OrderAdjust =>
      Row(e.id, Slot(Adjust, e.version), AdjustKind,
          base.(newAmount := if e'.pendingEdit.Some? then e'.pendingEdit.value.details.reward else 0,
                seqNo := 2 * e.version))
    case OrderRevert =>
      Row(e.id, Slot(AdjustRevert, e'.version), AdjustKind,
          base.(newAmount := e.details.reward, seqNo := 2 * e'.version - 1))
  }

  function Row(id: string, slot: Slot, kind: RowKind, cmd: CreditCommand): (x: Emission) {
    Emits(slot, OutboxRow(kind, KeyOf(id, slot), id, CommandPayload(cmd)))
  }

  function RowsOf(x: Emission): (rows: seq<OutboxRow>) {
    if x.Quiet? then [] else [x.row]
  }

  /** The events an enabled event announces, in order. */
  function AnnouncementsOf(e: Errand, ev: Event, input: EventInput, now: Time): (names: seq<EventName>) {
    match ev
    case Submit => [Placed]
    case ReservationConfirmed => [Opened]
    case ReservationRefused | ReservationFailed => [RejectedEvent]
    case Edit => if ChangesReward(e, input) then [EditRequested] else [Edited]
    case EditConfirmed => [Edited]
    case EditRefused => [EditRejected]
    case Accept => [Accepted]
    case Cancel => [CancelledEvent]
    case AcceptanceDeadlinePassed => [ExpiredEvent]
    case Withdraw | PickupDeadlinePassed =>
      if Passed(e.details.acceptanceDeadline, now) then [Withdrawn, ExpiredEvent] else [Withdrawn]
    case PickUp => [PickedUpEvent]
    case Deliver => [DeliveredEvent]
    case ReportIssue | DeliveryDeadlinePassed | Dispute => [ReviewRequiredEvent]
    case Confirm | VerificationLapsed | AdminComplete => [CompletedEvent]
    case AdminRefund => [RefundedEvent]
  }

  /** The reason on record: the one given, or why credit-service or the reconciler ended it. */
  function ReasonOf(ev: Event, input: EventInput): (reason: string) {
    if input.reason != "" then input.reason
    else
      match ev
      case ReservationRefused => "INSUFFICIENT_CREDITS"
      case ReservationFailed => "RESERVATION_FAILED"
      case EditRefused => if input.editTimedOut then "EDIT_FAILED" else "INSUFFICIENT_CREDITS"
      case _ => ""
  }

  /** One announcement. It names the courier involved, also one who has just left; a requested edit without its contact
      person; and whether an accept dropped an edit. */
  function Announcement(name: EventName, e: Errand, e': Errand, ev: Event, a: Actor, reason: string,
                        now: Time): (row: OutboxRow) {
    OutboxRow(EventKind(name), KeyOf(e.id, Slot(Emit(name), e'.version)), e.id,
              EventPayload(EventData(
                e.id, e'.version, ev, e.status, e'.status, a, reason, e'.reviewReason,
                e.requesterId, if e.courierId != "" then e.courierId else e'.courierId,
                e'.details.reward, now,
                if ev == Edit && e'.pendingEdit.Some?
                then Some(e'.pendingEdit.value.details.(contactName := "", contactMobile := ""))
                else None,
                ev == Accept && e.pendingEdit.Some?)))
  }

  function Announcements(names: seq<EventName>, e: Errand, e': Errand, ev: Event, a: Actor, reason: string,
                         now: Time): (rows: seq<OutboxRow>) {
    seq(|names|, i requires 0 <= i < |names| => Announcement(names[i], e, e', ev, a, reason, now))
  }

  /** Everything an enabled event puts into the outbox. */
  function OutboxOf(e: Errand, ev: Event, a: Actor, input: EventInput, now: Time): (rows: seq<OutboxRow>)
    requires Enabled(e, ev, a, input, now)
  {
    var e' := Effect(e, ev, a, input, now);
    RowsOf(EmissionOf(e, e', CreditOrderOf(e, ev, input, now)))
      + Announcements(AnnouncementsOf(e, ev, input, now), e, e', ev, a, ReasonOf(ev, input), now)
  }

  /** `t` is the whole consequence of an enabled event. */
  ghost predicate Means(t: Transition, e: Errand, ev: Event, a: Actor, input: EventInput, now: Time)
    requires Enabled(e, ev, a, input, now)
  {
    var e' := Effect(e, ev, a, input, now);
    && t.errandId == e.id && t.from == e.status && t.event == ev && t.actor == a && t.at == now
    && t.expectedVersion == e.version && t.expectedPendingEditKey == e.EditKey()
    && t.ApplyTo(e) == e' && t.to == e'.status && t.newVersion == e'.version
    && t.reason == ReasonOf(ev, input)
    && t.outbox == OutboxOf(e, ev, a, input, now)
  }

  /** Distinct events; a reward-edit request announces itself and nothing else does. */
  ghost predicate NamesOk(names: seq<EventName>, requested: bool) {
    && (if requested then names == [EditRequested] else EditRequested !in names)
    && (forall i, j :: 0 <= i < j < |names| ==> names[i] != names[j])
  }

  lemma AnnouncementsDiffer(e: Errand, ev: Event, input: EventInput, now: Time)
    ensures NamesOk(AnnouncementsOf(e, ev, input, now), ev == Edit && ChangesReward(e, input))
  {
  }

  // ---------------------------------------------------------------- Next does what its event means

  /** Who may cause each event. */
  function ActorOf(ev: Event): (rel: Relationship) {
    match ev
    case Submit | Edit | Cancel | Confirm | Dispute => RelRequester
    case Accept => RelEligibleCourier
    case Withdraw | PickUp | Deliver | ReportIssue => RelAssignedCourier
    case AdminComplete | AdminRefund => RelAdmin
    case _ => RelSystem
  }

  predicate NeedsReason(ev: Event) {
    ev == ReportIssue || ev == Dispute || ev == AdminComplete || ev == AdminRefund
  }

  predicate GuardOk(e: Errand, ev: Event, now: Time) {
    match ev
    case Accept => !Passed(e.details.acceptanceDeadline, now)
    case AcceptanceDeadlinePassed => Passed(e.details.acceptanceDeadline, now)
    case PickupDeadlinePassed => DeadlinePassed(e.pickupDeadline, now)
    case DeliveryDeadlinePassed => DeadlinePassed(e.deliveryDeadline, now)
    case VerificationLapsed => DeadlinePassed(e.verificationDeadline, now)
    case _ => true
  }

  /** The rule an enabled event follows. */
  function TheRule(e: Errand, ev: Event, now: Time): (r: Rule)
  {
    var rules := Rules(ev);
    if (ev == Withdraw || ev == PickupDeadlinePassed) && Passed(e.details.acceptanceDeadline, now)
    then rules[1]
    else rules[0]
  }

  lemma RuleAttributes(from: Status, ev: Event)
    ensures |RulesFor(from, ev)| > 0 <==> from == FromOf(ev)
    ensures from == FromOf(ev) ==> RulesFor(from, ev) == Rules(ev)
    ensures forall r :: r in RulesFor(from, ev) ==> r.actor == ActorOf(ev) && r.needsReason == NeedsReason(ev)
  {
    hide RulesFor, Rules, ActorOf, NeedsReason;
    TableGives(from, ev);
    RulesParts(ev);
  }

  /** The guards of an event's rules; `late` is the second rule of a withdrawal. */
  function GuardsOf(ev: Event, late: bool): (guards: seq<Guard>) {
    match ev
    case Accept => [BeforeAcceptanceDeadline]
    case AcceptanceDeadlinePassed => [AfterAcceptanceDeadline]
    case DeliveryDeadlinePassed => [AfterDeliveryDeadline]
    case VerificationLapsed => [AfterVerificationDeadline]
    case Withdraw => [if late then AfterAcceptanceDeadline else BeforeAcceptanceDeadline]
    case PickupDeadlinePassed =>
      [AfterPickupDeadline, if late then AfterAcceptanceDeadline else BeforeAcceptanceDeadline]
    case _ => []
  }

  /** Each rule asks for its event's actor, reason and guards. */
  ghost predicate PartsOk(rules: seq<Rule>) {
    forall k :: 0 <= k < |rules| ==>
      && rules[k].actor == ActorOf(rules[k].event) && rules[k].needsReason == NeedsReason(rules[k].event)
      && rules[k].guards == GuardsOf(rules[k].event, k % 2 == 1)
  }

  lemma EarlyParts()
    ensures PartsOk(SUBMISSION) && PartsOk(RESERVATION)
  {
  }

  lemma OpenParts()
    ensures PartsOk(OPEN)
  {
  }

  lemma AssignedParts()
    ensures PartsOk(ASSIGNED)
  {
    assert ASSIGNED[0].guards == GuardsOf(Withdraw, false) && ASSIGNED[1].guards == GuardsOf(Withdraw, true);
    assert ASSIGNED[2].guards == GuardsOf(PickupDeadlinePassed, false);
    assert ASSIGNED[3].guards == GuardsOf(PickupDeadlinePassed, true);
    assert ASSIGNED[4].guards == GuardsOf(PickUp, false);
    hide GuardsOf;
  }

  lemma PickedUpParts()
    ensures PartsOk(PICKED_UP)
  {
  }

  lemma DeliveredParts()
    ensures PartsOk(DELIVERED)
  {
  }

  lemma ReviewParts()
    ensures PartsOk(REVIEW)
  {
  }

  lemma GroupParts(from: Status)
    ensures PartsOk(Group(from))
  {
    EarlyParts();
    OpenParts();
    AssignedParts();
    PickedUpParts();
    DeliveredParts();
    ReviewParts();
    hide SUBMISSION, RESERVATION, OPEN, ASSIGNED, PICKED_UP, DELIVERED, REVIEW;
  }

  lemma RulesParts(ev: Event)
    ensures forall r :: r in Rules(ev) ==> r.actor == ActorOf(ev) && r.needsReason == NeedsReason(ev)
  {
    hide Group, ActorOf, NeedsReason, FromOf, Span;
    GroupFits(ev);
    GroupParts(FromOf(ev));
  }

  lemma OneGuard(r: Rule, g: Guard, e: Errand, now: Time)
    requires r.guards == [g]
    ensures RuleHolds(r, e, now) <==> GuardHolds(g, e, now)
  {
    assert g in r.guards;
  }

  lemma TwoGuards(r: Rule, g: Guard, h: Guard, e: Errand, now: Time)
    requires r.guards == [g, h]
    ensures RuleHolds(r, e, now) <==> GuardHolds(g, e, now) && GuardHolds(h, e, now)
  {
    assert r.guards[0] == g && r.guards[1] == h;
  }

  lemma RulesGuards(ev: Event)
    ensures var rules := Rules(ev);
      rules[0].guards == GuardsOf(ev, false) && (|rules| > 1 ==> rules[1].guards == GuardsOf(ev, true))
  {
    hide Group, FromOf;
    GroupFits(ev);
    GroupParts(FromOf(ev));
    var rules := Group(FromOf(ev));
    var (i, j) := Span(ev);
    assert IsFor(rules[i], FromOf(ev), ev) && (i + 1 < j ==> IsFor(rules[i + 1], FromOf(ev), ev));
  }

  lemma ChoosesTheRule(e: Errand, ev: Event, now: Time)
    ensures var chosen := ChooseRule(Rules(ev), e, now);
            if GuardOk(e, ev, now) then chosen == Ok(TheRule(e, ev, now))
            else chosen == Fail(if ev == Accept then ErrandUnavailable else InvalidTransition)
  {
    hide Rules;
    RulesGuards(ev);
    var rules := Rules(ev);
    match ev
    case Accept => OneGuard(rules[0], BeforeAcceptanceDeadline, e, now);
    case AcceptanceDeadlinePassed => OneGuard(rules[0], AfterAcceptanceDeadline, e, now);
    case DeliveryDeadlinePassed => OneGuard(rules[0], AfterDeliveryDeadline, e, now);
    case VerificationLapsed => OneGuard(rules[0], AfterVerificationDeadline, e, now);
    case Withdraw =>
      OneGuard(rules[0], BeforeAcceptanceDeadline, e, now);
      OneGuard(rules[1], AfterAcceptanceDeadline, e, now);
    case PickupDeadlinePassed =>
      TwoGuards(rules[0], AfterPickupDeadline, BeforeAcceptanceDeadline, e, now);
      TwoGuards(rules[1], AfterPickupDeadline, AfterAcceptanceDeadline, e, now);
    case _ =>
  }

  /** What is left of `Next` in the one state an event leaves. */
  lemma NextInState(e: Errand, ev: Event, a: Actor, input: EventInput, now: Time)
    requires e.status == FromOf(ev)
    ensures var denied := CheckActor(ActorOf(ev), e, a, input);
      Next(e, ev, a, input, now) ==
        if denied.Some? then Fail(denied.value)
        else if !GuardOk(e, ev, now) then Fail(if ev == Accept then ErrandUnavailable else InvalidTransition)
        else if NeedsReason(ev) && IsBlank(input.reason) then Fail(ValidationFailed)
        else Build(TheRule(e, ev, now), e, ev, a, input, now)
  {
    hide RulesFor, ChooseRule, Build, TheRule, IsBlank, MovedPast, GuardOk, CheckActor, NeedsReason, ActorOf, Rules;
    RuleAttributes(e.status, ev);
    ChoosesTheRule(e, ev, now);
    TheRuleFits(e, ev, now);
    hide FromOf;
    assert RulesFor(e.status, ev)[0] in RulesFor(e.status, ev);
  }

  /** `Next` accepts exactly the enabled events, and then builds from the event's rule. */
  lemma NextAccepts(e: Errand, ev: Event, a: Actor, input: EventInput, now: Time)
    ensures Next(e, ev, a, input, now).Ok? <==> Enabled(e, ev, a, input, now)
    ensures Enabled(e, ev, a, input, now) ==>
              e.status == FromOf(ev) && Next(e, ev, a, input, now) == Build(TheRule(e, ev, now), e, ev, a, input, now)
  {
    hide RulesFor, ChooseRule, Build, TheRule, IsBlank, MovedPast, Enabled, ActorOk, InputOk, GuardOk, CheckActor,
         NeedsReason, ActorOf, FromOf;
    EnabledMeans(e, ev, a, input, now);
    if e.status == FromOf(ev) {
      hide Next;
      NextInState(e, ev, a, input, now);
      BuildAccepts(TheRule(e, ev, now), e, ev, a, input, now);
      ActorAllowed(e, ev, a, input);
    } else {
      RuleAttributes(e.status, ev);
    }
  }

  lemma TheRuleFits(e: Errand, ev: Event, now: Time)
    requires e.status == FromOf(ev)
    ensures TheRule(e, ev, now) in RulesFor(e.status, ev)
    ensures !e.status.Terminal() && !e.status.Unknown?
  {
    hide RulesFor, Rules;
    TableGives(e.status, ev);
  }

  /** The actor an event needs. */
  predicate ActorOk(e: Errand, ev: Event, a: Actor, input: EventInput) {
    match ActorOf(ev)
    case RelRequester => IsRequester(e, a)
    case RelAssignedCourier => IsCourier(e, a)
    case RelEligibleCourier =>
      a.kind == CourierActor && a.id != "" && a.id != e.requesterId && !input.previouslyWithdrew && !input.restricted
    case RelAdmin => IsAdmin(a)
    case RelSystem => a == SYSTEM
  }

  lemma ActorAllowed(e: Errand, ev: Event, a: Actor, input: EventInput)
    ensures CheckActor(ActorOf(ev), e, a, input).None? <==> ActorOk(e, ev, a, input)
  {
    hide ActorOf;
  }

  lemma EnabledMeans(e: Errand, ev: Event, a: Actor, input: EventInput, now: Time)
    ensures Enabled(e, ev, a, input, now) <==>
              && e.status == FromOf(ev) && ActorOk(e, ev, a, input) && GuardOk(e, ev, now)
              && (NeedsReason(ev) ==> !IsBlank(input.reason)) && InputOk(e, ev, input, now)
  {
    hide DetailsOk, IsBlank, DeadlinePassed;
  }

  /** The event-specific checks. */
  predicate InputOk(e: Errand, ev: Event, input: EventInput, now: Time) {
    match ev
    case Submit => e.id != "" && e.version == 0 && DetailsOk(e.details, now, true)
    case Edit => e.pendingEdit.None? && input.edit.Some?
              && DetailsOk(input.edit.value, now, input.edit.value.acceptanceDeadline != e.details.acceptanceDeadline)
    case EditConfirmed | EditRefused => e.pendingEdit.Some? && input.editKey == e.pendingEdit.value.key
    case Accept | Deliver => input.deadlines.Valid()
    case _ => true
  }

  lemma BuildAccepts(rule: Rule, e: Errand, ev: Event, a: Actor, input: EventInput, now: Time)
    ensures Build(rule, e, ev, a, input, now).Ok? <==> InputOk(e, ev, input, now)
  {
    hide OutboxRows, KeyOf, DetailsOk;
  }

  function ReviewOf(ev: Event): (r: ReviewReason) {
    match ev
    case ReportIssue => CourierIssue
    case DeliveryDeadlinePassed => DeliveryOverdue
    case Dispute => RequesterDispute
    case _ => NoReview
  }

  function ToOf(e: Errand, ev: Event, now: Time): (s: Status) {
    match ev
    case Submit => PendingReservation
    case ReservationConfirmed | Edit | EditConfirmed | EditRefused => Open
    case ReservationRefused | ReservationFailed => Rejected
    case Accept => Assigned
    case Cancel => Cancelled
    case AcceptanceDeadlinePassed => Expired
    case Withdraw | PickupDeadlinePassed => if Passed(e.details.acceptanceDeadline, now) then Expired else Open
    case PickUp => PickedUp
    case Deliver => Delivered
    case ReportIssue | DeliveryDeadlinePassed | Dispute => ReviewRequired
    case Confirm | VerificationLapsed | AdminComplete => Completed
    case AdminRefund => Refunded
  }

  function EffectOf(e: Errand, ev: Event, now: Time): (c: CreditEffect) {
    match ev
    case Submit => CreditReserve
    case ReservationFailed | Cancel | AcceptanceDeadlinePassed | AdminRefund => CreditRelease
    case Withdraw | PickupDeadlinePassed =>
      if Passed(e.details.acceptanceDeadline, now) then CreditRelease else NoCredit
    case Confirm | VerificationLapsed | AdminComplete => CreditTransfer
    case _ => NoCredit
  }

  /** Only the parts of a rule that `Build` reads. */
  ghost predicate RuleIs(r: Rule, e: Errand, ev: Event, now: Time) {
    && r.to == ToOf(e, ev, now) && r.review == ReviewOf(ev) && r.credit == EffectOf(e, ev, now)
    && r.emits == AnnouncementsOf(e, ev, NO_INPUT, now)
  }

  /** Each rule of a group that an errand can follow says what its event does. */
  ghost predicate RulesAre(rules: seq<Rule>, e: Errand, now: Time) {
    forall k :: 0 <= k < |rules| && (rules[k].event == Withdraw || rules[k].event == PickupDeadlinePassed ==>
                                       (k % 2 == 1 <==> Passed(e.details.acceptanceDeadline, now))) ==>
      RuleIs(rules[k], e, rules[k].event, now)
  }

  lemma EarlyRulesAre(e: Errand, now: Time)
    ensures RulesAre(SUBMISSION, e, now) && RulesAre(RESERVATION, e, now)
  {
  }

  lemma OpenRulesAre(e: Errand, now: Time)
    ensures RulesAre(OPEN, e, now)
  {
  }

  lemma AssignedRulesAre(e: Errand, now: Time)
    ensures RulesAre(ASSIGNED, e, now)
  {
  }

  lemma PickedUpRulesAre(e: Errand, now: Time)
    ensures RulesAre(PICKED_UP, e, now)
  {
  }

  lemma DeliveredRulesAre(e: Errand, now: Time)
    ensures RulesAre(DELIVERED, e, now)
  {
  }

  lemma ReviewRulesAre(e: Errand, now: Time)
    ensures RulesAre(REVIEW, e, now)
  {
  }

  lemma GroupRulesAre(from: Status, e: Errand, now: Time)
    ensures RulesAre(Group(from), e, now)
  {
    EarlyRulesAre(e, now);
    OpenRulesAre(e, now);
    AssignedRulesAre(e, now);
    PickedUpRulesAre(e, now);
    DeliveredRulesAre(e, now);
    ReviewRulesAre(e, now);
    hide RulesAre, SUBMISSION, RESERVATION, OPEN, ASSIGNED, PICKED_UP, DELIVERED, REVIEW;
    NoRules(e, now);
  }

  lemma NoRules(e: Errand, now: Time)
    ensures RulesAre([], e, now)
  {
    hide RuleIs;
  }

  lemma TheRuleIs(e: Errand, ev: Event, now: Time)
    ensures RuleIs(TheRule(e, ev, now), e, ev, now)
  {
    hide Group, RuleIs, FromOf;
    GroupFits(ev);
    GroupRulesAre(FromOf(ev), e, now);
    var rules := Group(FromOf(ev));
    var (i, j) := Span(ev);
    assert IsFor(rules[i], FromOf(ev), ev) && (i + 1 < j ==> IsFor(rules[i + 1], FromOf(ev), ev));
  }

  lemma BuildHeader(r: Rule, e: Errand, ev: Event, a: Actor, input: EventInput, now: Time)
    requires Enabled(e, ev, a, input, now) && RuleIs(r, e, ev, now) && Build(r, e, ev, a, input, now).Ok?
    ensures var t := Build(r, e, ev, a, input, now).value;
      && t.errandId == e.id && t.from == e.status && t.event == ev && t.actor == a && t.at == now
      && t.expectedVersion == e.version && t.expectedPendingEditKey == e.EditKey()
  {
    hide OutboxRows, KeyOf, DetailsOk, IsBlank;
  }

  lemma BuildEffect(r: Rule, e: Errand, ev: Event, a: Actor, input: EventInput, now: Time)
    requires Enabled(e, ev, a, input, now) && RuleIs(r, e, ev, now) && Build(r, e, ev, a, input, now).Ok?
    ensures Build(r, e, ev, a, input, now).value.ApplyTo(e) == Effect(e, ev, a, input, now)
  {
    hide Build, Effect, Enabled, RuleIs;
    match ev
    case Edit | EditConfirmed | EditRefused => EditEffect(r, e, ev, a, input, now);
    case Accept | Withdraw | PickupDeadlinePassed | Deliver => CourierEffect(r, e, ev, a, input, now);
    case Submit | ReservationConfirmed | ReservationRefused | ReservationFailed =>
      ReservationEffect(r, e, ev, a, input, now);
    case _ => PlainEffect(r, e, ev, a, input, now);
  }

  lemma EditEffect(r: Rule, e: Errand, ev: Event, a: Actor, input: EventInput, now: Time)
    requires ev == Edit || ev == EditConfirmed || ev == EditRefused
    requires Enabled(e, ev, a, input, now) && RuleIs(r, e, ev, now) && Build(r, e, ev, a, input, now).Ok?
    ensures Build(r, e, ev, a, input, now).value.ApplyTo(e) == Effect(e, ev, a, input, now)
  {
    hide OutboxRows, KeyOf, DetailsOk, IsBlank;
  }

  lemma CourierEffect(r: Rule, e: Errand, ev: Event, a: Actor, input: EventInput, now: Time)
    requires ev == Accept || ev == Withdraw || ev == PickupDeadlinePassed || ev == Deliver
    requires Enabled(e, ev, a, input, now) && RuleIs(r, e, ev, now) && Build(r, e, ev, a, input, now).Ok?
    ensures Build(r, e, ev, a, input, now).value.ApplyTo(e) == Effect(e, ev, a, input, now)
  {
    hide OutboxRows, KeyOf, DetailsOk, IsBlank;
  }

  lemma ReservationEffect(r: Rule, e: Errand, ev: Event, a: Actor, input: EventInput, now: Time)
    requires ev == Submit || ev == ReservationConfirmed || ev == ReservationRefused || ev == ReservationFailed
    requires Enabled(e, ev, a, input, now) && RuleIs(r, e, ev, now) && Build(r, e, ev, a, input, now).Ok?
    ensures Build(r, e, ev, a, input, now).value.ApplyTo(e) == Effect(e, ev, a, input, now)
  {
    hide OutboxRows, KeyOf, DetailsOk, IsBlank;
  }

  predicate HasSpecialParts(ev: Event) {
    || ev == Submit || ev == ReservationConfirmed || ev == ReservationRefused || ev == ReservationFailed
    || ev == Edit || ev == EditConfirmed || ev == EditRefused
    || ev == Accept || ev == Withdraw || ev == PickupDeadlinePassed || ev == Deliver
  }

  /** Nothing but the state, the version and the review reason, and a dropped edit. */
  lemma PlainEffect(r: Rule, e: Errand, ev: Event, a: Actor, input: EventInput, now: Time)
    requires !HasSpecialParts(ev)
    requires Enabled(e, ev, a, input, now) && RuleIs(r, e, ev, now) && Build(r, e, ev, a, input, now).Ok?
    ensures Build(r, e, ev, a, input, now).value.ApplyTo(e) == Effect(e, ev, a, input, now)
  {
    hide Effect, Enabled, Build, ToOf, ReviewOf, HasSpecialParts, OutboxRows, EffectOf, DropEdit;
    PlainParts(e, ev, a, input, now);
    PlainBuild(r, e, ev, a, input, now);
    var t := Draft(r, e, ev, a, input, now);
    PlainApplied(r, e, ev, a, input, now);
    assert Build(r, e, ev, a, input, now).value.ApplyTo(e) == DropEdit(e, t).ApplyTo(e);
  }

  lemma PlainBuild(r: Rule, e: Errand, ev: Event, a: Actor, input: EventInput, now: Time)
    requires !HasSpecialParts(ev)
    ensures var t := DropEdit(e, Draft(r, e, ev, a, input, now));
      Build(r, e, ev, a, input, now) == Ok(t.(outbox := OutboxRows(r, e, t, input)))
  {
    hide OutboxRows, DropEdit;
  }

  lemma PlainApplied(r: Rule, e: Errand, ev: Event, a: Actor, input: EventInput, now: Time)
    requires r.to != Open && e.status != NoStatus
    ensures DropEdit(e, Draft(r, e, ev, a, input, now)).ApplyTo(e)
         == e.(version := e.version + 1, updatedAt := now, status := r.to, pendingEdit := None,
               reviewReason := if r.review == NoReview then e.reviewReason else r.review)
  {
  }

  lemma PlainParts(e: Errand, ev: Event, a: Actor, input: EventInput, now: Time)
    requires !HasSpecialParts(ev) && Enabled(e, ev, a, input, now)
    ensures Effect(e, ev, a, input, now)
         == e.(version := e.version + 1, updatedAt := now, status := ToOf(e, ev, now), pendingEdit := None,
               reviewReason := if ReviewOf(ev) == NoReview then e.reviewReason else ReviewOf(ev))
    ensures ToOf(e, ev, now) != Open && e.status != NoStatus
  {
    hide DetailsOk, IsBlank, KeyOf;
  }

  /** A filled-in transition, before its outbox rows. */
  ghost predicate Filled(t: Transition, e: Errand, ev: Event, a: Actor, input: EventInput, now: Time)
    requires Enabled(e, ev, a, input, now)
  {
    var e' := Effect(e, ev, a, input, now);
    && t.event == ev && t.from == e.status && t.actor == a && t.at == now && t.expectedVersion == e.version
    && t.ApplyTo(e) == e' && t.reason == ReasonOf(ev, input)
    && (t.changes.pendingEdit.SetTo? <==> ev == Edit && ChangesReward(e, input))
  }

  lemma BuildFills(r: Rule, e: Errand, ev: Event, a: Actor, input: EventInput, now: Time) returns (t: Transition)
    requires Enabled(e, ev, a, input, now) && RuleIs(r, e, ev, now) && Build(r, e, ev, a, input, now).Ok?
    ensures Filled(t, e, ev, a, input, now)
    ensures Build(r, e, ev, a, input, now).value == t.(outbox := OutboxRows(r, e, t, input))
  {
    hide OutboxRows, KeyOf, DetailsOk, IsBlank;
    t := DropEdit(e, ApplyEvent(Draft(r, e, ev, a, input, now), e, input, now).value);
    BuildEffect(r, e, ev, a, input, now);
    assert t.ApplyTo(e) == t.(outbox := OutboxRows(r, e, t, input)).ApplyTo(e);
    hide Effect;
  }

  lemma FilledRows(r: Rule, t: Transition, e: Errand, ev: Event, a: Actor, input: EventInput, now: Time)
    requires Enabled(e, ev, a, input, now) && RuleIs(r, e, ev, now) && Filled(t, e, ev, a, input, now)
    ensures CreditRows(r, e, t, input)
      == RowsOf(EmissionOf(e, Effect(e, ev, a, input, now), CreditOrderOf(e, ev, input, now)))
  {
    hide Enabled, RuleIs, Filled, Effect, EmissionOf, CreditOrderOf, CreditRows;
    match ev
    case Edit | Accept | EditRefused => FilledAdjusts(r, t, e, ev, a, input, now);
    case _ => FilledOrders(r, t, e, ev, a, input, now);
  }

  lemma FilledAdjusts(r: Rule, t: Transition, e: Errand, ev: Event, a: Actor, input: EventInput, now: Time)
    requires Enabled(e, ev, a, input, now) && RuleIs(r, e, ev, now) && Filled(t, e, ev, a, input, now)
    requires ev == Edit || ev == Accept || ev == EditRefused
    ensures CreditRows(r, e, t, input)
      == RowsOf(EmissionOf(e, Effect(e, ev, a, input, now), CreditOrderOf(e, ev, input, now)))
  {
    hide KeyOf, DetailsOk, IsBlank, AnnouncementsOf;
  }

  lemma FilledOrders(r: Rule, t: Transition, e: Errand, ev: Event, a: Actor, input: EventInput, now: Time)
    requires Enabled(e, ev, a, input, now) && RuleIs(r, e, ev, now) && Filled(t, e, ev, a, input, now)
    requires ev != Edit && ev != Accept && ev != EditRefused
    ensures CreditRows(r, e, t, input)
      == RowsOf(EmissionOf(e, Effect(e, ev, a, input, now), CreditOrderOf(e, ev, input, now)))
  {
    hide KeyOf, DetailsOk, IsBlank, AnnouncementsOf;
  }

  /** The announcements of a filled-in transition are the event's own. */
  lemma FilledAnnouncement(t: Transition, e: Errand, ev: Event, a: Actor, input: EventInput, now: Time, name: EventName)
    requires Enabled(e, ev, a, input, now) && Filled(t, e, ev, a, input, now)
    ensures EventRow(name, e, t) == Announcement(name, e, Effect(e, ev, a, input, now), ev, a, ReasonOf(ev, input), now)
  {
    FilledEdit(t, e, ev, a, input, now);
    hide KeyOf, ReasonOf, Enabled, Effect, ChangesReward;
    var e' := Effect(e, ev, a, input, now);
    assert t.to == e'.status && t.newVersion == e'.version;
  }

  lemma FilledEdit(t: Transition, e: Errand, ev: Event, a: Actor, input: EventInput, now: Time)
    requires Enabled(e, ev, a, input, now) && Filled(t, e, ev, a, input, now)
    ensures EditRequestedBy(t) <==> ev == Edit && Effect(e, ev, a, input, now).pendingEdit.Some?
    ensures EditRequestedBy(t) ==> t.changes.pendingEdit.value == Effect(e, ev, a, input, now).pendingEdit.value
  {
    hide KeyOf, ReasonOf, DetailsOk, IsBlank;
  }

  lemma FilledNames(r: Rule, t: Transition, e: Errand, ev: Event, a: Actor, input: EventInput, now: Time)
    requires Enabled(e, ev, a, input, now) && RuleIs(r, e, ev, now) && Filled(t, e, ev, a, input, now)
    ensures EmittedNames(r, t) == AnnouncementsOf(e, ev, input, now)
  {
    hide KeyOf, ReasonOf, Enabled, Effect, ToOf, ReviewOf, EffectOf;
  }

  lemma FilledOutbox(r: Rule, t: Transition, e: Errand, ev: Event, a: Actor, input: EventInput, now: Time)
    requires Enabled(e, ev, a, input, now) && RuleIs(r, e, ev, now) && Filled(t, e, ev, a, input, now)
    ensures OutboxRows(r, e, t, input) == OutboxOf(e, ev, a, input, now)
  {
    hide Enabled, Effect, EmissionOf, CreditOrderOf, AnnouncementsOf, Announcement, EventRow, CreditRows, EmittedNames,
         RuleIs, Filled, ReasonOf;
    FilledRows(r, t, e, ev, a, input, now);
    FilledNames(r, t, e, ev, a, input, now);
    var names, e' := AnnouncementsOf(e, ev, input, now), Effect(e, ev, a, input, now);
    forall i | 0 <= i < |names|
      ensures EventRows(names, e, t)[i] == Announcements(names, e, e', ev, a, ReasonOf(ev, input), now)[i]
    {
      FilledAnnouncement(t, e, ev, a, input, now, names[i]);
    }
    assert EventRows(names, e, t) == Announcements(names, e, e', ev, a, ReasonOf(ev, input), now);
  }

  /** `Next` accepts exactly the enabled events, and its transition is exactly what the event means: these columns,
      this compare-and-swap condition, this reason, this credit command and these announcements, and no others. */
  lemma NextMeans(e: Errand, ev: Event, a: Actor, input: EventInput, now: Time)
    ensures Next(e, ev, a, input, now).Ok? <==> Enabled(e, ev, a, input, now)
    ensures Enabled(e, ev, a, input, now) ==> Means(Next(e, ev, a, input, now).value, e, ev, a, input, now)
  {
    NextAccepts(e, ev, a, input, now);
    if Enabled(e, ev, a, input, now) {
      var r := TheRule(e, ev, now);
      TheRuleIs(e, ev, now);
      BuildMeans(r, e, ev, a, input, now);
    }
    hide Next, Build, Enabled, Means, TheRule, RuleIs;
  }

  lemma BuildMeans(r: Rule, e: Errand, ev: Event, a: Actor, input: EventInput, now: Time)
    requires Enabled(e, ev, a, input, now) && RuleIs(r, e, ev, now) && Build(r, e, ev, a, input, now).Ok?
    ensures Means(Build(r, e, ev, a, input, now).value, e, ev, a, input, now)
  {
    hide Build, Enabled, Effect, OutboxRows, OutboxOf, RuleIs, ReasonOf;
    BuildHeader(r, e, ev, a, input, now);
    BuildEffect(r, e, ev, a, input, now);
    var t := BuildFills(r, e, ev, a, input, now);
    FilledOutbox(r, t, e, ev, a, input, now);
    var built := Build(r, e, ev, a, input, now).value;
    assert built.ApplyTo(e).status == built.to && built.ApplyTo(e).version == built.newVersion;
  }

  // ---------------------------------------------------------------- reachable errands

  predicate HasCourier(s: Status) {
    s == Assigned || s == PickedUp || s == Delivered || s == ReviewRequired || s == Completed || s == Refunded
  }

  ghost predicate DeliveryInv(e: Errand) {
    && (e.deliveredAt.Some? <==> e.verificationDeadline.Some?)
    && (e.deliveredAt.Some? ==> e.deliveredAt.value < e.verificationDeadline.value)
    && (e.status == Delivered ==> e.deliveredAt.Some?)
    && (e.deliveredAt.Some? ==>
        e.status == Delivered || e.status == ReviewRequired || e.status == Completed || e.status == Refunded)
  }

  ghost predicate ReviewInv(e: Errand) {
    && (e.status == ReviewRequired || e.status == Refunded ==> e.reviewReason != NoReview)
    && (e.reviewReason != NoReview ==> e.status == ReviewRequired || e.status == Completed || e.status == Refunded)
    && (e.reviewReason != NoReview ==> (e.reviewReason == RequesterDispute <==> e.deliveredAt.Some?))
    && (e.status == Completed && e.reviewReason == NoReview ==> e.deliveredAt.Some?)
  }

  ghost predicate EditInv(e: Errand) {
    e.pendingEdit.Some? ==>
      && e.status == Open
      && e.pendingEdit.value.key == KeyOf(e.id, Slot(Adjust, e.version))
      && e.pendingEdit.value.details.reward > 0
      && e.pendingEdit.value.details.reward != e.details.reward
  }

  /** A stored errand in any run: a courier and courier deadlines exactly while one is or was responsible, never the
      requester; a pending edit only while OPEN, under the key of the current version and for another reward. */
  ghost predicate WellFormed(e: Errand) {
    CourierInv(e) && DeliveryInv(e) && ReviewInv(e) && EditInv(e)
  }

  ghost predicate CourierInv(e: Errand) {
    && e.status.Valid() && e.version >= 1 && e.details.reward > 0 && e.requesterId != ""
    && (e.courierId != "" <==> HasCourier(e.status))
    && e.courierId != e.requesterId
    && (e.pickupDeadline.Some? <==> HasCourier(e.status))
    && (e.deliveryDeadline.Some? <==> HasCourier(e.status))
  }

  /** An errand as the create handler builds it. */
  ghost predicate Fresh(e: Errand) {
    && e.status == NoStatus && e.version == 0 && e.courierId == "" && IsUuid(e.id)
    && e.pickupDeadline.None? && e.deliveryDeadline.None? && e.deliveredAt.None? && e.verificationDeadline.None?
    && e.reviewReason == NoReview && e.pendingEdit.None?
  }

  /** Grows with every stored change, so (version, pending edit key) never recurs. */
  function Rank(e: Errand): (r: nat) {
    2 * e.version + if e.pendingEdit.Some? then 1 else 0
  }

  lemma EffectKeepsWellFormed(e: Errand, ev: Event, a: Actor, input: EventInput, now: Time)
    requires WellFormed(e) && Enabled(e, ev, a, input, now)
    ensures WellFormed(Effect(e, ev, a, input, now))
    ensures Rank(e) < Rank(Effect(e, ev, a, input, now))
  {
    EffectAdvances(e, ev, a, input, now);
    EffectKeepsShape(e, ev, a, input, now);
    hide *;
  }

  lemma EffectAdvances(e: Errand, ev: Event, a: Actor, input: EventInput, now: Time)
    requires WellFormed(e) && Enabled(e, ev, a, input, now)
    ensures Rank(e) < Rank(Effect(e, ev, a, input, now))
  {
    hide KeyOf, IsBlank, DeliveryInv, ReviewInv;
  }

  lemma EffectKeepsShape(e: Errand, ev: Event, a: Actor, input: EventInput, now: Time)
    requires WellFormed(e) && Enabled(e, ev, a, input, now)
    ensures WellFormed(Effect(e, ev, a, input, now))
  {
    EffectKeepsCourier(e, ev, a, input, now);
    EffectKeepsDelivery(e, ev, a, input, now);
    EffectKeepsReview(e, ev, a, input, now);
    EffectKeepsEdit(e, ev, a, input, now);
    hide Effect, Enabled, CourierInv, DeliveryInv, ReviewInv, EditInv;
  }

  lemma EffectKeepsCourier(e: Errand, ev: Event, a: Actor, input: EventInput, now: Time)
    requires CourierInv(e) && EditInv(e) && Enabled(e, ev, a, input, now)
    ensures CourierInv(Effect(e, ev, a, input, now))
  {
    hide KeyOf, IsBlank, ContactOk, AcceptanceDeadlineOk;
  }

  lemma EffectKeepsDelivery(e: Errand, ev: Event, a: Actor, input: EventInput, now: Time)
    requires DeliveryInv(e) && CourierInv(e) && Enabled(e, ev, a, input, now)
    ensures DeliveryInv(Effect(e, ev, a, input, now))
  {
    hide KeyOf, IsBlank, DetailsOk;
  }

  lemma EffectKeepsReview(e: Errand, ev: Event, a: Actor, input: EventInput, now: Time)
    requires ReviewInv(e) && DeliveryInv(e) && CourierInv(e) && Enabled(e, ev, a, input, now)
    ensures ReviewInv(Effect(e, ev, a, input, now))
  {
    hide KeyOf, IsBlank, DetailsOk;
  }

  lemma EffectKeepsEdit(e: Errand, ev: Event, a: Actor, input: EventInput, now: Time)
    requires EditInv(e) && Enabled(e, ev, a, input, now)
    ensures EditInv(Effect(e, ev, a, input, now))
  {
    hide KeyOf, IsBlank;
  }

  lemma SubmitIsWellFormed(e: Errand, a: Actor, input: EventInput, now: Time)
    requires Fresh(e) && Enabled(e, Submit, a, input, now)
    ensures WellFormed(Effect(e, Submit, a, input, now))
  {
    hide KeyOf, IsBlank;
  }

  // ---------------------------------------------------------------- the errand's side of the protocol

  /** An event that reports a credit result is backed by that result. */
  ghost predicate Backed(s: Saga.State, ev: Event, input: EventInput) {
    var adjust := Slot(Adjust, s.e.version);
    match ev
    case ReservationConfirmed => RESERVE in s.done && s.done[RESERVE].ReservedResult?
    case ReservationRefused => RESERVE in s.done && s.done[RESERVE].ReservationRefusedResult?
    case EditConfirmed => adjust in s.done && s.done[adjust].AdjustedResult?
    case EditRefused => input.editTimedOut || (adjust in s.done && s.done[adjust].AdjustRefusedResult?)
    case _ => true
  }

  lemma EffectMoves(s: Saga.State, ev: Event, a: Actor, input: EventInput, now: Time)
    requires WellFormed(s.e) && Enabled(s.e, ev, a, input, now) && Backed(s, ev, input)
    ensures var e' := Effect(s.e, ev, a, input, now);
            Moves(s, e', EmissionOf(s.e, e', CreditOrderOf(s.e, ev, input, now)))
  {
    hide Moves, Effect, Enabled, Backed, WellFormed, EmissionOf, CreditOrderOf;
    match FromOf(ev)
    case NoStatus | PendingReservation => ReservationMoves(s, ev, a, input, now);
    case Open => OpenMoves(s, ev, a, input, now);
    case _ => CourierMoves(s, ev, a, input, now);
  }

  lemma ReservationMoves(s: Saga.State, ev: Event, a: Actor, input: EventInput, now: Time)
    requires FromOf(ev) == NoStatus || FromOf(ev) == PendingReservation
    requires WellFormed(s.e) && Enabled(s.e, ev, a, input, now) && Backed(s, ev, input)
    ensures var e' := Effect(s.e, ev, a, input, now);
            Moves(s, e', EmissionOf(s.e, e', CreditOrderOf(s.e, ev, input, now)))
  {
    hide KeyOf, IsBlank;
  }

  lemma OpenMoves(s: Saga.State, ev: Event, a: Actor, input: EventInput, now: Time)
    requires FromOf(ev) == Open
    requires WellFormed(s.e) && Enabled(s.e, ev, a, input, now) && Backed(s, ev, input)
    ensures var e' := Effect(s.e, ev, a, input, now);
            Moves(s, e', EmissionOf(s.e, e', CreditOrderOf(s.e, ev, input, now)))
  {
    hide KeyOf, IsBlank;
  }

  lemma CourierMoves(s: Saga.State, ev: Event, a: Actor, input: EventInput, now: Time)
    requires FromOf(ev) != NoStatus && FromOf(ev) != PendingReservation && FromOf(ev) != Open
    requires WellFormed(s.e) && Enabled(s.e, ev, a, input, now) && Backed(s, ev, input)
    ensures var e' := Effect(s.e, ev, a, input, now);
            Moves(s, e', EmissionOf(s.e, e', CreditOrderOf(s.e, ev, input, now)))
  {
    hide KeyOf, IsBlank;
  }
}
