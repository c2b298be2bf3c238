/** The answer of `Next`, written out on the errand's columns, the actor and the clock. */
module Acceptance {
  import opened Prelude
  import opened Errands
  import opened StateMachine
  import opened Lifecycle

  // ---------------------------------------------------------------- the checks, on plain values

  /** Some character is none of the eight white-space characters of Latin-1. */
  ghost predicate HasText(s: string) {
    exists i :: 0 <= i < |s| && s[i] as int !in {9, 10, 11, 12, 13, 32, 133, 160}
  }

  /** Non-blank, short enough and printable. */
  ghost predicate ContactFits(s: string, longest: nat) {
    HasText(s) && |s| <= longest && forall i :: 0 <= i < |s| ==> 32 <= s[i] as int <= 126 || 160 <= s[i] as int
  }

  /** What a posted errand must say, apart from its deadline. */
  ghost predicate Postable(d: Details) {
    && d.reward > 0 && d.items.Some? && d.items.value != []
    && ContactFits(d.contactName, 100) && ContactFits(d.contactMobile, 32)
  }

  /** From ten minutes to a day ahead, both included, in nanoseconds. */
  predicate TenMinutesToADay(deadline: Time, now: Time) {
    now + 600_000_000_000 <= deadline <= now + 86_400_000_000_000
  }

  /** A deadline an edit keeps must only lie ahead. */
  ghost predicate EditFits(e: Errand, edit: Details, now: Time) {
    && Postable(edit)
    && if edit.acceptanceDeadline == e.details.acceptanceDeadline then now < edit.acceptanceDeadline
       else TenMinutesToADay(edit.acceptanceDeadline, now)
  }

  predicate DeadlinesSet(d: DeadlineSettings) {
    d.pickupAfter > 0 && d.deliveryAfter > 0 && 0 < d.verificationReminderAfter < d.verificationAfter
  }

  /** The one state in which an event is possible. */
  function StateOf(ev: Event): (s: Status) {
    match ev
    case Submit => NoStatus
    case ReservationConfirmed | ReservationRefused | ReservationFailed => PendingReservation
    case Edit | EditConfirmed | EditRefused | Accept | Cancel | AcceptanceDeadlinePassed => Open
    case Withdraw | PickUp | PickupDeadlinePassed => Assigned
    case Deliver | ReportIssue | DeliveryDeadlinePassed => PickedUp
    case Confirm | Dispute | VerificationLapsed => Delivered
    case AdminComplete | AdminRefund => ReviewRequired
  }

  /** The states an errand has been through, or past, when it is in `s`. */
  function Behind(s: Status): (past: set<Status>) {
    match s
    case PendingReservation => {NoStatus}
    case Open => {NoStatus, PendingReservation}
    case Assigned => {NoStatus, PendingReservation, Open}
    case PickedUp => {NoStatus, PendingReservation, Open, Assigned}
    case Delivered => {NoStatus, PendingReservation, Open, Assigned, PickedUp}
    case ReviewRequired => {NoStatus, PendingReservation, Open, Assigned, PickedUp, Delivered}
    case _ => {}
  }

  /** Why the actor may not, if so. */
  function ActorDenial(e: Errand, ev: Event, a: Actor, input: EventInput): (c: Option<Code>) {
    match ev
    case Submit | Edit | Cancel | Confirm | Dispute =>
      if a.kind == RequesterActor && a.id == e.requesterId != "" then None else Some(Forbidden)
    case Withdraw | PickUp | Deliver | ReportIssue =>
      if a.kind == CourierActor && a.id == e.courierId != "" then None else Some(Forbidden)
    case AdminComplete | AdminRefund => if a.kind == AdminActor && a.id != "" then None else Some(Forbidden)
    case Accept =>
      if a.kind != CourierActor || a.id == "" then Some(Forbidden)
      else if a.id == e.requesterId || input.previouslyWithdrew then Some(NotEligible)
      else if input.restricted then Some(CourierRestricted)
      else None
    case _ => if a == Actor(SystemActorType, "") then None else Some(Forbidden)
  }

  predicate Reached(deadline: Option<Time>, now: Time) {
    deadline.Some? && deadline.value <= now
  }

  /** Why it is too early or too late, if so. */
  function TimeDenial(e: Errand, ev: Event, now: Time): (c: Option<Code>) {
    match ev
    case Accept => if now < e.details.acceptanceDeadline then None else Some(ErrandUnavailable)
    case AcceptanceDeadlinePassed => if e.details.acceptanceDeadline <= now then None else Some(InvalidTransition)
    case PickupDeadlinePassed => if Reached(e.pickupDeadline, now) then None else Some(InvalidTransition)
    case DeliveryDeadlinePassed => if Reached(e.deliveryDeadline, now) then None else Some(InvalidTransition)
    case VerificationLapsed => if Reached(e.verificationDeadline, now) then None else Some(InvalidTransition)
    case _ => None
  }

  /** What is wrong with the input, if anything. */
  ghost function InputDenial(e: Errand, ev: Event, input: EventInput, now: Time): (c: Option<Code>) {
    match ev
    case Submit =>
      if e.id == "" || e.version != 0 then Some(InvalidArgument)
      else if !Postable(e.details) || !TenMinutesToADay(e.details.acceptanceDeadline, now) then Some(ValidationFailed)
      else None
    case Edit =>
      if e.pendingEdit.Some? then Some(EditPending)
      else if input.edit.None? then Some(InvalidArgument)
      else if !EditFits(e, input.edit.value, now) then Some(ValidationFailed)
      else None
    case EditConfirmed | EditRefused =>
      if e.pendingEdit.Some? && e.pendingEdit.value.key == input.editKey then None else Some(ErrandChanged)
    case Accept | Deliver => if DeadlinesSet(input.deadlines) then None else Some(ValidationFailed)
    case ReportIssue | Dispute | AdminComplete | AdminRefund =>
      if HasText(input.reason) then None else Some(ValidationFailed)
    case _ => None
  }

  /** The first objection to an event: state, actor, time, input. */
  ghost function Denial(e: Errand, ev: Event, a: Actor, input: EventInput, now: Time): (c: Option<Code>) {
    if e.status.Unknown? then Some(InvalidArgument)
    else if e.status in {Rejected, Cancelled, Expired, Completed, Refunded} then Some(ErrandUnavailable)
    else if e.status != StateOf(ev) then
      Some(if StateOf(ev) in Behind(e.status) then ErrandUnavailable else InvalidTransition)
    else if ActorDenial(e, ev, a, input).Some? then ActorDenial(e, ev, a, input)
    else if TimeDenial(e, ev, now).Some? then TimeDenial(e, ev, now)
    else InputDenial(e, ev, input, now)
  }

  // ---------------------------------------------------------------- the state machine's own checks agree

  lemma StateIsFrom(ev: Event)
    ensures StateOf(ev) == FromOf(ev)
  {
  }

  lemma BehindIsPast(s: Status, ev: Event)
    requires !s.Unknown? && !s.Terminal() && s != FromOf(ev)
    ensures MovedPast(s, ev) <==> StateOf(ev) in Behind(s)
  {
    StateIsFrom(ev);
    hide FromOf, StateOf;
  }

  lemma BlankHasNoText(s: string)
    ensures IsBlank(s) <==> !HasText(s)
  {
  }

  lemma ContactAgrees(s: string, longest: nat)
    ensures ContactOk(s, longest) <==> ContactFits(s, longest)
  {
    BlankHasNoText(s);
    hide IsBlank, HasText;
  }

  lemma DetailsAgree(d: Details, now: Time, newDeadline: bool)
    ensures DetailsOk(d, now, newDeadline) <==>
      && Postable(d)
      && if newDeadline then TenMinutesToADay(d.acceptanceDeadline, now) else now < d.acceptanceDeadline
  {
    ContactAgrees(d.contactName, 100);
    ContactAgrees(d.contactMobile, 32);
    hide ContactOk, ContactFits;
  }

  lemma ActorAgrees(e: Errand, ev: Event, a: Actor, input: EventInput)
    ensures CheckActor(ActorOf(ev), e, a, input) == ActorDenial(e, ev, a, input)
  {
  }

  lemma TimeAgrees(e: Errand, ev: Event, now: Time)
    ensures GuardOk(e, ev, now) <==> TimeDenial(e, ev, now).None?
    ensures TimeDenial(e, ev, now).Some? ==>
      TimeDenial(e, ev, now).value == if ev == Accept then ErrandUnavailable else InvalidTransition
  {
  }

  lemma InputAgrees(r: Rule, e: Errand, ev: Event, a: Actor, input: EventInput, now: Time)
    requires NeedsReason(ev) ==> !IsBlank(input.reason)
    ensures var built := Build(r, e, ev, a, input, now);
      if InputDenial(e, ev, input, now).None? then built.Ok? else built == Fail(InputDenial(e, ev, input, now).value)
  {
    BlankHasNoText(input.reason);
    DetailsAgree(e.details, now, true);
    if input.edit.Some? {
      DetailsAgree(input.edit.value, now, input.edit.value.acceptanceDeadline != e.details.acceptanceDeadline);
    }
    hide DetailsOk, Postable, TenMinutesToADay, IsBlank, HasText, OutboxRows;
  }

  lemma ReasonAgrees(e: Errand, ev: Event, input: EventInput, now: Time)
    requires NeedsReason(ev) && IsBlank(input.reason)
    ensures InputDenial(e, ev, input, now) == Some(ValidationFailed)
  {
    BlankHasNoText(input.reason);
    hide IsBlank, HasText;
  }

  /** For every errand, event, actor, input and time: `Next` refuses with the first objection, and accepts when there is
      none. */
  lemma NextAnswers(e: Errand, ev: Event, a: Actor, input: EventInput, now: Time)
    ensures match Denial(e, ev, a, input, now)
            case None => Enabled(e, ev, a, input, now) && Next(e, ev, a, input, now).Ok?
            case Some(code) => Next(e, ev, a, input, now) == Fail(code)
  {
    hide RulesFor, FromOf, StateOf, Behind, MovedPast, Build, TheRule, Enabled, ActorDenial, TimeDenial, InputDenial,
         ActorOf, CheckActor, GuardOk, NeedsReason, IsBlank, ChooseRule;
    StateIsFrom(ev);
    NextAccepts(e, ev, a, input, now);
    if !e.status.Unknown? && !e.status.Terminal() {
      if e.status == FromOf(ev) {
        hide Next;
        NextInState(e, ev, a, input, now);
        ActorAgrees(e, ev, a, input);
        TimeAgrees(e, ev, now);
        if NeedsReason(ev) && IsBlank(input.reason) {
          ReasonAgrees(e, ev, input, now);
        } else {
          InputAgrees(TheRule(e, ev, now), e, ev, a, input, now);
        }
      } else {
        RuleAttributes(e.status, ev);
        BehindIsPast(e.status, ev);
      }
    }
  }

  /** A submission is accepted exactly from the requester of a new errand that lists an item, offers a reward, names a
      contact and closes in ten minutes to a day. */
  lemma SubmitAnswers(e: Errand, a: Actor, input: EventInput, now: Time)
    ensures Next(e, Submit, a, input, now).Ok? <==>
      && e.status == NoStatus && e.id != "" && e.version == 0
      && a.kind == RequesterActor && a.id == e.requesterId != ""
      && Postable(e.details)
      && now + 600_000_000_000 <= e.details.acceptanceDeadline <= now + 86_400_000_000_000
  {
    NextAnswers(e, Submit, a, input, now);
    hide Next, Enabled, Postable;
  }

  /** An edit is accepted exactly from the requester of an OPEN errand without a pending edit. The window applies to a
      deadline that changes; one that stays only has to lie ahead. */
  lemma EditAnswers(e: Errand, a: Actor, input: EventInput, now: Time)
    ensures Next(e, Edit, a, input, now).Ok? <==>
      && e.status == Open && e.pendingEdit.None?
      && a.kind == RequesterActor && a.id == e.requesterId != ""
      && input.edit.Some? && Postable(input.edit.value)
      && var deadline := input.edit.value.acceptanceDeadline;
      && now < deadline
      && (deadline != e.details.acceptanceDeadline ==>
            now + 600_000_000_000 <= deadline <= now + 86_400_000_000_000)
  {
    NextAnswers(e, Edit, a, input, now);
    hide Next, Enabled, Postable;
  }
}
