/** Where each event's rules stand in the transition table. */
module RuleTable {
  import opened Errands
  import opened StateMachine

  lemma FilterFirst(r: Rule, rest: seq<Rule>, from: Status, ev: Event)
    ensures Filter([r] + rest, from, ev) == (if IsFor(r, from, ev) then [r] else []) + Filter(rest, from, ev)
  {
    hide IsFor;
    assert ([r] + rest)[1..] == rest;
  }

  lemma Associates(a: seq<Rule>, b: seq<Rule>, c: seq<Rule>)
    ensures a + (b + c) == (a + b) + c
  {
  }

  lemma {:induction false} FilterConcat(a: seq<Rule>, b: seq<Rule>, from: Status, ev: Event)
    ensures Filter(a + b, from, ev) == Filter(a, from, ev) + Filter(b, from, ev)
  {
    if a == [] {
      assert a + b == b;
    } else {
      hide IsFor, Filter;
      var rest := a[1..];
      FilterConcat(rest, b, from, ev);
      FilterFirst(a[0], rest, from, ev);
      FilterFirst(a[0], rest + b, from, ev);
      assert a == [a[0]] + rest && a + b == [a[0]] + (rest + b);
      Associates(if IsFor(a[0], from, ev) then [a[0]] else [], Filter(rest, from, ev), Filter(b, from, ev));
    }
  }

  lemma {:induction false} FilterNone(rules: seq<Rule>, from: Status, ev: Event)
    requires forall i :: 0 <= i < |rules| ==> !IsFor(rules[i], from, ev)
    ensures Filter(rules, from, ev) == []
  {
    if rules != [] {
      FilterNone(rules[1..], from, ev);
    }
  }

  /** A run of matching rules between others. */
  lemma FilterMiddle(rules: seq<Rule>, i: nat, j: nat, from: Status, ev: Event)
    requires i <= j <= |rules|
    requires forall k :: 0 <= k < |rules| ==> (IsFor(rules[k], from, ev) <==> i <= k < j)
    ensures Filter(rules, from, ev) == rules[i..j]
  {
    assert rules == rules[..i] + (rules[i..j] + rules[j..]);
    FilterConcat(rules[..i], rules[i..j] + rules[j..], from, ev);
    FilterConcat(rules[i..j], rules[j..], from, ev);
    FilterNone(rules[..i], from, ev);
    FilterNone(rules[j..], from, ev);
    FilterAll(rules[i..j], from, ev);
    hide Filter, IsFor;
  }

  lemma {:induction false} FilterAll(rules: seq<Rule>, from: Status, ev: Event)
    requires forall i :: 0 <= i < |rules| ==> IsFor(rules[i], from, ev)
    ensures Filter(rules, from, ev) == rules
  {
    if rules != [] {
      FilterAll(rules[1..], from, ev);
    }
  }

  /** The rules of one state in the table. */
  function Group(from: Status): (rules: seq<Rule>) {
    match from
    case NoStatus => SUBMISSION
    case PendingReservation => RESERVATION
    case Open => OPEN
    case Assigned => ASSIGNED
    case PickedUp => PICKED_UP
    case Delivered => DELIVERED
    case ReviewRequired => REVIEW
    case _ => []
  }

  /** Where an event's rules stand in its state's group. */
  function Span(ev: Event): (ij: (nat, nat)) {
    match ev
    case Submit | ReservationConfirmed | Edit | Deliver | Confirm | AdminComplete => (0, 1)
    case ReservationRefused | EditConfirmed | ReportIssue | VerificationLapsed | AdminRefund => (1, 2)
    case ReservationFailed | EditRefused | DeliveryDeadlinePassed | Dispute => (2, 3)
    case Accept => (3, 4)
    case Cancel => (4, 5)
    case AcceptanceDeadlinePassed => (5, 6)
    case Withdraw => (0, 2)
    case PickupDeadlinePassed => (2, 4)
    case PickUp => (4, 5)
  }

  /** In its state's group an event's rules are exactly those at its span. */
  ghost predicate SpanFits(rules: seq<Rule>, from: Status, ev: Event) {
    var (i, j) := Span(ev);
    && i <= j <= |rules|
    && (forall k :: 0 <= k < |rules| ==> (IsFor(rules[k], from, ev) <==> i <= k < j))
  }

  lemma SubmissionFits(ev: Event)
    requires FromOf(ev) == NoStatus
    ensures SpanFits(SUBMISSION, NoStatus, ev)
  {
  }

  lemma ReservationFits(ev: Event)
    requires FromOf(ev) == PendingReservation
    ensures SpanFits(RESERVATION, PendingReservation, ev)
  {
  }

  lemma OpenGroupFits(ev: Event)
    requires FromOf(ev) == Open
    ensures SpanFits(OPEN, Open, ev)
  {
  }

  lemma AssignedGroupFits(ev: Event)
    requires FromOf(ev) == Assigned
    ensures SpanFits(ASSIGNED, Assigned, ev)
  {
  }

  lemma PickedUpGroupFits(ev: Event)
    requires FromOf(ev) == PickedUp
    ensures SpanFits(PICKED_UP, PickedUp, ev)
  {
  }

  lemma DeliveredGroupFits(ev: Event)
    requires FromOf(ev) == Delivered
    ensures SpanFits(DELIVERED, Delivered, ev)
  {
  }

  lemma ReviewGroupFits(ev: Event)
    requires FromOf(ev) == ReviewRequired
    ensures SpanFits(REVIEW, ReviewRequired, ev)
  {
  }

  lemma GroupFits(ev: Event)
    ensures SpanFits(Group(FromOf(ev)), FromOf(ev), ev)
  {
    hide SpanFits, SUBMISSION, RESERVATION, OPEN, ASSIGNED, PICKED_UP, DELIVERED, REVIEW;
    match FromOf(ev)
    case NoStatus => SubmissionFits(ev);
    case PendingReservation => ReservationFits(ev);
    case Open => OpenGroupFits(ev);
    case Assigned => AssignedGroupFits(ev);
    case PickedUp => PickedUpGroupFits(ev);
    case Delivered => DeliveredGroupFits(ev);
    case ReviewRequired => ReviewGroupFits(ev);
  }

  /** The rules leave one state, and so do their events. */
  ghost predicate LeaveState(rules: seq<Rule>, from: Status) {
    forall k :: 0 <= k < |rules| ==> rules[k].from == from && FromOf(rules[k].event) == from
  }

  lemma EarlyGroupsLeave()
    ensures LeaveState(SUBMISSION, NoStatus) && LeaveState(RESERVATION, PendingReservation)
  {
  }

  lemma OpenGroupLeaves()
    ensures LeaveState(OPEN, Open)
  {
  }

  lemma AssignedGroupLeaves()
    ensures LeaveState(ASSIGNED, Assigned)
  {
  }

  lemma PickedUpGroupLeaves()
    ensures LeaveState(PICKED_UP, PickedUp)
  {
  }

  lemma DeliveredGroupLeaves()
    ensures LeaveState(DELIVERED, Delivered)
  {
  }

  lemma ReviewGroupLeaves()
    ensures LeaveState(REVIEW, ReviewRequired)
  {
  }

  /** The rules of a group and their events leave its state. */
  lemma GroupEvents(from: Status)
    ensures LeaveState(Group(from), from)
  {
    EarlyGroupsLeave();
    OpenGroupLeaves();
    AssignedGroupLeaves();
    PickedUpGroupLeaves();
    DeliveredGroupLeaves();
    ReviewGroupLeaves();
    hide SUBMISSION, RESERVATION, OPEN, ASSIGNED, PICKED_UP, DELIVERED, REVIEW;
  }

  lemma NoMatch(from: Status, ev: Event)
    requires from != FromOf(ev)
    ensures forall k :: 0 <= k < |Group(from)| ==> !IsFor(Group(from)[k], from, ev)
  {
    hide Group, FromOf;
    GroupEvents(from);
  }

  lemma GroupFilter(from: Status, ev: Event)
    ensures Filter(Group(from), from, ev) == if from == FromOf(ev) then Rules(ev) else []
  {
    hide Filter, Group, Span, IsFor;
    if from == FromOf(ev) {
      GroupFits(ev);
      var (i, j) := Span(ev);
      FilterMiddle(Group(from), i, j, from, ev);
    } else {
      NoMatch(from, ev);
      FilterNone(Group(from), from, ev);
    }
  }

  /** The rules of an event, from its span: two for a withdrawal, forced or not, and one for any other. */
  function Rules(ev: Event): (rules: seq<Rule>)
    ensures |rules| == if ev == Withdraw || ev == PickupDeadlinePassed then 2 else 1
  {
    GroupFits(ev);
    Group(FromOf(ev))[Span(ev).0..Span(ev).1]
  }

  lemma OtherGroup(g: Status, from: Status, ev: Event)
    requires g != from
    ensures Filter(Group(g), from, ev) == []
  {
    hide Group, FromOf;
    GroupEvents(g);
    FilterNone(Group(g), from, ev);
  }

  /** One group's share of the candidates. */
  lemma GroupShare(g: Status, from: Status, ev: Event)
    ensures Filter(Group(g), from, ev) == if g == from == FromOf(ev) then Rules(ev) else []
  {
    hide Filter, Group, Rules;
    if g == from {
      GroupFilter(from, ev);
    } else {
      OtherGroup(g, from, ev);
    }
  }

  /** The candidates among the rules of the first `n` states. */
  ghost predicate Gives(rules: seq<Rule>, n: nat, from: Status, ev: Event) {
    Filter(rules, from, ev) == if from == FromOf(ev) && LifecycleRank(from) < n then Rules(ev) else []
  }

  lemma NextGroup(rules: seq<Rule>, g: Status, from: Status, ev: Event)
    requires Gives(rules, LifecycleRank(g), from, ev) && LifecycleRank(g) < 7
    ensures Gives(rules + Group(g), LifecycleRank(g) + 1, from, ev)
  {
    hide Filter, Group, Rules, FromOf;
    FilterConcat(rules, Group(g), from, ev);
    GroupShare(g, from, ev);
    Associates([], [], Rules(ev));
  }

  lemma FirstGroup(from: Status, ev: Event)
    ensures Gives(Group(NoStatus), 1, from, ev)
  {
    hide Filter, Group, Rules, FromOf;
    GroupShare(NoStatus, from, ev);
  }

  lemma TableGivesAll(from: Status, ev: Event)
    ensures Gives(TABLE, 7, from, ev)
  {
    hide Gives, SUBMISSION, RESERVATION, OPEN, ASSIGNED, PICKED_UP, DELIVERED, REVIEW;
    FirstGroup(from, ev);
    NextGroup(SUBMISSION, PendingReservation, from, ev);
    NextGroup(SUBMISSION + RESERVATION, Open, from, ev);
    NextGroup(SUBMISSION + RESERVATION + OPEN, Assigned, from, ev);
    NextGroup(SUBMISSION + RESERVATION + OPEN + ASSIGNED, PickedUp, from, ev);
    NextGroup(SUBMISSION + RESERVATION + OPEN + ASSIGNED + PICKED_UP, Delivered, from, ev);
    NextGroup(SUBMISSION + RESERVATION + OPEN + ASSIGNED + PICKED_UP + DELIVERED, ReviewRequired, from, ev);
  }

  /** An event's candidates stand together in the table: its rules in the one state it leaves, none elsewhere. */
  lemma TableGives(from: Status, ev: Event)
    ensures RulesFor(from, ev) == if from == FromOf(ev) then Rules(ev) else []
  {
    hide Filter, Rules, TABLE;
    TableGivesAll(from, ev);
  }
}
