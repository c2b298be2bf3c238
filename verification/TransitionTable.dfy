/** The loops that read the transition table and fill in a transition. */
module TransitionTable {
  import opened Prelude
  import opened Keys
  import opened Errands
  import opened StateMachine
  import opened RuleTable
  import opened Lifecycle

  lemma FilterNext(rules: seq<Rule>, i: nat, from: Status, ev: Event)
    requires i < |rules|
    ensures Filter(rules[..i + 1], from, ev)
         == Filter(rules[..i], from, ev) + if IsFor(rules[i], from, ev) then [rules[i]] else []
  {
    hide IsFor;
    assert rules[..i + 1] == rules[..i] + [rules[i]];
    FilterConcat(rules[..i], [rules[i]], from, ev);
    assert [rules[i]][1..] == [];
    assert Filter([rules[i]], from, ev) == if IsFor(rules[i], from, ev) then [rules[i]] else [];
  }

  method Scan(table: seq<Rule>, from: Status, ev: Event) returns (rules: seq<Rule>)
    ensures rules == Filter(table, from, ev)
  {
    hide Filter, IsFor;
    rules := [];
    assert Filter(table[..0], from, ev) == [] by { FilterNone(table[..0], from, ev); }
    var i := 0;
    while i < |table|
      invariant 0 <= i <= |table|
      invariant rules == Filter(table[..i], from, ev)
    {
      FilterNext(table, i, from, ev);
      if IsFor(table[i], from, ev) {
        rules := rules + [table[i]];
      }
      i := i + 1;
    }
    assert table[..i] == table;
  }

  method LookUp(from: Status, ev: Event) returns (rules: seq<Rule>)
    ensures rules == RulesFor(from, ev)
    ensures rules != [] <==> from == FromOf(ev)
  {
    hide Filter;
    rules := Scan(TABLE, from, ev);
    TableGives(from, ev);
    RuleAttributes(from, ev);
  }

  lemma {:induction false} FilterContains(rules: seq<Rule>, k: nat, from: Status, ev: Event)
    requires k < |rules| && IsFor(rules[k], from, ev)
    ensures rules[k] in Filter(rules, from, ev)
  {
    if k > 0 {
      FilterContains(rules[1..], k - 1, from, ev);
    }
  }

  lemma {:induction false} FilterFinds(rules: seq<Rule>, from: Status, ev: Event) returns (k: nat)
    requires Filter(rules, from, ev) != []
    ensures k < |rules| && IsFor(rules[k], from, ev)
  {
    if IsFor(rules[0], from, ev) {
      k := 0;
    } else {
      k := FilterFinds(rules[1..], from, ev);
      k := k + 1;
    }
  }

  /** Every rule of an event leaves the event's one state, and there is such a rule. */
  lemma RulesOfEvent(ev: Event) returns (k: nat)
    ensures forall i :: 0 <= i < |TABLE| && TABLE[i].event == ev ==> TABLE[i].from == FromOf(ev)
    ensures k < |TABLE| && TABLE[k].event == ev && TABLE[k].from == FromOf(ev)
  {
    hide Filter;
    forall i | 0 <= i < |TABLE| && TABLE[i].event == ev
      ensures TABLE[i].from == FromOf(ev)
    {
      FilterContains(TABLE, i, TABLE[i].from, ev);
      TableGives(TABLE[i].from, ev);
      RuleAttributes(TABLE[i].from, ev);
    }
    TableGives(FromOf(ev), ev);
    RuleAttributes(FromOf(ev), ev);
    k := FilterFinds(TABLE, FromOf(ev), ev);
  }

  /** The rank of the latest state an event can leave, or -1. */
  method LatestIn(table: seq<Rule>, ev: Event, ghost k: nat) returns (latest: int)
    requires forall i :: 0 <= i < |table| && table[i].event == ev ==> table[i].from == FromOf(ev)
    requires k < |table| && table[k].event == ev
    ensures latest == LifecycleRank(FromOf(ev))
  {
    hide FromOf, LifecycleRank;
    latest := -1;
    var i := 0;
    while i < |table|
      invariant 0 <= i <= |table|
      invariant latest == if k < i then LifecycleRank(FromOf(ev)) as int else latest
      invariant latest == -1 || latest == LifecycleRank(FromOf(ev))
    {
      if table[i].event == ev {
        latest := if latest < LifecycleRank(table[i].from) then LifecycleRank(table[i].from) else latest;
      }
      i := i + 1;
    }
  }

  /** The errand has passed every state the event can leave. */
  method HasMovedPast(current: Status, ev: Event) returns (past: bool)
    ensures past == MovedPast(current, ev)
    ensures past <==> forall from :: RulesFor(from, ev) != [] ==> LifecycleRank(from) < LifecycleRank(current)
  {
    hide RulesFor;
    ghost var k := RulesOfEvent(ev);
    var latest := LatestIn(TABLE, ev, k);
    past := latest >= 0 && LifecycleRank(current) > latest;
    MovedPastMeans(current, ev);
  }

  lemma MovedPastMeans(current: Status, ev: Event)
    ensures MovedPast(current, ev) <==>
      forall from :: RulesFor(from, ev) != [] ==> LifecycleRank(from) < LifecycleRank(current)
  {
    hide RulesFor, FromOf, LifecycleRank;
    forall from
      ensures RulesFor(from, ev) != [] <==> from == FromOf(ev)
    {
      RuleAttributes(from, ev);
    }
    assert RulesFor(FromOf(ev), ev) != [];
  }

  lemma {:induction false} FirstFailingIs(guards: seq<Guard>, i: nat, e: Errand, now: Time)
    requires i <= |guards| && forall j :: 0 <= j < i ==> GuardHolds(guards[j], e, now)
    requires i < |guards| ==> !GuardHolds(guards[i], e, now)
    ensures FirstFailing(guards, e, now) == if i < |guards| then Some(guards[i]) else None
  {
    if i > 0 {
      FirstFailingIs(guards[1..], i - 1, e, now);
    }
  }

  method Choose(candidates: seq<Rule>, e: Errand, now: Time) returns (r: Outcome<Rule>)
    requires |candidates| > 0
    ensures r == ChooseRule(candidates, e, now)
  {
    hide GuardHolds;
    var failed: Option<Guard> := None;
    var i := 0;
    while i < |candidates|
      invariant 0 <= i <= |candidates|
      invariant i < |candidates| ==> ChooseRule(candidates, e, now) == ChooseRule(candidates[i..], e, now)
      invariant i == |candidates| ==> ChooseRule(candidates, e, now) == Fail(GuardError(failed))
    {
      var guards := candidates[i].guards;
      var j := 0;
      while j < |guards| && GuardHolds(guards[j], e, now)
        invariant 0 <= j <= |guards|
        invariant forall k :: 0 <= k < j ==> GuardHolds(guards[k], e, now)
      {
        j := j + 1;
      }
      FirstFailingIs(guards, j, e, now);
      assert candidates[i..][0] == candidates[i];
      if j == |guards| {
        assert RuleHolds(candidates[i], e, now);
        return Ok(candidates[i]);
      }
      assert guards[j] in guards && !RuleHolds(candidates[i], e, now);
      failed := Some(guards[j]);
      assert i + 1 < |candidates| ==> candidates[i..][1..] == candidates[i + 1..];
      i := i + 1;
    }
    r := Fail(GuardError(failed));
  }

  method BuildCreditRows(r: Rule, before: Errand, t: Transition, input: EventInput) returns (rows: seq<OutboxRow>)
    ensures rows == CreditRows(r, before, t, input)
  {
    hide CreditRow;
    var after := t.ApplyTo(before);
    rows := [];
    match r.credit {
      case CreditReserve =>
        rows := [CreditRow(ReserveKind, Slot(Reserve, 0), before, t, "", after.details.reward, 0, 0)];
      case CreditRelease =>
        rows := [CreditRow(ReleaseKind, Slot(Release, 0), before, t, "", 0, 0, 0)];
      case CreditTransfer =>
        rows := [CreditRow(TransferKind, Slot(Transfer, 0), before, t, before.courierId, after.details.reward, 0, 0)];
      case NoCredit =>
    }
    if EditRequestedBy(t) {
      rows := rows + [CreditRow(AdjustKind, Slot(Adjust, t.expectedVersion), before, t, "", 0,
                                t.changes.pendingEdit.value.details.reward, AdjustSeq(t.expectedVersion))];
    }
    if RevertsAdjust(before, t, input) {
      rows := rows + [CreditRow(AdjustKind, Slot(AdjustRevert, t.newVersion), before, t, "", 0,
                                before.details.reward, RevertSeq(t.newVersion))];
    }
  }

  method BuildRows(r: Rule, before: Errand, t: Transition, input: EventInput) returns (rows: seq<OutboxRow>)
    ensures rows == OutboxRows(r, before, t, input)
  {
    hide CreditRows, EventRow;
    rows := BuildCreditRows(r, before, t, input);
    var names := if EditRequestedBy(t) then [EditRequested] else r.emits;
    var i := 0;
    while i < |names|
      invariant 0 <= i <= |names|
      invariant rows == CreditRows(r, before, t, input) + EventRows(names[..i], before, t)
    {
      assert EventRows(names[..i + 1], before, t) == EventRows(names[..i], before, t) + [EventRow(names[i], before, t)];
      rows := rows + [EventRow(names[i], before, t)];
      i := i + 1;
    }
    assert names[..i] == names;
  }

  /** Decides an event by the table: accepted exactly when it is enabled, and then meaning exactly what it should. */
  method Decide(e: Errand, ev: Event, actor: Actor, input: EventInput, now: Time) returns (r: Outcome<Transition>)
    ensures r == Next(e, ev, actor, input, now)
    ensures r.Ok? <==> Enabled(e, ev, actor, input, now)
    ensures r.Ok? ==> Means(r.value, e, ev, actor, input, now)
  {
    hide RulesFor, FromOf, CheckActor, ChooseRule, ApplyEvent, OutboxRows, Enabled, Means, IsBlank, MovedPast;
    NextMeans(e, ev, actor, input, now);
    if e.status.Unknown? {
      return Fail(InvalidArgument);
    }
    if e.status.Terminal() {
      return Fail(ErrandUnavailable);
    }
    var candidates := LookUp(e.status, ev);
    if |candidates| == 0 {
      var past := HasMovedPast(e.status, ev);
      return Fail(if past then ErrandUnavailable else InvalidTransition);
    }
    var denied := CheckActor(candidates[0].actor, e, actor, input);
    if denied.Some? {
      return Fail(denied.value);
    }
    var chosen := Choose(candidates, e, now);
    if chosen.Fail? {
      return Fail(chosen.code);
    }
    var rule := chosen.value;
    var t := Transition(e.id, e.status, rule.to, ev, actor, input.reason, e.version, "", e.version + 1, NO_CHANGES, [],
                        now);
    if e.pendingEdit.Some? {
      t := t.(expectedPendingEditKey := e.pendingEdit.value.key);
    }
    if rule.needsReason && IsBlank(input.reason) {
      return Fail(ValidationFailed);
    }
    if rule.review != NoReview {
      t := t.(changes := t.changes.(reviewReason := SetTo(rule.review)));
    }
    assert t == Draft(rule, e, ev, actor, input, now);
    var filled := ApplyEvent(t, e, input, now);
    if filled.Fail? {
      return filled;
    }
    t := filled.value;
    if e.pendingEdit.Some? && t.to != Open {
      t := t.(changes := t.changes.(pendingEdit := SetNull));
    }
    var rows := BuildRows(rule, e, t, input);
    r := Ok(t.(outbox := rows));
  }
}
