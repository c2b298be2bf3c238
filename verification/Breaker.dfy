/** The circuit breaker. Calls overlap freely: each step admits a call, finishes one or looks at the state, under the
    mutex. */
module Breaker {
  import opened Prelude

  type Time = int

  datatype State = Closed | Open | HalfOpen

  datatype Config = Config(threshold: int, coolDown: int)
  {
    predicate Valid() {
      threshold >= 1 && coolDown > 0
    }
  }

  datatype Verdict = Success | Failure | Ignored

  /** An admitted call. */
  datatype Ticket = Ticket(generation: nat, trial: bool)

  datatype Circuit = Circuit(state: State, failures: nat, openedAt: Time, trial: bool, generation: nat)

  const NEW_CIRCUIT := Circuit(Closed, 0, 0, false, 0)

  // ---------------------------------------------------------------- what one step does

  function SetState(c: Circuit, s: State, now: Time): (c': Circuit) {
    Circuit(s, 0, if s == Open then now else c.openedAt, false, c.generation + 1)
  }

  function CoolDown(cfg: Config, c: Circuit, now: Time): (c': Circuit) {
    if c.state == Open && now >= c.openedAt + cfg.coolDown then SetState(c, HalfOpen, now) else c
  }

  /** The breaker after asking to call, and the ticket if the call is admitted. */
  function Allow(cfg: Config, c: Circuit, now: Time): (r: (Circuit, Option<Ticket>)) {
    var cool := CoolDown(cfg, c, now);
    match cool.state
    case Open => (cool, None)
    case HalfOpen => if cool.trial then (cool, None) else (cool.(trial := true), Some(Ticket(cool.generation, true)))
    case Closed => (cool, Some(Ticket(cool.generation, false)))
  }

  function Finish(cfg: Config, c: Circuit, t: Ticket, v: Verdict, now: Time): (c': Circuit) {
    if t.generation != c.generation then c
    else if t.trial then
      match v
      case Success => SetState(c, Closed, now)
      case Failure => SetState(c, Open, now)
      case Ignored => c.(trial := false)
    else
      match v
      case Success => c.(failures := 0)
      case Failure => if c.failures + 1 >= cfg.threshold then SetState(c, Open, now) else c.(failures := c.failures + 1)
      case Ignored => c
  }

  /** How a finished call counts. A panic leaves no error. */
  function Classify(panicked: bool, failed: bool, callerGaveUp: bool, timedOut: bool,
                    countsAsFailure: bool): (v: Verdict) {
    if panicked then Failure
    else if !failed then Success
    else if callerGaveUp then Ignored
    else if timedOut || countsAsFailure then Failure
    else Ignored
  }

  /** Which calls count as failures and successes; a caller that gave up, and an error the service is not to blame for,
      count as neither. */
  lemma ClassifyMeans(panicked: bool, failed: bool, callerGaveUp: bool, timedOut: bool, countsAsFailure: bool)
    ensures var v := Classify(panicked, failed, callerGaveUp, timedOut, countsAsFailure);
      && (v == Success <==> !panicked && !failed)
      && (v == Failure <==> panicked || (failed && !callerGaveUp && (timedOut || countsAsFailure)))
  {
  }

  class CircuitBreaker {
    const cfg: Config
    var state: State
    var failures: nat
    var openedAt: Time
    var trial: bool
    var generation: nat

    ghost function Value(): (c: Circuit)
      reads this
    {
      Circuit(state, failures, openedAt, trial, generation)
    }

    constructor (cfg: Config)
      requires cfg.Valid()
      ensures this.cfg == cfg && Value() == NEW_CIRCUIT
    {
      this.cfg := cfg;
      state, failures, openedAt, trial, generation := Closed, 0, 0, false, 0;
    }

    method SetStateLocked(s: State, now: Time)
      modifies this
      ensures Value() == SetState(old(Value()), s, now)
    {
      state := s;
      failures := 0;
      trial := false;
      generation := generation + 1;
      if s == Open {
        openedAt := now;
      }
    }

    method CoolDownLocked(now: Time)
      modifies this
      ensures Value() == CoolDown(cfg, old(Value()), now)
    {
      if state == Open && !(now < openedAt + cfg.coolDown) {
        SetStateLocked(HalfOpen, now);
      }
    }

    method TryCall(now: Time) returns (t: Option<Ticket>)
      modifies this
      ensures (Value(), t) == Allow(cfg, old(Value()), now)
    {
      CoolDownLocked(now);
      match state {
        case Open => t := None;
        case HalfOpen =>
          if trial {
            t := None;
          } else {
            trial := true;
            t := Some(Ticket(generation, true));
          }
        case Closed => t := Some(Ticket(generation, false));
      }
    }

    method Record(t: Ticket, v: Verdict, now: Time)
      modifies this
      ensures Value() == Finish(cfg, old(Value()), t, v, now)
    {
      if t.generation != generation {
        return;
      }
      if t.trial {
        match v {
          case Success => SetStateLocked(Closed, now);
          case Failure => SetStateLocked(Open, now);
          case Ignored => trial := false;
        }
        return;
      }
      match v {
        case Success => failures := 0;
        case Failure =>
          failures := failures + 1;
          if failures >= cfg.threshold {
            SetStateLocked(Open, now);
          }
        case Ignored =>
      }
    }

    /** Runs one call and records how it ended, also when it panicked. */
    method Guard(begun: Time, ended: Time, panicked: bool, failed: bool, callerGaveUp: bool, timedOut: bool,
                 countsAsFailure: bool)
      returns (admitted: bool)
      modifies this
      ensures var (c, t) := Allow(cfg, old(Value()), begun);
        && admitted == t.Some?
        && Value() == if t.None? then c
                      else Finish(cfg, c, t.value, Classify(panicked, failed, callerGaveUp, timedOut, countsAsFailure),
                                  ended)
    {
      var t := TryCall(begun);
      if t.None? {
        return false;
      }
      admitted := true;
      var recorded := !panicked;
      if recorded {
        if !failed {
          Record(t.value, Success, ended);
        } else if callerGaveUp {
          Record(t.value, Ignored, ended);
        } else if timedOut {
          Record(t.value, Failure, ended);
        } else if countsAsFailure {
          Record(t.value, Failure, ended);
        } else {
          Record(t.value, Ignored, ended);
        }
      }
      if !recorded {
        Record(t.value, Failure, ended);
      }
    }
  }

  // ---------------------------------------------------------------- overlapping calls

  /** The breaker, the calls still out, and the calls that came back, oldest first. */
  datatype Calls = Calls(circuit: Circuit, out: map<nat, Ticket>, back: seq<(Ticket, Verdict)>)

  datatype Step =
    | Begin(call: nat, now: Time)
    | End(call: nat, verdict: Verdict, now: Time)
    | Look(now: Time)

  function Do(cfg: Config, w: Calls, s: Step): (w': Calls) {
    match s
    case Begin(call, now) =>
      if call in w.out then w
      else
        var (c, t) := Allow(cfg, w.circuit, now);
        w.(circuit := c, out := if t.Some? then w.out[call := t.value] else w.out)
    case End(call, v, now) =>
      if call !in w.out then w
      else w.(circuit := Finish(cfg, w.circuit, w.out[call], v, now), out := w.out - {call},
              back := w.back + [(w.out[call], v)])
    case Look(now) => w.(circuit := CoolDown(cfg, w.circuit, now))
  }

  function RunFrom(cfg: Config, w: Calls, steps: seq<Step>): (w': Calls)
    decreases |steps|
  {
    if steps == [] then w else RunFrom(cfg, Do(cfg, w, steps[0]), steps[1..])
  }

  function Run(cfg: Config, steps: seq<Step>): (w: Calls) {
    RunFrom(cfg, Calls(NEW_CIRCUIT, map[], []), steps)
  }

  /** Failures of one generation since its last success. */
  function Streak(back: seq<(Ticket, Verdict)>, generation: nat): (n: nat) {
    if back == [] then 0
    else
      var (t, v) := back[|back| - 1];
      var before := Streak(back[..|back| - 1], generation);
      if t.generation != generation then before
      else
        match v
        case Success => 0
        case Failure => before + 1
        case Ignored => before
  }

  ghost predicate IsCurrentTrial(w: Calls, call: nat) {
    call in w.out && w.out[call] == Ticket(w.circuit.generation, true)
  }

  /** The trial flag is set exactly while one trial of this generation is out. */
  ghost predicate OneTrial(w: Calls) {
    && (w.circuit.trial <==> exists call :: IsCurrentTrial(w, call))
    && (forall a, b :: IsCurrentTrial(w, a) && IsCurrentTrial(w, b) ==> a == b)
  }

  /** While closed, the failures counted are the current streak, and it is below the threshold. */
  ghost predicate CountsStreak(cfg: Config, w: Calls) {
    w.circuit.state == Closed ==> w.circuit.failures == Streak(w.back, w.circuit.generation) < cfg.threshold
  }

  ghost predicate Inv(cfg: Config, w: Calls) {
    && OneTrial(w) && CountsStreak(cfg, w)
    && (w.circuit.trial ==> w.circuit.state == HalfOpen)
    && (forall call :: call in w.out ==> w.out[call].generation <= w.circuit.generation)
    && (forall call :: call in w.out && w.out[call].generation == w.circuit.generation ==>
          w.circuit.state == if w.out[call].trial then HalfOpen else Closed)
    && (forall i :: 0 <= i < |w.back| ==> w.back[i].0.generation <= w.circuit.generation)
  }

  lemma {:induction false} NewGeneration(back: seq<(Ticket, Verdict)>, generation: nat)
    requires forall i :: 0 <= i < |back| ==> back[i].0.generation < generation
    ensures Streak(back, generation) == 0
  {
    if back != [] {
      NewGeneration(back[..|back| - 1], generation);
    }
  }

  lemma StreakGrows(back: seq<(Ticket, Verdict)>, t: Ticket, v: Verdict, generation: nat)
    ensures Streak(back + [(t, v)], generation)
         == if t.generation != generation then Streak(back, generation)
            else match v
              case Success => 0
              case Failure => Streak(back, generation) + 1
              case Ignored => Streak(back, generation)
  {
    assert (back + [(t, v)])[..|back|] == back;
  }

  lemma CoolDownKeeps(cfg: Config, w: Calls, now: Time)
    requires cfg.Valid() && Inv(cfg, w)
    ensures Inv(cfg, w.(circuit := CoolDown(cfg, w.circuit, now)))
  {
    hide Streak;
    var w' := w.(circuit := CoolDown(cfg, w.circuit, now));
    if w'.circuit != w.circuit {
      assert forall call :: !IsCurrentTrial(w', call);
    } else {
      assert forall call :: IsCurrentTrial(w', call) == IsCurrentTrial(w, call);
    }
  }

  lemma BeginKeeps(cfg: Config, w: Calls, call: nat, now: Time)
    requires cfg.Valid() && Inv(cfg, w) && call !in w.out
    ensures Inv(cfg, Do(cfg, w, Begin(call, now)))
  {
    hide Streak;
    var cool := w.(circuit := CoolDown(cfg, w.circuit, now));
    CoolDownKeeps(cfg, w, now);
    var w' := Do(cfg, w, Begin(call, now));
    forall other | other != call
      ensures IsCurrentTrial(w', other) == IsCurrentTrial(cool, other)
    {
    }
    assert !IsCurrentTrial(cool, call);
    assert IsCurrentTrial(w', call) <==> cool.circuit.state == HalfOpen && !cool.circuit.trial;
  }

  lemma EndKeeps(cfg: Config, w: Calls, call: nat, v: Verdict, now: Time)
    requires cfg.Valid() && Inv(cfg, w) && call in w.out
    ensures Inv(cfg, Do(cfg, w, End(call, v, now)))
  {
    var t := w.out[call];
    var w' := Do(cfg, w, End(call, v, now));
    StreakGrows(w.back, t, v, w.circuit.generation);
    if w'.circuit.generation == w.circuit.generation {
      forall other
        ensures IsCurrentTrial(w', other) <==> IsCurrentTrial(w, other) && other != call
      {
      }
      assert IsCurrentTrial(w, call) <==> t == Ticket(w.circuit.generation, true);
    } else {
      NewGeneration(w'.back, w'.circuit.generation);
      assert forall other :: !IsCurrentTrial(w', other);
    }
    hide Streak;
  }

  lemma {:induction false} RunKeeps(cfg: Config, w: Calls, steps: seq<Step>)
    requires cfg.Valid() && Inv(cfg, w)
    ensures Inv(cfg, RunFrom(cfg, w, steps))
    decreases |steps|
  {
    hide Inv;
    if steps != [] {
      match steps[0] {
        case Begin(call, now) => if call !in w.out { BeginKeeps(cfg, w, call, now); }
        case End(call, v, now) => if call in w.out { EndKeeps(cfg, w, call, v, now); }
        case Look(now) => CoolDownKeeps(cfg, w, now);
      }
      RunKeeps(cfg, Do(cfg, w, steps[0]), steps[1..]);
    }
  }

  lemma NewInv(cfg: Config)
    requires cfg.Valid()
    ensures Inv(cfg, Calls(NEW_CIRCUIT, map[], []))
  {
    assert forall call :: !IsCurrentTrial(Calls(NEW_CIRCUIT, map[], []), call);
  }

  // ---------------------------------------------------------------- every interleaving

  /** An open breaker admits nothing and stays open until its cool-down has elapsed, whatever else happens. */
  lemma {:induction false} RefusesUntilCool(cfg: Config, w: Calls, steps: seq<Step>)
    requires w.circuit.state == Open
    requires forall i :: 0 <= i < |steps| ==> steps[i].now < w.circuit.openedAt + cfg.coolDown
    requires forall call :: call in w.out ==> w.out[call].generation < w.circuit.generation
    ensures var w' := RunFrom(cfg, w, steps); w'.circuit == w.circuit && w'.out.Keys <= w.out.Keys
    decreases |steps|
  {
    if steps != [] {
      var w1 := Do(cfg, w, steps[0]);
      assert w1.circuit == w.circuit && w1.out.Keys <= w.out.Keys;
      forall i | 0 <= i < |steps[1..]|
        ensures steps[1..][i].now < w1.circuit.openedAt + cfg.coolDown
      {
        assert steps[1..][i] == steps[i + 1];
      }
      RefusesUntilCool(cfg, w1, steps[1..]);
    }
  }

  /** A closed breaker opens on the end of a call exactly when that call is a failure of this generation and completes a
      streak of `threshold` failures with no success in between. */
  ghost predicate OpensAtThreshold(cfg: Config, w: Calls, call: nat, v: Verdict, now: Time) {
    w.circuit.state == Closed && call in w.out ==>
      var w' := Do(cfg, w, End(call, v, now));
      && (w'.circuit.state == Closed || w'.circuit.state == Open)
      && (w'.circuit.state == Open <==>
            && w.out[call].generation == w.circuit.generation && v == Failure
            && Streak(w'.back, w.circuit.generation) == cfg.threshold)
      && (w'.circuit.state == Open ==> w'.circuit.openedAt == now)
  }

  lemma ThresholdExact(cfg: Config, w: Calls, call: nat, v: Verdict, now: Time)
    requires cfg.Valid() && Inv(cfg, w)
    ensures OpensAtThreshold(cfg, w, call, v, now)
  {
    if w.circuit.state == Closed && call in w.out {
      StreakGrows(w.back, w.out[call], v, w.circuit.generation);
    }
    hide Streak;
  }

  /** The outcome of a call admitted before the last state change changes nothing. */
  ghost predicate StaleIsIgnored(cfg: Config, w: Calls, call: nat, v: Verdict, now: Time) {
    call in w.out && w.out[call].generation != w.circuit.generation ==>
      Do(cfg, w, End(call, v, now)).circuit == w.circuit
  }

  /** Nothing admitted while open: a call begins only when cool-down has elapsed since the breaker opened, and then as
      the one trial. */
  ghost predicate AdmissionIsFair(cfg: Config, w: Calls, call: nat, now: Time) {
    call !in w.out ==>
      var w' := Do(cfg, w, Begin(call, now));
      && (call in w'.out && w.circuit.state == Open ==> now >= w.circuit.openedAt + cfg.coolDown && w'.out[call].trial)
      && (call in w'.out ==> w'.out[call] == Ticket(w'.circuit.generation, w'.circuit.state == HalfOpen))
      && (call in w'.out && w.circuit.state == HalfOpen ==> forall other :: !IsCurrentTrial(w, other))
      && (call in w'.out <==>
            || w.circuit.state == Closed
            || (w.circuit.state == Open && now >= w.circuit.openedAt + cfg.coolDown)
            || (w.circuit.state == HalfOpen && forall other :: !IsCurrentTrial(w, other)))
  }

  /** The trial decides: its success closes the breaker, its failure opens it anew, and one that does not count leaves
      the place free for the next. */
  ghost predicate TrialDecides(cfg: Config, w: Calls, call: nat, v: Verdict, now: Time) {
    IsCurrentTrial(w, call) ==>
      var c := Do(cfg, w, End(call, v, now)).circuit;
      match v
      case Success => c.state == Closed && c.failures == 0
      case Failure => c.state == Open && c.openedAt == now
      case Ignored => c.state == HalfOpen && !c.trial && c.generation == w.circuit.generation
  }

  /** Looking turns an open breaker half-open exactly once its cool-down has elapsed, and changes no other. */
  ghost predicate CoolsDown(cfg: Config, w: Calls, now: Time) {
    var c := Do(cfg, w, Look(now)).circuit;
    if w.circuit.state == Open && w.circuit.openedAt + cfg.coolDown <= now then c.state == HalfOpen && !c.trial
    else c == w.circuit
  }

  lemma TrialsDecide(cfg: Config, w: Calls, call: nat, v: Verdict, now: Time)
    requires cfg.Valid() && Inv(cfg, w)
    ensures TrialDecides(cfg, w, call, v, now) && CoolsDown(cfg, w, now)
  {
    hide Streak;
  }

  /** All of it, after any interleaving of calls. */
  lemma BreakerInRuns(cfg: Config, steps: seq<Step>, call: nat, v: Verdict, now: Time)
    requires cfg.Valid()
    ensures var w := Run(cfg, steps);
      && OneTrial(w) && CountsStreak(cfg, w) && OpensAtThreshold(cfg, w, call, v, now)
         && StaleIsIgnored(cfg, w, call, v, now)
      && AdmissionIsFair(cfg, w, call, now) && TrialDecides(cfg, w, call, v, now) && CoolsDown(cfg, w, now)
  {
    var start := Calls(NEW_CIRCUIT, map[], []);
    NewInv(cfg);
    RunKeeps(cfg, start, steps);
    var w := Run(cfg, steps);
    assert Inv(cfg, w);
    ThresholdExact(cfg, w, call, v, now);
    FairAdmission(cfg, w, call, now);
    TrialsDecide(cfg, w, call, v, now);
    hide RunFrom, Streak, OpensAtThreshold, AdmissionIsFair, TrialDecides, CoolsDown;
  }

  lemma FairAdmission(cfg: Config, w: Calls, call: nat, now: Time)
    requires cfg.Valid() && Inv(cfg, w)
    ensures AdmissionIsFair(cfg, w, call, now)
  {
    hide Streak;
  }

  /** After any interleaving that leaves the breaker open, every interleaving before the cool-down ends keeps it so and
      admits no call. */
  lemma OpenHoldsInRuns(cfg: Config, before: seq<Step>, after: seq<Step>)
    requires cfg.Valid()
    ensures var w := Run(cfg, before);
      w.circuit.state == Open && (forall i :: 0 <= i < |after| ==> after[i].now < w.circuit.openedAt + cfg.coolDown) ==>
        var w' := RunFrom(cfg, w, after); w'.circuit == w.circuit && w'.out.Keys <= w.out.Keys
  {
    NewInv(cfg);
    RunKeeps(cfg, Calls(NEW_CIRCUIT, map[], []), before);
    var w := Run(cfg, before);
    if w.circuit.state == Open && forall i :: 0 <= i < |after| ==> after[i].now < w.circuit.openedAt + cfg.coolDown {
      RefusesUntilCool(cfg, w, after);
    }
    hide RunFrom, Streak;
  }
}
