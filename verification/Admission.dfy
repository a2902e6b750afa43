/**
 Bounded admission and its tuner: permits under a fixed hard limit and a movable soft
 target, and the control loop that moves the target from monotone counters.
 */
module Admission {
  import opened Wrappers
  import opened Int64

  // ---------------------------------------------------------------- permits

  /** `held` is the channel's occupancy; `permits[i]` says whether permit i is still unreleased. */
  datatype Gate = Gate(hardLimit: nat, target: int, held: nat, permits: seq<bool>)

  datatype Refusal = HardLimit | SoftTarget

  function Admit(g: Gate): (Gate, Option<Refusal>) {
    if g.held >= g.hardLimit then (g, Some(HardLimit))
    else if g.held >= g.target then (g, Some(SoftTarget))
    else (g.(held := g.held + 1, permits := g.permits + [true]), None)
  }

  predicate TargetOk(g: Gate, target: int) { 0 < target <= g.hardLimit }

  datatype GateOp = TryAcquire | Release(permit: nat) | SetTarget(wanted: int)

  function GateNext(g: Gate, op: GateOp): Gate {
    match op
    case TryAcquire => Admit(g).0
    case Release(i) =>
      if i < |g.permits| && g.permits[i] && g.held > 0
      then g.(held := g.held - 1, permits := g.permits[i := false])
      else g
    case SetTarget(n) => if TargetOk(g, n) then g.(target := n) else g
  }

  function GateRun(g: Gate, ops: seq<GateOp>): Gate
    decreases |ops|
  {
    if ops == [] then g else GateRun(GateNext(g, ops[0]), ops[1..])
  }

  function Unreleased(permits: seq<bool>): nat {
    if permits == [] then 0
    else Unreleased(permits[..|permits| - 1]) + if permits[|permits| - 1] then 1 else 0
  }

  lemma {:induction false} ReleaseCounts(permits: seq<bool>, i: nat)
    requires i < |permits| && permits[i]
    ensures Unreleased(permits) > 0 && Unreleased(permits[i := false]) == Unreleased(permits) - 1
  {
    var n := |permits| - 1;
    if i == n {
      assert permits[i := false][..n] == permits[..n];
    } else {
      ReleaseCounts(permits[..n], i);
      assert permits[i := false][..n] == permits[..n][i := false];
    }
  }

  ghost predicate GateInv(g: Gate) {
    g.held == Unreleased(g.permits) <= g.hardLimit && 1 <= g.target <= g.hardLimit
  }

  lemma GateNextKeepsInv(g: Gate, op: GateOp)
    requires GateInv(g)
    ensures GateInv(GateNext(g, op)) && GateNext(g, op).hardLimit == g.hardLimit
  {
    match op
    case TryAcquire => assert (g.permits + [true])[..|g.permits + [true]| - 1] == g.permits;
    case Release(i) => if i < |g.permits| && g.permits[i] { ReleaseCounts(g.permits, i); }
    case SetTarget(_) =>
  }

  /** Over every run in-flight equals the unreleased permits, never exceeds the hard limit, and the
      target stays in [1, hard limit]. */
  lemma {:induction false} PermitsAreConserved(g: Gate, ops: seq<GateOp>)
    requires GateInv(g)
    ensures GateInv(GateRun(g, ops)) && GateRun(g, ops).hardLimit == g.hardLimit
    decreases |ops|
  {
    if ops != [] {
      GateNextKeepsInv(g, ops[0]);
      PermitsAreConserved(GateNext(g, ops[0]), ops[1..]);
    }
  }

  /** A release of an unreleased permit never blocks on an empty channel, and doing it again is nothing. */
  lemma ReleaseIsIdempotent(g: Gate, i: nat)
    requires GateInv(g) && i < |g.permits|
    ensures g.permits[i] ==> g.held > 0
    ensures GateNext(GateNext(g, Release(i)), Release(i)) == GateNext(g, Release(i))
  {
    if g.permits[i] { ReleaseCounts(g.permits, i); }
  }

  // ---------------------------------------------------------------- the tuner

  datatype Config = Config(active: bool, minTarget: int, maxTarget: int, step: int, interval: int, cooldown: int,
                           high: real, low: real)

  predicate ValidConfig(c: Config, hardLimit: nat) {
    && 0 < c.minTarget <= c.maxTarget <= hardLimit && c.step > 0
    && c.interval > 0 && c.cooldown >= 0
    && 0.0 < c.low < c.high < 1.0
  }

  datatype Signal = Signal(observedAt: Option<int>, inflight: int, accepted: U64, completed: U64,
                           rejected: U64, softRejected: U64, hardRejected: U64)

  datatype Why =
    | Hold | StaleOrInvalid | CounterReset | Overloaded | SoftPressure | Saturated | Underutilized | UpdateFailed

  datatype Counts = Counts(accepted: int, completed: int, rejected: int, soft: int, hard: int)

  const NO_COUNTS := Counts(0, 0, 0, 0, 0)

  function Totals(s: Signal): Counts { Counts(s.accepted, s.completed, s.rejected, s.softRejected, s.hardRejected) }

  function Plus(a: Counts, b: Counts): Counts {
    Counts(a.accepted + b.accepted, a.completed + b.completed, a.rejected + b.rejected,
           a.soft + b.soft, a.hard + b.hard)
  }

  function Minus(a: Counts, b: Counts): Counts {
    Counts(a.accepted - b.accepted, a.completed - b.completed, a.rejected - b.rejected,
           a.soft - b.soft, a.hard - b.hard)
  }

  datatype Decision = Decision(
    previousTarget: int, suggested: int, applied: int, delta: Counts,
    valid: bool, changed: bool, why: Why, cooling: bool)

  datatype Tuner = Tuner(target: int, previous: Option<Signal>, lastAction: Option<int>)

  predicate Malformed(c: Config, s: Signal, now: int) {
    || s.observedAt.None? || s.inflight < 0
    || s.softRejected > s.rejected || s.hardRejected > s.rejected
    || (s.softRejected + s.hardRejected) % U64_LIMIT > s.rejected
    || now - s.observedAt.value > 2 * c.interval
  }

  predicate WentBack(p: Signal, s: Signal) {
    || (p.observedAt.Some? && s.observedAt.Some? && s.observedAt.value < p.observedAt.value)
    || s.accepted < p.accepted || s.completed < p.completed || s.rejected < p.rejected
    || s.softRejected < p.softRejected || s.hardRejected < p.hardRejected
  }

  function Max(a: int, b: int): int { if a > b then a else b }
  function Min(a: int, b: int): int { if a < b then a else b }

  function Utilization(inflight: int, current: int): (ratio: real)
    requires current > 0
    ensures inflight == 0 ==> ratio == 0.0
  {
    inflight as real / current as real
  }

  /** The target asked for, before cooldown. */
  function Suggest(c: Config, current: int, inflight: int, delta: Counts): (int, Why)
    requires current > 0
  {
    var ratio := Utilization(inflight, current);
    if delta.hard > 0 then (Max(c.minTarget, current - c.step), Overloaded)
    else if delta.soft > 0 then (current, SoftPressure)
    else if ratio >= c.high then (current, Saturated)
    else if delta.accepted > 0 && ratio <= c.low then (Min(c.maxTarget, current + c.step), Underutilized)
    else (current, Hold)
  }

  function Step(c: Config, hardLimit: nat, t: Tuner, s: Signal, now: int): (Tuner, Decision)
    requires t.target > 0
  {
    var hold := Decision(t.target, t.target, t.target, NO_COUNTS, true, false, Hold, false);
    if Malformed(c, s, now) then (t, hold.(valid := false, why := StaleOrInvalid))
    else if t.previous.Some? && WentBack(t.previous.value, s) then (t, hold.(valid := false, why := CounterReset))
    else
      var d := hold.(delta := if t.previous.Some? then Minus(Totals(s), Totals(t.previous.value)) else NO_COUNTS);
      var u := t.(previous := Some(s));
      var (suggested, why) := Suggest(c, t.target, s.inflight, d.delta);
      if suggested != t.target && t.lastAction.Some? && now - t.lastAction.value < c.cooldown then
        (u, d.(suggested := suggested, why := why, cooling := true))
      else if suggested != t.target && c.active then
        if 0 < suggested <= hardLimit then
          (u.(target := suggested, lastAction := Some(now)),
           d.(suggested := suggested, why := why, changed := true, applied := suggested))
        else (u, d.(suggested := suggested, valid := false, why := UpdateFailed))
      else (u, d.(suggested := suggested, why := why))
  }

  ghost predicate TunerInv(c: Config, hardLimit: nat, t: Tuner) {
    ValidConfig(c, hardLimit) && 1 <= t.target <= hardLimit
  }

  /** What one signal can do, whatever it holds. */
  lemma StepEffect(c: Config, hardLimit: nat, t: Tuner, s: Signal, now: int)
    requires TunerInv(c, hardLimit, t)
    ensures var (u, d) := Step(c, hardLimit, t, s, now);
            && TunerInv(c, hardLimit, u)
            && d.why != UpdateFailed
            && d.previousTarget == t.target && d.applied == u.target
            && (c.minTarget <= t.target <= c.maxTarget ==>
                  c.minTarget <= u.target <= c.maxTarget && -c.step <= u.target - t.target <= c.step)
            && (u.target != t.target ==> d.changed)
            && (d.changed ==> u.lastAction == Some(now)
                              && (t.lastAction.Some? ==> now - t.lastAction.value >= c.cooldown))
            && (!d.changed ==> u.lastAction == t.lastAction)
  {
  }

  /** In the band, only a hard rejection lowers the target, and only a sample with admissions, without
      rejections and at or below the low watermark raises it; an observing tuner never moves it. */
  lemma TargetMovesForCause(c: Config, hardLimit: nat, t: Tuner, s: Signal, now: int)
    requires TunerInv(c, hardLimit, t) && c.minTarget <= t.target <= c.maxTarget
    ensures var (u, d) := Step(c, hardLimit, t, s, now);
            && (u.target < t.target ==> d.delta.hard > 0)
            && (u.target > t.target ==> d.delta.hard == 0 && d.delta.soft == 0 && d.delta.accepted > 0
                                        && Utilization(s.inflight, t.target) <= c.low)
            && (!c.active ==> u.target == t.target)
  {
    StepDelta(c, hardLimit, t, s, now);
  }

  /** Which samples count: dated, not stale, with consistent rejections, and no total below the last one. */
  lemma SampleCountsIff(c: Config, hardLimit: nat, t: Tuner, s: Signal, now: int)
    requires TunerInv(c, hardLimit, t)
    ensures Step(c, hardLimit, t, s, now).1.valid <==>
            && s.observedAt.Some? && now - s.observedAt.value <= 2 * c.interval && s.inflight >= 0
            && s.softRejected <= s.rejected && s.hardRejected <= s.rejected
            && (s.softRejected + s.hardRejected) % U64_LIMIT <= s.rejected
            && (t.previous.Some? ==>
                  var p := t.previous.value;
                  && (p.observedAt.Some? ==> p.observedAt.value <= s.observedAt.value)
                  && p.accepted <= s.accepted && p.completed <= s.completed && p.rejected <= s.rejected
                  && p.softRejected <= s.softRejected && p.hardRejected <= s.hardRejected)
  {
    StepEffect(c, hardLimit, t, s, now);
  }

  /** The new target as a table. Only a counted sample moves it, in active mode and off cooldown: a hard
      rejection down by Step to MinTarget at most; without rejections, admissions at or below the low
      watermark up by Step to MaxTarget at most. */
  lemma TargetMovesExactly(c: Config, hardLimit: nat, t: Tuner, s: Signal, now: int)
    requires TunerInv(c, hardLimit, t)
    ensures var (u, d) := Step(c, hardLimit, t, s, now);
            var free := d.valid && c.active && (t.lastAction.Some? ==> now - t.lastAction.value >= c.cooldown);
            && (t.previous.Some? && d.valid ==>
                  d.delta.hard == s.hardRejected - t.previous.value.hardRejected
                  && d.delta.soft == s.softRejected - t.previous.value.softRejected
                  && d.delta.accepted == s.accepted - t.previous.value.accepted)
            && u.target
               == (if free && d.delta.hard > 0 then
                    (if t.target - c.step > c.minTarget then t.target - c.step else c.minTarget)
                  else if free && d.delta.soft == 0 && d.delta.accepted > 0
                          && s.inflight as real / t.target as real <= c.low then
                    (if t.target + c.step < c.maxTarget then t.target + c.step else c.maxTarget)
                  else t.target)
            && (d.valid ==>
                  d.why == if d.delta.hard > 0 then Overloaded
                           else if d.delta.soft > 0 then SoftPressure
                           else if s.inflight as real / t.target as real >= c.high then Saturated
                           else if d.delta.accepted > 0 && s.inflight as real / t.target as real <= c.low
                           then Underutilized
                           else Hold)
            && (d.cooling <==> d.valid && d.suggested != t.target
                               && t.lastAction.Some? && now - t.lastAction.value < c.cooldown)
  {
    StepDelta(c, hardLimit, t, s, now);
    StepEffect(c, hardLimit, t, s, now);
  }

  datatype Tick = Tick(signal: Signal, now: int)

  function Run(c: Config, hardLimit: nat, t: Tuner, ticks: seq<Tick>): Tuner
    requires TunerInv(c, hardLimit, t)
    ensures TunerInv(c, hardLimit, Run(c, hardLimit, t, ticks))
  {
    if ticks == [] then t
    else
      var n := |ticks| - 1;
      var u := Run(c, hardLimit, t, ticks[..n]);
      StepEffect(c, hardLimit, u, ticks[n].signal, ticks[n].now);
      Step(c, hardLimit, u, ticks[n].signal, ticks[n].now).0
  }

  function DecisionAt(c: Config, hardLimit: nat, t: Tuner, ticks: seq<Tick>, i: nat): Decision
    requires TunerInv(c, hardLimit, t) && i < |ticks|
  {
    Step(c, hardLimit, Run(c, hardLimit, t, ticks[..i]), ticks[i].signal, ticks[i].now).1
  }

  /** One tick of a run: the effect of StepEffect on the states around it. */
  lemma TickEffect(c: Config, hardLimit: nat, t: Tuner, ticks: seq<Tick>, k: nat)
    requires TunerInv(c, hardLimit, t) && k < |ticks|
    ensures var before, after := Run(c, hardLimit, t, ticks[..k]), Run(c, hardLimit, t, ticks[..k + 1]);
            var d := DecisionAt(c, hardLimit, t, ticks, k);
            && d.why != UpdateFailed
            && (c.minTarget <= before.target <= c.maxTarget ==>
                  c.minTarget <= after.target <= c.maxTarget && -c.step <= after.target - before.target <= c.step)
            && (d.changed ==> after.lastAction == Some(ticks[k].now)
                              && (before.lastAction.Some? ==> ticks[k].now - before.lastAction.value >= c.cooldown))
            && (!d.changed ==> after.lastAction == before.lastAction)
  {
    assert ticks[..k + 1][..k] == ticks[..k] && ticks[..k + 1][k] == ticks[k];
    StepEffect(c, hardLimit, Run(c, hardLimit, t, ticks[..k]), ticks[k].signal, ticks[k].now);
  }

  /** Over every signal sequence, in the band or not, a failed target update is unreachable. */
  lemma UpdateNeverFails(c: Config, hardLimit: nat, t: Tuner, ticks: seq<Tick>, i: nat)
    requires TunerInv(c, hardLimit, t) && i < |ticks|
    ensures DecisionAt(c, hardLimit, t, ticks, i).why != UpdateFailed
  {
    TickEffect(c, hardLimit, t, ticks, i);
  }

  /** From the first tick in [MinTarget, MaxTarget] on the target stays there and moves by at most
      Step per tick. */
  lemma {:induction false} TargetStaysInBand(c: Config, hardLimit: nat, t: Tuner, ticks: seq<Tick>, i: nat, j: nat)
    requires TunerInv(c, hardLimit, t) && i <= j < |ticks|
    requires c.minTarget <= Run(c, hardLimit, t, ticks[..i]).target <= c.maxTarget
    ensures var before, after := Run(c, hardLimit, t, ticks[..j]).target, Run(c, hardLimit, t, ticks[..j + 1]).target;
            && c.minTarget <= before <= c.maxTarget && c.minTarget <= after <= c.maxTarget
            && -c.step <= after - before <= c.step
    decreases j
  {
    if i < j { TargetStaysInBand(c, hardLimit, t, ticks, i, j - 1); }
    TickEffect(c, hardLimit, t, ticks, j);
  }

  lemma {:induction false} LastActionSince(c: Config, hardLimit: nat, t: Tuner, ticks: seq<Tick>, i: nat, j: nat)
    requires TunerInv(c, hardLimit, t) && i < j <= |ticks| && DecisionAt(c, hardLimit, t, ticks, i).changed
    ensures var last := Run(c, hardLimit, t, ticks[..j]).lastAction; last.Some? && last.value >= ticks[i].now
    decreases j
  {
    TickEffect(c, hardLimit, t, ticks, j - 1);
    if i < j - 1 { LastActionSince(c, hardLimit, t, ticks, i, j - 1); }
  }

  /** Any two applied changes are at least Cooldown apart, whatever the clock does in between. */
  lemma ChangesRespectCooldown(c: Config, hardLimit: nat, t: Tuner, ticks: seq<Tick>, i: nat, j: nat)
    requires TunerInv(c, hardLimit, t) && i < j < |ticks|
    requires DecisionAt(c, hardLimit, t, ticks, i).changed && DecisionAt(c, hardLimit, t, ticks, j).changed
    ensures ticks[j].now - ticks[i].now >= c.cooldown
  {
    LastActionSince(c, hardLimit, t, ticks, i, j);
    TickEffect(c, hardLimit, t, ticks, j);
  }

  function DeltaSum(c: Config, hardLimit: nat, t: Tuner, ticks: seq<Tick>): Counts
    requires TunerInv(c, hardLimit, t)
  {
    if ticks == [] then NO_COUNTS
    else Plus(DeltaSum(c, hardLimit, t, ticks[..|ticks| - 1]), DecisionAt(c, hardLimit, t, ticks, |ticks| - 1).delta)
  }

  /** The sample the deltas count from: the one known at the start, else the first accepted. */
  function Origin(c: Config, hardLimit: nat, t: Tuner, ticks: seq<Tick>): Option<Signal>
    requires TunerInv(c, hardLimit, t)
  {
    if ticks == [] || Run(c, hardLimit, t, ticks[..|ticks| - 1]).previous.None?
    then Run(c, hardLimit, t, ticks).previous
    else Origin(c, hardLimit, t, ticks[..|ticks| - 1])
  }

  lemma StepDelta(c: Config, hardLimit: nat, t: Tuner, s: Signal, now: int)
    requires TunerInv(c, hardLimit, t)
    ensures var (u, d) := Step(c, hardLimit, t, s, now);
            && (t.previous.None? ==> d.delta == NO_COUNTS)
            && (t.previous.Some? ==>
                  u.previous.Some? && d.delta == Minus(Totals(u.previous.value), Totals(t.previous.value)))
            && d.delta.accepted >= 0 && d.delta.completed >= 0 && d.delta.rejected >= 0
            && d.delta.soft >= 0 && d.delta.hard >= 0
  {
  }

  /** The totals counted so far, from the first accepted sample to the last. */
  function Span(first: Option<Signal>, last: Option<Signal>): Counts {
    if first.Some? && last.Some? then Minus(Totals(last.value), Totals(first.value)) else NO_COUNTS
  }

  lemma SpanStep(first: Option<Signal>, last: Option<Signal>, next: Option<Signal>, d: Counts)
    requires first.Some? == last.Some? && (last.None? ==> d == NO_COUNTS)
    requires last.Some? ==> next.Some? && d == Minus(Totals(next.value), Totals(last.value))
    ensures Plus(Span(first, last), d) == Span(if first.Some? then first else next, next)
  {
    if first.Some? {
      MinusChains(Totals(first.value), Totals(last.value), Totals(next.value));
    } else if next.Some? {
      MinusSelf(Totals(next.value));
    }
  }

  lemma MinusChains(a: Counts, b: Counts, d: Counts)
    ensures Plus(Minus(b, a), Minus(d, b)) == Minus(d, a)
  {
  }

  lemma MinusSelf(a: Counts)
    ensures Minus(a, a) == NO_COUNTS
  {
  }

  /** One tick's delta takes the span from the samples before it to the samples after it. */
  lemma TickDelta(c: Config, hardLimit: nat, t: Tuner, tick: Tick, first: Option<Signal>)
    requires TunerInv(c, hardLimit, t) && first.Some? == t.previous.Some?
    ensures var (u, d) := Step(c, hardLimit, t, tick.signal, tick.now);
            && (first.Some? ==> u.previous.Some?)
            && Plus(Span(first, t.previous), d.delta) == Span(if first.Some? then first else u.previous, u.previous)
  {
    var (u, d) := Step(c, hardLimit, t, tick.signal, tick.now);
    StepDelta(c, hardLimit, t, tick.signal, tick.now);
    SpanStep(first, t.previous, u.previous, d.delta);
  }

  /** The first accepted sample and the sum of deltas after one more tick that leads to `next`. */
  lemma LastTick(c: Config, hardLimit: nat, t: Tuner, ticks: seq<Tick>, next: Tuner, d: Decision)
    requires TunerInv(c, hardLimit, t) && ticks != []
    requires var n := |ticks| - 1;
             (next, d) == Step(c, hardLimit, Run(c, hardLimit, t, ticks[..n]), ticks[n].signal, ticks[n].now)
    ensures var rest := ticks[..|ticks| - 1];
            && Run(c, hardLimit, t, ticks) == next
            && DeltaSum(c, hardLimit, t, ticks) == Plus(DeltaSum(c, hardLimit, t, rest), d.delta)
            && Origin(c, hardLimit, t, ticks) == if Run(c, hardLimit, t, rest).previous.None? then next.previous
                                                 else Origin(c, hardLimit, t, rest)
  {
  }

  /** However many samples were stale, malformed or reset in between, the deltas of the accepted ones
      add up to the last accepted totals minus the first. */
  lemma {:induction false} DeltasTelescope(c: Config, hardLimit: nat, t: Tuner, ticks: seq<Tick>)
    requires TunerInv(c, hardLimit, t)
    ensures Origin(c, hardLimit, t, ticks).Some? == Run(c, hardLimit, t, ticks).previous.Some?
    ensures DeltaSum(c, hardLimit, t, ticks)
         == Span(Origin(c, hardLimit, t, ticks), Run(c, hardLimit, t, ticks).previous)
  {
    if ticks != [] {
      var rest, tick := ticks[..|ticks| - 1], ticks[|ticks| - 1];
      DeltasTelescope(c, hardLimit, t, rest);
      var u := Run(c, hardLimit, t, rest);
      var (v, d) := Step(c, hardLimit, u, tick.signal, tick.now);
      TickDelta(c, hardLimit, u, tick, Origin(c, hardLimit, t, rest));
      LastTick(c, hardLimit, t, ticks, v, d);
    }
  }

  /** No accepted sample ever counts backwards. */
  lemma DeltasNeverNegative(c: Config, hardLimit: nat, t: Tuner, ticks: seq<Tick>, i: nat)
    requires TunerInv(c, hardLimit, t) && i < |ticks|
    ensures var d := DecisionAt(c, hardLimit, t, ticks, i).delta;
            d.accepted >= 0 && d.completed >= 0 && d.rejected >= 0 && d.soft >= 0 && d.hard >= 0
  {
    StepDelta(c, hardLimit, Run(c, hardLimit, t, ticks[..i]), ticks[i].signal, ticks[i].now);
  }

  // ---------------------------------------------------------------- gate and tuner together

  /** The gateway's one gate, its request counters and its tuner, which alone moves the target.
      `hard` and `soft` count refusals; every request, refused or not, ends as completed. */
  datatype Gateway = Gateway(gate: Gate, accepted: nat, completed: nat, soft: nat, hard: nat,
                             previous: Option<Signal>, lastAction: Option<int>)

  function Opened(hardLimit: nat, target: int): Gateway {
    Gateway(Gate(hardLimit, target, 0, []), 0, 0, 0, 0, None, None)
  }

  /** A sample may be torn: any signal whose hard total is one the counter has shown by then. */
  datatype GatewayOp = Arrive | Depart(permit: nat) | Sample(signal: Signal, seen: nat, now: int)

  function Arrived(g: Gateway): Gateway {
    var (gate, refusal) := Admit(g.gate);
    match refusal
    case None => g.(gate := gate, accepted := g.accepted + 1)
    case Some(HardLimit) => g.(completed := g.completed + 1, hard := g.hard + 1)
    case Some(SoftTarget) => g.(completed := g.completed + 1, soft := g.soft + 1)
  }

  function TunerOf(g: Gateway): Tuner { Tuner(g.gate.target, g.previous, g.lastAction) }

  predicate Possible(g: Gateway, op: GatewayOp) {
    op.Sample? ==> op.seen <= g.hard && op.signal.hardRejected == op.seen % U64_LIMIT
  }

  function GatewayNext(c: Config, g: Gateway, op: GatewayOp): Gateway
    requires g.gate.target > 0
  {
    match op
    case Arrive => Arrived(g)
    case Depart(i) =>
      if i < |g.gate.permits| && g.gate.permits[i]
      then g.(gate := GateNext(g.gate, Release(i)), completed := g.completed + 1) else g
    case Sample(signal, _, now) =>
      if !Possible(g, op) then g
      else
        var u := Step(c, g.gate.hardLimit, TunerOf(g), signal, now).0;
        g.(gate := g.gate.(target := u.target), previous := u.previous, lastAction := u.lastAction)
  }

  /** Below MinTarget nothing was ever refused at the hard limit: the gate has never been that full. */
  ghost predicate GatewayInv(c: Config, g: Gateway) {
    && ValidConfig(c, g.gate.hardLimit) && GateInv(g.gate)
    && (g.gate.target < c.minTarget ==>
          g.gate.held <= g.gate.target && g.hard == 0
          && (g.previous.Some? ==> g.previous.value.hardRejected == 0))
  }

  lemma SampleKeepsInv(c: Config, g: Gateway, op: GatewayOp)
    requires GatewayInv(c, g) && op.Sample? && Possible(g, op)
    ensures GatewayInv(c, GatewayNext(c, g, op))
  {
    var (u, d) := Step(c, g.gate.hardLimit, TunerOf(g), op.signal, op.now);
    StepEffect(c, g.gate.hardLimit, TunerOf(g), op.signal, op.now);
    assert u.previous == g.previous || u.previous == Some(op.signal);
  }

  lemma GatewayKeepsInv(c: Config, g: Gateway, op: GatewayOp)
    requires GatewayInv(c, g)
    ensures GatewayInv(c, GatewayNext(c, g, op)) && GatewayNext(c, g, op).gate.hardLimit == g.gate.hardLimit
  {
    match op
    case Arrive => GateNextKeepsInv(g.gate, TryAcquire);
    case Depart(i) => GateNextKeepsInv(g.gate, Release(i));
    case Sample(_, _, _) => if Possible(g, op) { SampleKeepsInv(c, g, op); }
  }

  function GatewayRun(c: Config, g: Gateway, ops: seq<GatewayOp>): (r: Gateway)
    requires GatewayInv(c, g)
    ensures GatewayInv(c, r) && r.gate.hardLimit == g.gate.hardLimit
    decreases |ops|
  {
    if ops == [] then g
    else
      GatewayKeepsInv(c, g, ops[0]);
      GatewayRun(c, GatewayNext(c, g, ops[0]), ops[1..])
  }

  /** The tuner's decision on a sample taken in this state. */
  function DecisionOn(c: Config, g: Gateway, op: GatewayOp): Decision
    requires g.gate.target > 0 && op.Sample?
  {
    Step(c, g.gate.hardLimit, TunerOf(g), op.signal, op.now).1
  }

  /** After any run of requests and samples of a gateway, an applied change answers overload by a lower
      target, and underutilization by a higher one if and only if the target was below MaxTarget. */
  lemma MovesPointTheRightWay(c: Config, hardLimit: nat, initial: int, ops: seq<GatewayOp>, op: GatewayOp)
    requires ValidConfig(c, hardLimit) && 1 <= initial <= hardLimit
    requires var g := GatewayRun(c, Opened(hardLimit, initial), ops);
             op.Sample? && Possible(g, op) && DecisionOn(c, g, op).changed
    ensures var g := GatewayRun(c, Opened(hardLimit, initial), ops);
            var before, after := g.gate.target, GatewayNext(c, g, op).gate.target;
            match DecisionOn(c, g, op).why
            case Overloaded => after < before
            case Underutilized => after > before <==> before < c.maxTarget
            case _ => false
  {
    var g := GatewayRun(c, Opened(hardLimit, initial), ops);
    if g.gate.target < c.minTarget { BelowBandIsNeverOverloaded(c, g, op); }
  }

  /** Over any run of a gateway, a sample judged overloaded never raises the target. */
  lemma OverloadNeverRaisesTarget(c: Config, hardLimit: nat, initial: int, ops: seq<GatewayOp>, op: GatewayOp)
    requires ValidConfig(c, hardLimit) && 1 <= initial <= hardLimit
    requires var g := GatewayRun(c, Opened(hardLimit, initial), ops);
             op.Sample? && Possible(g, op) && DecisionOn(c, g, op).why == Overloaded
    ensures var g := GatewayRun(c, Opened(hardLimit, initial), ops);
            c.minTarget <= GatewayNext(c, g, op).gate.target <= g.gate.target
  {
    var g := GatewayRun(c, Opened(hardLimit, initial), ops);
    if g.gate.target < c.minTarget { BelowBandIsNeverOverloaded(c, g, op); }
  }

  lemma BelowBandIsNeverOverloaded(c: Config, g: Gateway, op: GatewayOp)
    requires GatewayInv(c, g) && op.Sample? && Possible(g, op) && g.gate.target < c.minTarget
    ensures DecisionOn(c, g, op).why != Overloaded
  {
    StepDelta(c, g.gate.hardLimit, TunerOf(g), op.signal, op.now);
  }

  /** The signal a sample sees when nothing moves while it is taken. */
  function Reading(g: Gateway, at: int): Signal {
    Signal(Some(at), g.gate.held, g.accepted % U64_LIMIT, g.completed % U64_LIMIT,
           (g.soft + g.hard) % U64_LIMIT, g.soft % U64_LIMIT, g.hard % U64_LIMIT)
  }

  function Sampled(g: Gateway, at: int): GatewayOp { Sample(Reading(g, at), g.hard, at) }

  function QuietRun(hardLimit: nat, initial: int, at: int): seq<GatewayOp> {
    [Sampled(Opened(hardLimit, initial), at), Arrive, Depart(0)]
  }

  function Visited(hardLimit: nat, initial: int, at: int): Gateway {
    Gateway(Gate(hardLimit, initial, 0, [false]), 1, 1, 0, 0, Some(Reading(Opened(hardLimit, initial), at)), None)
  }

  lemma QuietRunReaches(c: Config, hardLimit: nat, initial: int, at: int)
    requires ValidConfig(c, hardLimit) && 1 <= initial <= hardLimit
    ensures GatewayRun(c, Opened(hardLimit, initial), QuietRun(hardLimit, initial, at))
         == Visited(hardLimit, initial, at)
  {
    var g0 := Opened(hardLimit, initial);
    var ops := QuietRun(hardLimit, initial, at);
    var g1 := GatewayNext(c, g0, ops[0]);
    assert g1 == g0.(previous := Some(Reading(g0, at)));
    var g2 := GatewayNext(c, g1, Arrive);
    assert g2.gate == Gate(hardLimit, initial, 1, [true]) && [true][0 := false] == [false];
    assert GatewayNext(c, g2, Depart(0)) == Visited(hardLimit, initial, at);
    GatewayKeepsInv(c, g0, ops[0]);
    GatewayKeepsInv(c, g1, Arrive);
    GatewayKeepsInv(c, g2, Depart(0));
    assert ops[1..] == [Arrive, Depart(0)] && ops[1..][1..] == [Depart(0)] && ops[1..][1..][1..] == [];
    assert GatewayRun(c, g2, [Depart(0)]) == GatewayRun(c, Visited(hardLimit, initial, at), []);
  }

  /** Idle above MaxTarget, with an admission since the last sample and no refusal. */
  predicate IdleAbove(c: Config, g: Gateway, at: int) {
    && c.maxTarget < g.gate.target && g.gate.held == 0 && g.lastAction.None? && g.previous.Some?
    && (var delta := Minus(Totals(Reading(g, at)), Totals(g.previous.value));
        Takes(c, TunerOf(g), Reading(g, at), at, delta) && delta.hard == 0 && delta.soft == 0 && delta.accepted > 0)
  }

  lemma VisitedIsIdle(c: Config, hardLimit: nat, initial: int, at: int)
    requires ValidConfig(c, hardLimit) && c.maxTarget < initial <= hardLimit
    ensures IdleAbove(c, Visited(hardLimit, initial, at), at)
  {
  }

  /** A gateway that starts above MaxTarget, serves one request and is idle again: the tuner finds it
      underutilized and lowers the target to MaxTarget, on signals the gateway really shows. */
  lemma IdleGatewayLowersTarget(c: Config, hardLimit: nat, initial: int, at: int)
    requires ValidConfig(c, hardLimit) && c.active && c.maxTarget < initial <= hardLimit
    ensures var g := GatewayRun(c, Opened(hardLimit, initial), QuietRun(hardLimit, initial, at));
            LowersOnUnderuse(c, g, Sampled(g, at)) && GatewayNext(c, g, Sampled(g, at)).gate.target == c.maxTarget
  {
    var g := GatewayRun(c, Opened(hardLimit, initial), QuietRun(hardLimit, initial, at));
    assert IdleAbove(c, g, at) by {
      QuietRunReaches(c, hardLimit, initial, at);
      VisitedIsIdle(c, hardLimit, initial, at);
    }
    IdleSampleLowers(c, g, at);
  }

  /** The tuner takes this sample with this delta, and asks for this target. */
  predicate Takes(c: Config, t: Tuner, s: Signal, now: int, delta: Counts) {
    !Malformed(c, s, now) && t.previous.Some? && !WentBack(t.previous.value, s)
    && delta == Minus(Totals(s), Totals(t.previous.value))
  }

  predicate Asks(c: Config, current: int, inflight: int, delta: Counts, wanted: int, why: Why) {
    current > 0 && Suggest(c, current, inflight, delta) == (wanted, why)
  }

  predicate Moves(c: Config, hardLimit: nat, t: Tuner, s: Signal, now: int, wanted: int, why: Why) {
    t.target > 0 && var (u, d) := Step(c, hardLimit, t, s, now); u.target == wanted && d.why == why
  }

  lemma IdleAsks(c: Config, hardLimit: nat, current: int, delta: Counts)
    requires ValidConfig(c, hardLimit) && c.maxTarget < current
             && delta.hard == 0 && delta.soft == 0 && delta.accepted > 0
    ensures Asks(c, current, 0, delta, c.maxTarget, Underutilized)
  {
  }

  lemma FirstMoveApplies(c: Config, hardLimit: nat, t: Tuner, s: Signal, now: int, delta: Counts, wanted: int, why: Why)
    requires Takes(c, t, s, now, delta) && Asks(c, t.target, s.inflight, delta, wanted, why)
    requires c.active && t.lastAction.None? && wanted != t.target && 0 < wanted <= hardLimit
    ensures Moves(c, hardLimit, t, s, now, wanted, why)
  {
  }

  lemma IdleSampleLowers(c: Config, g: Gateway, at: int)
    requires ValidConfig(c, g.gate.hardLimit) && c.active && IdleAbove(c, g, at)
    ensures LowersOnUnderuse(c, g, Sampled(g, at)) && GatewayNext(c, g, Sampled(g, at)).gate.target == c.maxTarget
  {
    var delta := Minus(Totals(Reading(g, at)), Totals(g.previous.value));
    IdleAsks(c, g.gate.hardLimit, g.gate.target, delta);
    FirstMoveApplies(c, g.gate.hardLimit, TunerOf(g), Reading(g, at), at, delta, c.maxTarget, Underutilized);
  }

  ghost predicate LowersOnUnderuse(c: Config, g: Gateway, op: GatewayOp) {
    g.gate.target > 0 && op.Sample? && Possible(g, op) && DecisionOn(c, g, op).why == Underutilized
    && GatewayNext(c, g, op).gate.target < g.gate.target
  }

  lemma {:induction false} NeverAboveBand(c: Config, g: Gateway, ops: seq<GatewayOp>)
    requires GatewayInv(c, g)
    ensures g.gate.target <= c.maxTarget ==> GatewayRun(c, g, ops).gate.target <= c.maxTarget
    ensures !c.active ==> GatewayRun(c, g, ops).gate.target == g.gate.target
    decreases |ops|
  {
    if ops != [] {
      GatewayKeepsInv(c, g, ops[0]);
      NeverAboveBand(c, GatewayNext(c, g, ops[0]), ops[1..]);
    }
  }

  /** Some run of the gateway answers underutilization with a lower target if and only if the tuner is
      active and the gateway starts above MaxTarget. */
  lemma UnderuseLowersIff(c: Config, hardLimit: nat, initial: int)
    requires ValidConfig(c, hardLimit) && 1 <= initial <= hardLimit
    ensures (exists ops: seq<GatewayOp>, op: GatewayOp ::
               LowersOnUnderuse(c, GatewayRun(c, Opened(hardLimit, initial), ops), op))
            <==> c.active && initial > c.maxTarget
  {
    var g0 := Opened(hardLimit, initial);
    if c.active && initial > c.maxTarget {
      IdleGatewayLowersTarget(c, hardLimit, initial, 0);
    } else {
      forall ops: seq<GatewayOp>, op: GatewayOp ensures !LowersOnUnderuse(c, GatewayRun(c, g0, ops), op) {
        NeverAboveBand(c, g0, ops);
      }
    }
  }

  // ---------------------------------------------------------------- the objects

  class Controller {
    const hardLimit: nat
    var target: int
    var held: nat
    var permits: seq<bool>

    ghost function View(): Gate
      reads this
    {
      Gate(hardLimit, target, held, permits)
    }

    constructor (hardLimit: nat, initialTarget: nat)
      requires 0 < hardLimit && initialTarget <= hardLimit
      ensures View() == Gate(hardLimit, if initialTarget == 0 then hardLimit else initialTarget, 0, [])
      ensures GateInv(View())
    {
      this.hardLimit := hardLimit;
      target := if initialTarget == 0 then hardLimit else initialTarget;
      held, permits := 0, [];
    }

    method TryAcquirePermit() returns (refusal: Option<Refusal>, permit: nat)
      requires GateInv(View())
      modifies this
      ensures (View(), refusal) == Admit(old(View())) && GateInv(View())
      ensures refusal.None? ==> permit == |old(permits)| < |permits| && permits[permit]
      ensures refusal.None? <==> old(held) < hardLimit && old(held) < target
      ensures refusal == Some(HardLimit) <==> old(held) >= hardLimit
      ensures held == old(held) + if refusal.None? then 1 else 0
    {
      GateNextKeepsInv(View(), TryAcquire);
      permit := |permits|;
      if held >= hardLimit {
        return Some(HardLimit), permit;
      }
      if held >= target {
        return Some(SoftTarget), permit;
      }
      held, permits := held + 1, permits + [true];
      refusal := None;
    }

    method ReleasePermit(i: nat)
      requires GateInv(View()) && i < |permits|
      modifies this
      ensures View() == GateNext(old(View()), Release(i)) && GateInv(View())
      ensures !permits[i] && held == old(held) - (if old(permits[i]) then 1 else 0)
    {
      GateNextKeepsInv(View(), Release(i));
      if permits[i] {
        ReleaseCounts(permits, i);
        permits := permits[i := false];
        held := held - 1;
      }
    }

    method MoveTarget(wanted: int) returns (ok: bool)
      modifies this`target
      ensures ok <==> 0 < wanted <= hardLimit
      ensures target == if ok then wanted else old(target)
    {
      if wanted <= 0 || wanted > hardLimit {
        return false;
      }
      target := wanted;
      ok := true;
    }
  }

  class TuningLoop {
    const config: Config
    const controller: Controller
    var previous: Option<Signal>
    var lastAction: Option<int>

    ghost function View(): Tuner
      reads this, controller
    {
      Tuner(controller.target, previous, lastAction)
    }

    constructor (config: Config, controller: Controller)
      requires ValidConfig(config, controller.hardLimit)
      ensures this.config == config && this.controller == controller
      ensures View() == Tuner(controller.target, None, None)
    {
      this.config, this.controller := config, controller;
      previous, lastAction := None, None;
    }

    /** One tick of the control loop; the controller's permits are untouched. */
    method TuneOnce(s: Signal, now: int) returns (d: Decision)
      requires TunerInv(config, controller.hardLimit, View())
      modifies this, controller`target
      ensures (View(), d) == Step(config, controller.hardLimit, old(View()), s, now)
      ensures TunerInv(config, controller.hardLimit, View()) && d.why != UpdateFailed
    {
      StepEffect(config, controller.hardLimit, View(), s, now);
      var current := controller.target;
      d := Decision(current, current, current, NO_COUNTS, true, false, Hold, false);
      if Malformed(config, s, now) {
        return d.(valid := false, why := StaleOrInvalid);
      }
      if previous.Some? {
        if WentBack(previous.value, s) {
          return d.(valid := false, why := CounterReset);
        }
        d := d.(delta := Minus(Totals(s), Totals(previous.value)));
      }
      previous := Some(s);
      var (suggested, why) := Suggest(config, current, s.inflight, d.delta);
      d := d.(suggested := suggested, why := why);
      if suggested != current && lastAction.Some? && now - lastAction.value < config.cooldown {
        return d.(cooling := true);
      }
      if suggested != current && config.active {
        var ok := controller.MoveTarget(suggested);
        if !ok {
          return d.(valid := false, why := UpdateFailed);
        }
        lastAction := Some(now);
        d := d.(changed := true);
      }
      return d.(applied := controller.target);
    }
  }
}
