/**
 Per-backend circuit breaking on an exponentially weighted error rate. Floats are reals,
 instants are integers and the zero instant is None.
 */
module Circuit {
  import opened Wrappers

  datatype Config = Config(alpha: real, threshold: real, minimumRequests: nat, openDuration: int)

  predicate ValidConfig(c: Config) {
    0.0 < c.alpha <= 1.0 && 0.0 < c.threshold <= 1.0 && c.minimumRequests > 0 && c.openDuration > 0
  }

  datatype Circuit = Circuit(ewma: real, samples: nat, openUntil: Option<int>)

  const CLOSED := Circuit(0.0, 0, None)

  predicate Expired(s: Circuit, now: int) { s.openUntil.Some? && now >= s.openUntil.value }
  predicate Open(s: Circuit, now: int) { s.openUntil.Some? && now < s.openUntil.value }

  function Blend(alpha: real, sample: real, ewma: real): real { alpha * sample + (1.0 - alpha) * ewma }

  /** One outcome; the second part says whether this outcome opened the circuit. */
  function Recorded(c: Config, s: Circuit, failure: bool, now: int): (Circuit, bool) {
    var base := if Expired(s, now) then CLOSED else s;
    var sample := if failure then 1.0 else 0.0;
    var ewma := if base.samples == 0 then sample else Blend(c.alpha, sample, base.ewma);
    var opens := failure && base.samples + 1 >= c.minimumRequests && ewma >= c.threshold;
    (Circuit(ewma, base.samples + 1, if opens then Some(now + c.openDuration) else base.openUntil), opens)
  }

  /** Asking whether the circuit is open forgets an expired one. */
  function Asked(s: Circuit, now: int): Circuit { if Expired(s, now) then CLOSED else s }

  // ---------------------------------------------------------------- histories

  datatype Op = Record(failure: bool, at: int) | Ask(when: int) | Forget

  function Next(c: Config, s: Circuit, op: Op): Circuit {
    match op
    case Record(failure, at) => Recorded(c, s, failure, at).0
    case Ask(when) => Asked(s, when)
    case Forget => CLOSED
  }

  function Run(c: Config, ops: seq<Op>): Circuit {
    if ops == [] then CLOSED else Next(c, Run(c, ops[..|ops| - 1]), ops[|ops| - 1])
  }

  lemma ProductNonNegative(a: real, b: real)
    requires a >= 0.0 && b >= 0.0
    ensures a * b >= 0.0
  {
  }

  lemma BlendInUnit(a: real, x: real, y: real)
    requires 0.0 <= a <= 1.0 && 0.0 <= x <= 1.0 && 0.0 <= y <= 1.0
    ensures 0.0 <= Blend(a, x, y) <= 1.0
  {
    ProductNonNegative(a, x);
    ProductNonNegative(1.0 - a, y);
    ProductNonNegative(a, 1.0 - x);
    ProductNonNegative(1.0 - a, 1.0 - y);
    assert a * (1.0 - x) + (1.0 - a) * (1.0 - y) == 1.0 - Blend(a, x, y);
  }

  /** For every outcome history the error rate is a rate. */
  lemma {:induction false} EwmaStaysInUnit(c: Config, ops: seq<Op>)
    requires ValidConfig(c)
    ensures 0.0 <= Run(c, ops).ewma <= 1.0
  {
    if ops != [] {
      EwmaStaysInUnit(c, ops[..|ops| - 1]);
      BlendInUnit(c.alpha, 1.0, Run(c, ops[..|ops| - 1]).ewma);
      BlendInUnit(c.alpha, 0.0, Run(c, ops[..|ops| - 1]).ewma);
    }
  }

  function Power(x: real, n: nat): real { if n == 0 then 1.0 else x * Power(x, n - 1) }

  function Failures(c: Config, s: Circuit, times: seq<int>): Circuit {
    if times == [] then s else Recorded(c, Failures(c, s, times[..|times| - 1]), true, times[|times| - 1]).0
  }

  /** No recorded failure meets an expired circuit, so none restarts the window. */
  predicate NoReset(c: Config, s: Circuit, times: seq<int>) {
    times == [] || (NoReset(c, s, times[..|times| - 1])
                    && !Expired(Failures(c, s, times[..|times| - 1]), times[|times| - 1]))
  }

  lemma ShrinkStep(alpha: real, e: real, p: real, d: real)
    requires 1.0 - e == p * d
    ensures 1.0 - Blend(alpha, 1.0, e) == ((1.0 - alpha) * p) * d
  {
    assert (1.0 - alpha) * (1.0 - e) == (1.0 - alpha) * (p * d);
    assert (1.0 - alpha) * (1.0 - e) == 1.0 - Blend(alpha, 1.0, e);
  }

  /** n consecutive failures without a reset shrink the distance to 1 by exactly (1 - alpha)^n. */
  lemma {:induction false} FailuresShrinkGap(c: Config, s: Circuit, times: seq<int>)
    requires ValidConfig(c) && s.samples > 0 && NoReset(c, s, times)
    ensures var t := Failures(c, s, times);
            t.samples == s.samples + |times| && 1.0 - t.ewma == Power(1.0 - c.alpha, |times|) * (1.0 - s.ewma)
  {
    if times != [] {
      var n := |times| - 1;
      FailuresShrinkGap(c, s, times[..n]);
      ShrinkStep(c.alpha, Failures(c, s, times[..n]).ewma, Power(1.0 - c.alpha, n), 1.0 - s.ewma);
    }
  }

  function Successes(c: Config, s: Circuit, times: seq<int>): Circuit {
    if times == [] then s else Recorded(c, Successes(c, s, times[..|times| - 1]), false, times[|times| - 1]).0
  }

  predicate NoResetBySuccess(c: Config, s: Circuit, times: seq<int>) {
    times == [] || (NoResetBySuccess(c, s, times[..|times| - 1])
                    && !Expired(Successes(c, s, times[..|times| - 1]), times[|times| - 1]))
  }

  lemma DecayStep(alpha: real, e: real, p: real, d: real)
    requires e == p * d
    ensures Blend(alpha, 0.0, e) == ((1.0 - alpha) * p) * d
  {
    assert (1.0 - alpha) * e == (1.0 - alpha) * (p * d);
  }

  /** n consecutive successes without a reset shrink the rate by exactly (1 - alpha)^n and open nothing. */
  lemma {:induction false} SuccessesShrinkRate(c: Config, s: Circuit, times: seq<int>)
    requires ValidConfig(c) && s.samples > 0 && NoResetBySuccess(c, s, times)
    ensures var t := Successes(c, s, times);
            && t.samples == s.samples + |times| && t.ewma == Power(1.0 - c.alpha, |times|) * s.ewma
            && t.openUntil == s.openUntil
  {
    if times != [] {
      var n := |times| - 1;
      SuccessesShrinkRate(c, s, times[..n]);
      DecayStep(c.alpha, Successes(c, s, times[..n]).ewma, Power(1.0 - c.alpha, n), s.ewma);
    }
  }

  /** A window of failures only has rate 1 and opens at the MinimumRequests-th sample exactly. */
  lemma {:induction false} AllFailuresOpenAtMinimum(c: Config, times: seq<int>)
    requires ValidConfig(c) && NoReset(c, CLOSED, times)
    ensures var t := Failures(c, CLOSED, times);
            t.samples == |times| && (times != [] ==> t.ewma == 1.0)
            && (t.openUntil.Some? <==> |times| >= c.minimumRequests)
            && (t.openUntil.Some? ==> t.openUntil.value == times[|times| - 1] + c.openDuration)
    ensures times != [] ==>
              (Recorded(c, Failures(c, CLOSED, times[..|times| - 1]), true, times[|times| - 1]).1
               <==> |times| >= c.minimumRequests)
  {
    if times != [] {
      AllFailuresOpenAtMinimum(c, times[..|times| - 1]);
      assert Blend(c.alpha, 1.0, 1.0) == 1.0;
    }
  }

  ghost predicate FailedWithin(ops: seq<Op>, from: int, until: int) {
    exists i :: 0 <= i < |ops| && ops[i].Record? && ops[i].failure && from < ops[i].at <= until
  }

  predicate TimesUpTo(ops: seq<Op>, now: int) {
    forall i :: 0 <= i < |ops| && ops[i].Record? ==> ops[i].at <= now
  }

  lemma {:induction false} OpenUntilNamesAFailure(c: Config, ops: seq<Op>)
    requires ValidConfig(c) && Run(c, ops).openUntil.Some?
    ensures exists i :: 0 <= i < |ops| && ops[i].Record? && ops[i].failure
                        && Run(c, ops).openUntil.value == ops[i].at + c.openDuration
  {
    var n := |ops| - 1;
    var last := ops[n];
    if last.Record? && Recorded(c, Run(c, ops[..n]), last.failure, last.at).1 {
      assert ops[n].failure && Run(c, ops).openUntil.value == ops[n].at + c.openDuration;
    } else {
      OpenUntilNamesAFailure(c, ops[..n]);
      var i :| 0 <= i < n && ops[..n][i].Record? && ops[..n][i].failure
               && Run(c, ops[..n]).openUntil.value == ops[..n][i].at + c.openDuration;
      assert ops[i] == ops[..n][i];
    }
  }

  /** A circuit is open at t only if a failure was recorded within the preceding OpenDuration. */
  lemma OpenMeansRecentFailure(c: Config, ops: seq<Op>, now: int)
    requires ValidConfig(c) && TimesUpTo(ops, now) && Open(Run(c, ops), now)
    ensures FailedWithin(ops, now - c.openDuration, now)
  {
    OpenUntilNamesAFailure(c, ops);
  }

  // ---------------------------------------------------------------- the object

  class Breaker {
    const config: Config
    var states: map<string, Circuit>

    constructor (config: Config)
      requires ValidConfig(config)
      ensures this.config == config && states == map[]
    {
      this.config := config;
      states := map[];
    }

    function StateOf(b: string): Circuit
      reads this
    {
      if b in states then states[b] else CLOSED
    }

    /** `failure` is None for anything but a success or a failure. */
    method RecordOutcome(b: string, failure: Option<bool>, now: int) returns (opens: bool)
      modifies this
      ensures b == "" || failure.None? ==> states == old(states) && !opens
      ensures b != "" && failure.Some? ==>
                (StateOf(b), opens) == Recorded(config, old(StateOf(b)), failure.value, now)
                && states == old(states)[b := StateOf(b)]
                && (var before := old(StateOf(b));
                    var restarts := before.openUntil.Some? && now >= before.openUntil.value;
                    var sample := if failure.value then 1.0 else 0.0;
                    && StateOf(b).samples == 1 + (if restarts then 0 else before.samples)
                    && StateOf(b).ewma == (if restarts || before.samples == 0 then sample
                                           else config.alpha * sample + (1.0 - config.alpha) * before.ewma)
                    && (!opens ==> StateOf(b).openUntil == if restarts then None else before.openUntil))
                && (opens ==> StateOf(b).openUntil == Some(now + config.openDuration))
                && (opens <==> failure.value && StateOf(b).samples >= config.minimumRequests
                               && StateOf(b).ewma >= config.threshold)
    {
      if b == "" || failure.None? {
        return false;
      }
      var state := StateOf(b);
      if state.openUntil.Some? && now >= state.openUntil.value {
        state := CLOSED;
      }
      var sample := if failure.value then 1.0 else 0.0;
      if state.samples == 0 {
        state := state.(ewma := sample);
      } else {
        state := state.(ewma := Blend(config.alpha, sample, state.ewma));
      }
      state := state.(samples := state.samples + 1);
      opens := false;
      if failure.value && state.samples >= config.minimumRequests && state.ewma >= config.threshold {
        state := state.(openUntil := Some(now + config.openDuration));
        opens := true;
      }
      states := states[b := state];
    }

    method IsOpen(b: string, now: int) returns (open: bool)
      modifies this
      ensures open <==> b in old(states) && old(states)[b].openUntil.Some? && now < old(states)[b].openUntil.value
      ensures open == Open(old(StateOf(b)), now)
      ensures StateOf(b) == Asked(old(StateOf(b)), now)
      ensures forall d :: d != b ==> StateOf(d) == old(StateOf(d))
      ensures states.Keys == old(states.Keys)
    {
      if b !in states || states[b].openUntil.None? {
        return false;
      }
      if now < states[b].openUntil.value {
        return true;
      }
      states := states[b := CLOSED];
      return false;
    }

    method Reconcile(members: seq<string>) returns (removed: set<string>)
      modifies this
      ensures removed == set b | b in old(states) && b !in members
      ensures states == old(states) - removed
    {
      var known := states;
      var todo := known.Keys;
      removed := {};
      while todo != {}
        invariant todo <= known.Keys
        invariant removed == set b | b in known.Keys && b !in todo && b !in members
        invariant states == known - removed
        decreases todo
      {
        var b :| b in todo;
        todo := todo - {b};
        if b !in members {
          states := states - {b};
          removed := removed + {b};
        }
      }
    }
  }
}
