/**
 The stateless strategies: KV-aware by equivalent token cost, load-aware and
 load-balanced, over one immutable snapshot of backends, circuits and loads.
 */
module Routing {
  import opened Int64
  import opened Selection

  datatype Load = Load(queueDepth: int, running: int, localDelta: int, valid: bool, hardOverload: bool)
  datatype Sample = Sample(value: real, valid: bool)
  datatype KvMatch = KvMatch(valid: bool, matchedTokens: int)
  datatype Confidence = Calibrated | Degraded | Uncalibrated
  datatype LatencyEstimate = LatencyEstimate(ttft: int, valid: bool, confidence: Confidence, version: string)

  datatype Snapshot = Snapshot(
    backends: seq<string>, inflight: map<string, int>, queues: map<string, Sample>,
    ineligible: map<string, string>, loads: map<string, Load>,
    promptTokens: int, matches: map<string, KvMatch>, estimates: map<string, LatencyEstimate>)

  datatype Policy = KvAware | KvAwareStatic | LoadAware | LoadBalanced
  datatype Why =
    | ByTokenCost | ByStaticEstimate | StaticFallback | HardOverloadFallback | ByObservedLoad | ByInflight

  datatype Decision = Rejected | Chosen(backend: string, why: Why, policy: Policy)

  /** A map read that yields the zero value for an absent key. */
  function Inflight(s: Snapshot, b: string): int { if b in s.inflight then s.inflight[b] else 0 }

  function LoadOf(s: Snapshot, b: string): Load {
    if b in s.loads then s.loads[b] else Load(0, 0, 0, false, false)
  }

  function QueueOf(s: Snapshot, b: string): real { if b in s.queues then s.queues[b].value else 0.0 }

  // ---------------------------------------------------------------- candidates

  method Eligible(s: Snapshot) returns (r: seq<string>)
    ensures r == EligibleBackends(s)
  {
    r := Keep(s.backends, Unblocked(s));
  }

  /** The scan that both filters make: append the candidates that pass. */
  method Keep(xs: seq<string>, keep: string -> bool) returns (r: seq<string>)
    ensures r == Filter(xs, keep)
  {
    r := [];
    FilterEnds(xs, keep);
    for i := 0 to |xs|
      invariant r == Filter(xs[..i], keep)
    {
      FilterNext(xs, keep, i);
      if keep(xs[i]) {
        r := r + [xs[i]];
      }
    }
  }

  function Filter(xs: seq<string>, keep: string -> bool): (r: seq<string>)
    ensures forall x :: x in r <==> x in xs && keep(x)
    ensures |r| <= |xs|
  {
    if xs == [] then []
    else
      var x := xs[|xs| - 1];
      assert xs == xs[..|xs| - 1] + [x];
      Filter(xs[..|xs| - 1], keep) + if keep(x) then [x] else []
  }

  lemma FilterEnds(xs: seq<string>, keep: string -> bool)
    ensures Filter(xs[..0], keep) == [] && Filter(xs[..|xs|], keep) == Filter(xs, keep)
  {
    assert xs[..|xs|] == xs;
  }

  lemma FilterNext(xs: seq<string>, keep: string -> bool, i: nat)
    requires i < |xs|
    ensures Filter(xs[..i + 1], keep) == if keep(xs[i]) then Filter(xs[..i], keep) + [xs[i]] else Filter(xs[..i], keep)
  {
    assert xs[..i + 1][..i] == xs[..i] && xs[..i + 1][i] == xs[i];
  }

  function Unblocked(s: Snapshot): string -> bool { b => b !in s.ineligible }

  function BelowHardGates(s: Snapshot): string -> bool { b => !LoadOf(s, b).hardOverload }

  function EligibleBackends(s: Snapshot): seq<string> { Filter(s.backends, Unblocked(s)) }

  function WithoutHardOverload(s: Snapshot, backends: seq<string>): seq<string> {
    Filter(backends, BelowHardGates(s))
  }

  method DropHardOverload(s: Snapshot, backends: seq<string>) returns (r: seq<string>)
    ensures r == WithoutHardOverload(s, backends)
  {
    r := Keep(backends, BelowHardGates(s));
  }

  /** Eligible backends below the hard gates, or all eligible ones when none is. */
  function LoadBalancedBackends(s: Snapshot): seq<string> {
    var available := WithoutHardOverload(s, EligibleBackends(s));
    if available != [] then available else EligibleBackends(s)
  }

  /** A hard-overloaded backend is a candidate only if every eligible one is. */
  lemma HardOverloadIsLastResort(s: Snapshot, b: string)
    requires b in LoadBalancedBackends(s)
    ensures b in EligibleBackends(s)
    ensures LoadOf(s, b).hardOverload ==> forall x :: x in EligibleBackends(s) ==> LoadOf(s, x).hardOverload
  {
    var available := WithoutHardOverload(s, EligibleBackends(s));
    forall x | x in EligibleBackends(s) && !LoadOf(s, x).hardOverload ensures x in available {}
  }

  method AvailableBackends(s: Snapshot) returns (r: seq<string>)
    ensures r == LoadBalancedBackends(s)
    ensures r == [] <==> EligibleBackends(s) == []
  {
    var eligible := Eligible(s);
    r := DropHardOverload(s, eligible);
    if r == [] {
      r := eligible;
    }
  }

  /** Who is a candidate, spelled out: members without an open circuit, and among them those past a hard
      gate only if all are. */
  lemma CandidatesMean(s: Snapshot)
    ensures forall b :: b in EligibleBackends(s) <==> b in s.backends && b !in s.ineligible
    ensures forall b :: b in WithoutHardOverload(s, EligibleBackends(s)) <==>
              b in s.backends && b !in s.ineligible && !(b in s.loads && s.loads[b].hardOverload)
    ensures forall b :: b in LoadBalancedBackends(s) <==>
              b in s.backends && b !in s.ineligible
              && (b in s.loads && s.loads[b].hardOverload ==>
                    forall x :: x in s.backends && x !in s.ineligible ==> x in s.loads && s.loads[x].hardOverload)
  {
    var available := WithoutHardOverload(s, EligibleBackends(s));
    if available != [] { assert available[0] in available; }
  }

  // ---------------------------------------------------------------- saturating cost

  datatype Penalties = Penalties(queue: int, running: int, inflight: int, useStatic: bool)

  predicate ValidPenalties(c: Penalties) {
    0 <= c.queue <= MAX_INT64 && 0 <= c.running <= MAX_INT64 && 0 <= c.inflight <= MAX_INT64
  }

  function SaturatingMultiply(count: int, penalty: int): int {
    if count <= 0 || penalty <= 0 then 0
    else if count > MAX_INT64 / penalty then MAX_INT64
    else count * penalty
  }

  function SaturatingAdd(left: int, right: int): int {
    if left >= MAX_INT64 - right then MAX_INT64 else left + right
  }

  function Matched(s: Snapshot, b: string): int { if b in s.matches then s.matches[b].matchedTokens else 0 }

  function KvCost(s: Snapshot, c: Penalties, b: string): int {
    var base := s.promptTokens - Matched(s, b);
    var load := LoadOf(s, b);
    if load.valid then
      SaturatingAdd(
        SaturatingAdd(
          SaturatingAdd(base, SaturatingMultiply(load.queueDepth, c.queue)),
          SaturatingMultiply(load.running, c.running)),
        SaturatingMultiply(load.localDelta, c.inflight))
    else SaturatingAdd(base, SaturatingMultiply(Inflight(s, b), c.inflight))
  }

  function AtLeastZero(n: int): (r: nat)
    ensures r >= n && (r == n || r == 0)
  {
    if n < 0 then 0 else n
  }
  function Clamp(n: int): int { if n > MAX_INT64 then MAX_INT64 else n }

  /** The cost in unbounded arithmetic. */
  function ExactCost(s: Snapshot, c: Penalties, b: string): int {
    var load := LoadOf(s, b);
    s.promptTokens - Matched(s, b) +
    if load.valid then AtLeastZero(load.queueDepth) * c.queue + AtLeastZero(load.running) * c.running
                       + AtLeastZero(load.localDelta) * c.inflight
    else AtLeastZero(Inflight(s, b)) * c.inflight
  }

  lemma MultiplySaturates(count: int, penalty: int)
    requires penalty >= 0
    ensures AtLeastZero(count) * penalty >= 0
    ensures SaturatingMultiply(count, penalty) == Clamp(AtLeastZero(count) * penalty)
  {
    MulNonNegative(AtLeastZero(count), penalty);
    if count > 0 && penalty > 0 { ProductTest(penalty, count); }
  }

  lemma AddSaturates(left: int, right: int)
    requires left >= 0 && right >= 0
    ensures SaturatingAdd(Clamp(left), Clamp(right)) == Clamp(left + right)
  {
  }

  predicate InPrompt(s: Snapshot, b: string) { 0 <= Matched(s, b) <= s.promptTokens <= MAX_INT64 }

  /** Saturation computes the exact cost clamped at MaxInt64. */
  lemma CostIsClampedExact(s: Snapshot, c: Penalties, b: string)
    requires ValidPenalties(c) && InPrompt(s, b)
    ensures 0 <= ExactCost(s, c, b) && KvCost(s, c, b) == Clamp(ExactCost(s, c, b))
    ensures var exact := s.promptTokens - (if b in s.matches then s.matches[b].matchedTokens else 0)
                         + (if b in s.loads && s.loads[b].valid then
                              AtLeastZero(s.loads[b].queueDepth) * c.queue + AtLeastZero(s.loads[b].running) * c.running
                              + AtLeastZero(s.loads[b].localDelta) * c.inflight
                            else AtLeastZero(if b in s.inflight then s.inflight[b] else 0) * c.inflight);
            KvCost(s, c, b) == if exact > 0x7FFF_FFFF_FFFF_FFFF then 0x7FFF_FFFF_FFFF_FFFF else exact
  {
    var base, load := s.promptTokens - Matched(s, b), LoadOf(s, b);
    var q, r := AtLeastZero(load.queueDepth) * c.queue, AtLeastZero(load.running) * c.running;
    var d, i := AtLeastZero(load.localDelta) * c.inflight, AtLeastZero(Inflight(s, b)) * c.inflight;
    MultiplySaturates(load.queueDepth, c.queue);
    MultiplySaturates(load.running, c.running);
    MultiplySaturates(load.localDelta, c.inflight);
    MultiplySaturates(Inflight(s, b), c.inflight);
    AddSaturates(base, q);
    AddSaturates(base + q, r);
    AddSaturates(base + q + r, d);
    AddSaturates(base, i);
  }

  /** Overflow never inverts an ordering: a cheaper backend is never made to look dearer. */
  lemma SaturationKeepsOrder(s: Snapshot, c: Penalties, a: string, b: string)
    requires ValidPenalties(c) && InPrompt(s, a) && InPrompt(s, b)
    ensures ExactCost(s, c, a) <= ExactCost(s, c, b) ==> KvCost(s, c, a) <= KvCost(s, c, b)
    ensures KvCost(s, c, a) < KvCost(s, c, b) ==> ExactCost(s, c, a) < ExactCost(s, c, b)
  {
    CostIsClampedExact(s, c, a);
    CostIsClampedExact(s, c, b);
  }

  // ---------------------------------------------------------------- orders

  predicate KvLess(s: Snapshot, c: Penalties, a: string, b: string) {
    if KvCost(s, c, a) != KvCost(s, c, b) then KvCost(s, c, a) < KvCost(s, c, b) else IdLess(a, b)
  }

  predicate StaticLess(s: Snapshot, a: string, b: string) {
    if Ttft(s, a) != Ttft(s, b) then Ttft(s, a) < Ttft(s, b) else IdLess(a, b)
  }

  function Ttft(s: Snapshot, b: string): int { if b in s.estimates then s.estimates[b].ttft else 0 }

  predicate InflightLess(s: Snapshot, a: string, b: string) {
    if Inflight(s, a) != Inflight(s, b) then Inflight(s, a) < Inflight(s, b) else IdLess(a, b)
  }

  predicate ObservedLoadLess(s: Snapshot, a: string, b: string) {
    var x, y := LoadOf(s, a), LoadOf(s, b);
    if x.queueDepth != y.queueDepth then x.queueDepth < y.queueDepth
    else if x.running != y.running then x.running < y.running
    else if x.localDelta != y.localDelta then x.localDelta < y.localDelta
    else InflightLess(s, a, b)
  }

  predicate QueueAvailableForAll(s: Snapshot) {
    s.queues != map[] && forall b :: b in EligibleBackends(s) ==> b in s.queues && s.queues[b].valid
  }

  /** Queue when everyone's is known, then in-flight, then the favoured ID, then the ID. */
  predicate LessLoaded(s: Snapshot, favoured: string, a: string, b: string) {
    if QueueAvailableForAll(s) && QueueOf(s, a) != QueueOf(s, b) then QueueOf(s, a) < QueueOf(s, b)
    else if Inflight(s, a) != Inflight(s, b) then Inflight(s, a) < Inflight(s, b)
    else if a == favoured then true
    else if b == favoured then false
    else IdLess(a, b)
  }

  function KvOrder(s: Snapshot, c: Penalties): (string, string) -> bool { (a, b) => KvLess(s, c, a, b) }
  function StaticOrder(s: Snapshot): (string, string) -> bool { (a, b) => StaticLess(s, a, b) }
  function InflightOrder(s: Snapshot): (string, string) -> bool { (a, b) => InflightLess(s, a, b) }
  function ObservedOrder(s: Snapshot): (string, string) -> bool { (a, b) => ObservedLoadLess(s, a, b) }
  function LeastLoadedOrder(s: Snapshot, favoured: string): (string, string) -> bool {
    (a, b) => LessLoaded(s, favoured, a, b)
  }

  lemma InflightOrders(s: Snapshot)
    ensures Orders(InflightOrder(s))
  {
    IdOrder();
    LexOrder(b => Inflight(s, b) as real, IdLess, InflightOrder(s));
  }

  lemma CostOrders(s: Snapshot, c: Penalties)
    ensures Orders(KvOrder(s, c)) && Orders(StaticOrder(s))
  {
    IdOrder();
    LexOrder(b => KvCost(s, c, b) as real, IdLess, KvOrder(s, c));
    LexOrder(b => Ttft(s, b) as real, IdLess, StaticOrder(s));
  }

  lemma ObservedOrders(s: Snapshot)
    ensures Orders(ObservedOrder(s))
  {
    InflightOrders(s);
    var byDelta := (a, b) =>
      if LoadOf(s, a).localDelta != LoadOf(s, b).localDelta then LoadOf(s, a).localDelta < LoadOf(s, b).localDelta
      else InflightLess(s, a, b);
    var byRunning := (a, b) =>
      if LoadOf(s, a).running != LoadOf(s, b).running then LoadOf(s, a).running < LoadOf(s, b).running
      else byDelta(a, b);
    LexOrder(b => LoadOf(s, b).localDelta as real, InflightOrder(s), byDelta);
    LexOrder(b => LoadOf(s, b).running as real, byDelta, byRunning);
    LexOrder(b => LoadOf(s, b).queueDepth as real, byRunning, ObservedOrder(s));
  }

  lemma FavouredOrders(favoured: string)
    ensures Orders((a, b) => if a == favoured then true else if b == favoured then false else IdLess(a, b))
  {
    IdOrder();
  }

  lemma LeastLoadedOrders(s: Snapshot, favoured: string)
    ensures Orders(LeastLoadedOrder(s, favoured))
  {
    FavouredOrders(favoured);
    var byId := (a, b) => if a == favoured then true else if b == favoured then false else IdLess(a, b);
    var byInflight := (a, b) =>
      if Inflight(s, a) != Inflight(s, b) then Inflight(s, a) < Inflight(s, b) else byId(a, b);
    LexOrder(b => Inflight(s, b) as real, byId, byInflight);
    LexOrder(b => if QueueAvailableForAll(s) then QueueOf(s, b) else 0.0, byInflight, LeastLoadedOrder(s, favoured));
  }

  method LeastLoaded(s: Snapshot, favoured: string) returns (best: string)
    requires EligibleBackends(s) != []
    ensures IsLeast(LeastLoadedOrder(s, favoured), EligibleBackends(s), best)
    ensures QueueAvailableForAll(s) <==>
              s.queues != map[] && forall b :: b in EligibleBackends(s) ==> b in s.queues && s.queues[b].valid
    ensures QueueAvailableForAll(s) ==> forall x :: x in EligibleBackends(s) ==> QueueOf(s, best) <= QueueOf(s, x)
    ensures (forall x :: x in EligibleBackends(s) ==> x in s.queues && s.queues[x].valid) ==>
              forall x :: x in EligibleBackends(s) ==> s.queues[best].value <= s.queues[x].value
    ensures forall x :: x in EligibleBackends(s) && x != best && Inflight(s, x) == Inflight(s, best)
                        && (QueueAvailableForAll(s) ==> QueueOf(s, x) == QueueOf(s, best)) ==>
              best == favoured || (x != favoured && IdLess(best, x))
    ensures forall x :: x in EligibleBackends(s) && (QueueAvailableForAll(s) ==> QueueOf(s, x) == QueueOf(s, best)) ==>
              Inflight(s, best) <= Inflight(s, x)
  {
    LeastLoadedOrders(s, favoured);
    var eligible := Eligible(s);
    best := Least(LeastLoadedOrder(s, favoured), eligible);
    forall x | x in eligible && x != best ensures LessLoaded(s, favoured, best, x) {
      assert LeastLoadedOrder(s, favoured)(best, x);
    }
  }

  // ---------------------------------------------------------------- strategies

  predicate UsableFor(s: Snapshot, candidates: seq<string>) {
    s.promptTokens > 0 && |candidates| > 0 &&
    forall b :: b in candidates ==>
      b in s.matches && s.matches[b].valid && 0 <= s.matches[b].matchedTokens <= s.promptTokens
  }

  predicate StaticUsable(s: Snapshot, candidates: seq<string>) {
    |candidates| > 0 &&
    forall b :: b in candidates ==> b in s.estimates && s.estimates[b].valid && s.estimates[b].ttft > 0
                                    && s.estimates[b].version != "" && !s.estimates[b].confidence.Uncalibrated?
  }

  /** The two gates, spelled out: every candidate has a valid match within the prompt, or a valid, positive,
      versioned and calibrated estimate. */
  lemma GatesMean(s: Snapshot, candidates: seq<string>)
    ensures UsableFor(s, candidates) <==>
            s.promptTokens > 0 && candidates != []
            && forall b :: b in candidates ==>
                 b in s.matches && s.matches[b].valid
                 && 0 <= s.matches[b].matchedTokens && s.matches[b].matchedTokens <= s.promptTokens
    ensures StaticUsable(s, candidates) <==>
            candidates != []
            && forall b :: b in candidates ==>
                 b in s.estimates && s.estimates[b].valid && s.estimates[b].ttft > 0 && s.estimates[b].version != ""
                 && s.estimates[b].confidence != Uncalibrated
  {
  }

  /** Hard-overloaded backends are out; the rest compete on the static estimate when all have one,
      otherwise on equivalent token cost; with nobody left, availability wins over locality. */
  method SelectKvAware(s: Snapshot, c: Penalties) returns (d: Decision)
    ensures d.Rejected? <==> EligibleBackends(s) == [] || !UsableFor(s, EligibleBackends(s))
    ensures d.Chosen? ==>
              var open := WithoutHardOverload(s, EligibleBackends(s));
              if open == [] then
                d.why == HardOverloadFallback && d.policy == KvAware
                && IsLeast(LeastLoadedOrder(s, ""), EligibleBackends(s), d.backend)
              else if c.useStatic && StaticUsable(s, open) then
                d.why == ByStaticEstimate && d.policy == KvAwareStatic && IsLeast(StaticOrder(s), open, d.backend)
                && d.backend in s.estimates
                && forall x :: x in open && x != d.backend ==>
                     x in s.estimates
                     && (s.estimates[d.backend].ttft < s.estimates[x].ttft
                         || (s.estimates[d.backend].ttft == s.estimates[x].ttft && IdLess(d.backend, x)))
              else
                d.why == (if c.useStatic then StaticFallback else ByTokenCost) && d.policy == KvAware
                && IsLeast(KvOrder(s, c), open, d.backend)
                && forall x :: x in open && x != d.backend ==>
                     KvCost(s, c, d.backend) < KvCost(s, c, x)
                     || (KvCost(s, c, d.backend) == KvCost(s, c, x) && IdLess(d.backend, x))
    ensures d.Chosen? ==> d.backend in EligibleBackends(s)
    ensures d.Chosen? && LoadOf(s, d.backend).hardOverload ==>
              forall b :: b in EligibleBackends(s) ==> LoadOf(s, b).hardOverload
  {
    var eligible := Eligible(s);
    if eligible == [] {
      return Rejected;
    }
    if !UsableFor(s, eligible) {
      return Rejected;
    }
    var candidates := DropHardOverload(s, eligible);
    if candidates == [] {
      var selected := LeastLoaded(s, "");
      assert forall b :: b in eligible && !LoadOf(s, b).hardOverload ==> b in candidates;
      return Chosen(selected, HardOverloadFallback, KvAware);
    }
    CostOrders(s, c);
    if c.useStatic && StaticUsable(s, candidates) {
      var fastest := Least(StaticOrder(s), candidates);
      assert forall x :: x in candidates && x != fastest ==> StaticOrder(s)(fastest, x);
      return Chosen(fastest, ByStaticEstimate, KvAwareStatic);
    }
    var cheapest := Least(KvOrder(s, c), candidates);
    assert forall x :: x in candidates && x != cheapest ==> KvOrder(s, c)(cheapest, x);
    d := Chosen(cheapest, if c.useStatic then StaticFallback else ByTokenCost, KvAware);
  }

  /** In a usable snapshot the winner on token cost is least by exact cost too, up to saturation:
      nobody it beat is strictly cheaper unless both costs are at the ceiling. */
  lemma WinnerIsCheapest(s: Snapshot, c: Penalties, candidates: seq<string>, winner: string, other: string)
    requires ValidPenalties(c) && s.promptTokens <= MAX_INT64 && UsableFor(s, candidates)
    requires IsLeast(KvOrder(s, c), candidates, winner) && other in candidates
    ensures ExactCost(s, c, winner) <= ExactCost(s, c, other)
            || (ExactCost(s, c, winner) >= MAX_INT64 && ExactCost(s, c, other) >= MAX_INT64)
  {
    CostIsClampedExact(s, c, winner);
    CostIsClampedExact(s, c, other);
    if other != winner { assert KvOrder(s, c)(winner, other); }
  }

  /** `hash` is the first 32 bits of the routing key's digest; it only moves the starting point. */
  method SelectLoadBalanced(s: Snapshot, hash: nat) returns (d: Decision)
    ensures d.Rejected? <==> EligibleBackends(s) == []
    ensures d.Chosen? ==> d.policy == LoadBalanced && IsLeast(InflightOrder(s), LoadBalancedBackends(s), d.backend)
    ensures d.Chosen? ==> forall x :: x in LoadBalancedBackends(s) && x != d.backend ==>
              Inflight(s, d.backend) < Inflight(s, x)
              || (Inflight(s, d.backend) == Inflight(s, x) && IdLess(d.backend, x))
  {
    var backends := AvailableBackends(s);
    if backends == [] {
      return Rejected;
    }
    InflightOrders(s);
    var best := LeastAround(InflightOrder(s), backends, hash % |backends|);
    forall x | x in backends && x != best ensures InflightLess(s, best, x) { assert InflightOrder(s)(best, x); }
    d := Chosen(best, ByInflight, LoadBalanced);
  }

  predicate CompleteObservedLoad(s: Snapshot, backends: seq<string>) {
    |backends| > 0 && forall b :: b in backends ==> LoadOf(s, b).valid
  }

  /** a has the smaller queue; with equal queues the fewer running; and so on to the ID. */
  predicate LighterThan(s: Snapshot, a: string, b: string) {
    var x, y := LoadOf(s, a), LoadOf(s, b);
    && x.queueDepth <= y.queueDepth
    && (x.queueDepth == y.queueDepth ==> x.running <= y.running)
    && ((x.queueDepth, x.running) == (y.queueDepth, y.running) ==> x.localDelta <= y.localDelta)
    && ((x.queueDepth, x.running, x.localDelta) == (y.queueDepth, y.running, y.localDelta) ==>
          Inflight(s, a) < Inflight(s, b) || (Inflight(s, a) == Inflight(s, b) && IdLess(a, b)))
  }

  method SelectLoadAware(s: Snapshot, hash: nat) returns (d: Decision)
    ensures d.Rejected? <==> EligibleBackends(s) == []
    ensures d.Chosen? ==>
              (d.policy == LoadAware <==> forall b :: b in LoadBalancedBackends(s) ==> b in s.loads && s.loads[b].valid)
    ensures d.Chosen? && CompleteObservedLoad(s, LoadBalancedBackends(s)) ==>
              d.policy == LoadAware && IsLeast(ObservedOrder(s), LoadBalancedBackends(s), d.backend)
              && forall x :: x in LoadBalancedBackends(s) && x != d.backend ==> LighterThan(s, d.backend, x)
    ensures d.Chosen? && !CompleteObservedLoad(s, LoadBalancedBackends(s)) ==>
              d.policy == LoadBalanced && IsLeast(InflightOrder(s), LoadBalancedBackends(s), d.backend)
  {
    var backends := AvailableBackends(s);
    if backends == [] {
      return Rejected;
    }
    if !CompleteObservedLoad(s, backends) {
      d := SelectLoadBalanced(s, hash);
      return;
    }
    ObservedOrders(s);
    var best := Least(ObservedOrder(s), backends);
    forall x | x in backends && x != best ensures LighterThan(s, best, x) { assert ObservedOrder(s)(best, x); }
    d := Chosen(best, ByObservedLoad, LoadAware);
  }

  /** Neither the routing key nor the discovery order moves a load-balanced choice. */
  lemma ChoiceIgnoresKeyAndOrder(s: Snapshot, t: Snapshot, a: string, b: string)
    requires t == s.(backends := t.backends) && (forall x :: x in s.backends <==> x in t.backends)
    requires IsLeast(InflightOrder(s), LoadBalancedBackends(s), a)
    requires IsLeast(InflightOrder(t), LoadBalancedBackends(t), b)
    ensures a == b
  {
    InflightOrders(s);
    SameCandidates(s, t);
    assert IsLeast(InflightOrder(s), LoadBalancedBackends(t), b);
    LeastIsUnique(InflightOrder(s), LoadBalancedBackends(s), LoadBalancedBackends(t), a, b);
  }

  lemma SameCandidates(s: Snapshot, t: Snapshot)
    requires t == s.(backends := t.backends) && (forall x :: x in s.backends <==> x in t.backends)
    ensures forall x :: x in LoadBalancedBackends(s) <==> x in LoadBalancedBackends(t)
  {
    var e, f := EligibleBackends(s), EligibleBackends(t);
    var x, y := WithoutHardOverload(s, e), WithoutHardOverload(t, f);
    assert forall b :: b in e <==> b in f;
    assert forall b :: b in x <==> b in y;
    assert x == [] <==> y == [] by {
      if x != [] { assert x[0] in y; }
      if y != [] { assert y[0] in x; }
    }
  }

  // ---------------------------------------------------------------- fairness

  ghost predicate Balanced(s: Snapshot) {
    forall a, b :: a in s.backends && b in s.backends ==> Inflight(s, a) <= Inflight(s, b) + 1
  }

  function Reserve(s: Snapshot, b: string): Snapshot { s.(inflight := s.inflight[b := Inflight(s, b) + 1]) }

  /** No circuit is open and no gate is crossed. */
  predicate Unrestricted(s: Snapshot) {
    forall b :: b in s.backends ==> b !in s.ineligible && !LoadOf(s, b).hardOverload
  }

  lemma ChosenHasFewest(s: Snapshot, b: string, x: string)
    requires Unrestricted(s) && IsLeast(InflightOrder(s), LoadBalancedBackends(s), b) && x in s.backends
    ensures b in s.backends && Inflight(s, b) <= Inflight(s, x)
  {
    assert x in EligibleBackends(s) && x in WithoutHardOverload(s, EligibleBackends(s));
    if x != b { assert InflightOrder(s)(b, x); }
  }

  lemma ReserveKeepsBalance(s: Snapshot, b: string)
    requires Unrestricted(s) && Balanced(s) && IsLeast(InflightOrder(s), LoadBalancedBackends(s), b)
    ensures Balanced(Reserve(s, b)) && Unrestricted(Reserve(s, b))
  {
    forall x | x in s.backends ensures Inflight(s, b) <= Inflight(s, x) { ChosenHasFewest(s, b, x); }
    var t := Reserve(s, b);
    forall x ensures LoadOf(t, x) == LoadOf(s, x)
                     && Inflight(t, x) == if x == b then Inflight(s, b) + 1 else Inflight(s, x)
    {}
  }

  /** With fixed membership and no exclusions, any burst of back-to-back reservations keeps every
      two in-flight counts within one of each other. */
  method Burst(start: Snapshot, hashes: seq<nat>) returns (s: Snapshot, picks: seq<string>)
    requires start.backends != [] && Unrestricted(start) && Balanced(start)
    ensures Balanced(s) && s.backends == start.backends && |picks| == |hashes|
    ensures forall b :: Inflight(s, b) == Inflight(start, b) + multiset(picks)[b]
  {
    s, picks := start, [];
    for i := 0 to |hashes|
      invariant s.backends == start.backends && Unrestricted(s) && Balanced(s) && |picks| == i
      invariant forall b :: Inflight(s, b) == Inflight(start, b) + multiset(picks)[b]
    {
      assert s.backends[0] in EligibleBackends(s);
      var d := SelectLoadBalanced(s, hashes[i]);
      ReserveKeepsBalance(s, d.backend);
      s, picks := Reserve(s, d.backend), picks + [d.backend];
    }
  }
}
