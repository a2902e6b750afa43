/**
 Request leases: each reservation counts on one backend's in-flight counter object and is
 settled once; membership changes drop counters of departed, idle backends.

 The fine steps are the critical sections of the program; the whole steps are a reservation
 and a settlement as the selection and the lease see them.
 */
module Leases {
  import opened Wrappers

  datatype Outcome =
    | ResponseCompleted | TransportFailure | DeadlineExceeded | UpstreamStream
    | ClientCanceled | DownstreamFailure | InvalidClientInput

  datatype Lease = Lease(backend: string, counter: nat, open: bool)

  /** `values[r]` is counter object r and `owner[r]` the backend it was made for; `zeroed` are the
      leases whose decrement reached zero and that still have to take the lock; `announced` the
      removals reported so far and `recorded` the outcomes sent to the circuit. */
  datatype State = State(
    service: string, active: set<string>, counters: map<string, nat>, values: seq<int>, owner: seq<string>,
    leases: seq<Lease>, acquired: Option<(string, nat)>, zeroed: set<nat>,
    announced: seq<set<string>>, recorded: seq<(string, bool)>)

  function Start(service: string): State {
    State(service, {service}, map[service := 0], [0], [service], [], None, {}, [], [])
  }

  // ---------------------------------------------------------------- fine steps

  datatype Op =
    | Acquire(backend: string)
    | Commit
    | Decrement(lease: nat, outcome: Outcome)
    | Settle(settled: nat)
    | Reconcile(members: set<string>)

  function CircuitRecord(s: State, backend: string, outcome: Outcome): seq<(string, bool)> {
    if backend == s.service then []
    else match outcome
         case ResponseCompleted => [(backend, false)]
         case TransportFailure => [(backend, true)]
         case DeadlineExceeded => [(backend, true)]
         case UpstreamStream => [(backend, true)]
         case _ => []
  }

  function Idle(s: State, active: set<string>): set<string> {
    set b | b in s.counters && b !in active && s.counters[b] < |s.values| && s.values[s.counters[b]] == 0
  }

  function Next(s: State, op: Op): State {
    match op
    case Acquire(b) =>
      if s.acquired.Some? then s
      else if b in s.counters then s.(acquired := Some((b, s.counters[b])))
      else s.(counters := s.counters[b := |s.values|], values := s.values + [0], owner := s.owner + [b],
              acquired := Some((b, |s.values|)))
    case Commit =>
      if s.acquired.None? || s.acquired.value.1 >= |s.values| then s
      else
        var (b, r) := s.acquired.value;
        s.(values := s.values[r := s.values[r] + 1], leases := s.leases + [Lease(b, r, true)], acquired := None)
    case Decrement(l, outcome) =>
      if l >= |s.leases| || !s.leases[l].open || s.leases[l].counter >= |s.values| then s
      else
        var lease := s.leases[l];
        var left := s.values[lease.counter] - 1;
        s.(values := s.values[lease.counter := left], leases := s.leases[l := lease.(open := false)],
           zeroed := if left == 0 then s.zeroed + {l} else s.zeroed,
           recorded := s.recorded + CircuitRecord(s, lease.backend, outcome))
    case Settle(l) =>
      if l !in s.zeroed || l >= |s.leases| then s
      else
        var lease := s.leases[l];
        if lease.backend in s.active || lease.backend !in s.counters || s.counters[lease.backend] != lease.counter
        then s.(zeroed := s.zeroed - {l})
        else s.(zeroed := s.zeroed - {l}, counters := s.counters - {lease.backend},
                announced := s.announced + [{lease.backend}])
    case Reconcile(members) =>
      var active := members + {s.service};
      s.(active := active, counters := s.counters - Idle(s, active), announced := s.announced + [Idle(s, active)])
  }

  function Run(s: State, ops: seq<Op>): State
    decreases |ops|
  {
    if ops == [] then s else Run(Next(s, ops[0]), ops[1..])
  }

  // ---------------------------------------------------------------- counting

  predicate Holds(l: Lease, r: nat) { l.open && l.counter == r }
  predicate For(l: Lease, b: string) { l.open && l.backend == b }

  function OnCounter(leases: seq<Lease>, r: nat): nat {
    if leases == [] then 0
    else OnCounter(leases[..|leases| - 1], r) + if Holds(leases[|leases| - 1], r) then 1 else 0
  }

  function OpenFor(leases: seq<Lease>, b: string): nat {
    if leases == [] then 0
    else OpenFor(leases[..|leases| - 1], b) + if For(leases[|leases| - 1], b) then 1 else 0
  }

  /** What the in-flight snapshot reports for a backend. */
  function CounterOf(s: State, b: string): int {
    if b in s.counters && s.counters[b] < |s.values| then s.values[s.counters[b]] else 0
  }

  lemma SnocCounts(leases: seq<Lease>, l: Lease, r: nat, b: string)
    ensures OnCounter(leases + [l], r) == OnCounter(leases, r) + if Holds(l, r) then 1 else 0
    ensures OpenFor(leases + [l], b) == OpenFor(leases, b) + if For(l, b) then 1 else 0
  {
    assert (leases + [l])[..|leases + [l]| - 1] == leases;
  }

  lemma {:induction false} CloseCounts(leases: seq<Lease>, l: nat, r: nat, b: string)
    requires l < |leases| && leases[l].open
    ensures var closed := leases[l := leases[l].(open := false)];
            && OnCounter(closed, r) == OnCounter(leases, r) - (if leases[l].counter == r then 1 else 0)
            && OpenFor(closed, b) == OpenFor(leases, b) - (if leases[l].backend == b then 1 else 0)
  {
    var n := |leases| - 1;
    var closed := leases[l := leases[l].(open := false)];
    if l == n {
      assert closed[..n] == leases[..n];
    } else {
      CloseCounts(leases[..n], l, r, b);
      assert closed[..n] == leases[..n][l := leases[..n][l].(open := false)];
    }
  }

  lemma {:induction false} NoneHeld(leases: seq<Lease>, r: nat, l: nat)
    requires OnCounter(leases, r) == 0 && l < |leases|
    ensures !Holds(leases[l], r)
  {
    if l < |leases| - 1 { NoneHeld(leases[..|leases| - 1], r, l); }
  }

  // ---------------------------------------------------------------- every interleaving

  ghost predicate Inv(s: State) {
    && |s.owner| == |s.values|
    && (forall r :: 0 <= r < |s.values| ==> s.values[r] == OnCounter(s.leases, r))
    && (forall b :: b in s.counters ==> s.counters[b] < |s.values| && s.owner[s.counters[b]] == b)
    && (forall l :: 0 <= l < |s.leases| ==>
          s.leases[l].counter < |s.values| && s.owner[s.leases[l].counter] == s.leases[l].backend)
    && (s.acquired.Some? ==> s.acquired.value.1 < |s.values| && s.owner[s.acquired.value.1] == s.acquired.value.0)
  }

  /** The Service fallback stays active and counted, is never announced, never sent to the circuit. */
  ghost predicate ServiceSafe(s: State) {
    && s.service in s.active && s.service in s.counters
    && (forall i :: 0 <= i < |s.announced| ==> s.service !in s.announced[i])
    && (forall i :: 0 <= i < |s.recorded| ==> s.recorded[i].0 != s.service)
  }

  lemma {:induction false} FreshCounterIsZero(leases: seq<Lease>, r: nat)
    requires forall l :: 0 <= l < |leases| ==> leases[l].counter < r
    ensures OnCounter(leases, r) == 0
  {
    if leases != [] { FreshCounterIsZero(leases[..|leases| - 1], r); }
  }

  lemma AcquireKeepsInv(s: State, b: string)
    requires Inv(s)
    ensures Inv(Next(s, Acquire(b)))
  {
    FreshCounterIsZero(s.leases, |s.values|);
  }

  lemma CommitKeepsInv(s: State)
    requires Inv(s)
    ensures Inv(Next(s, Commit))
  {
    if s.acquired.Some? {
      var (b, r) := s.acquired.value;
      var t := Next(s, Commit);
      forall q | 0 <= q < |t.values| ensures t.values[q] == OnCounter(t.leases, q) {
        SnocCounts(s.leases, Lease(b, r, true), q, b);
      }
    }
  }

  lemma DecrementKeepsInv(s: State, l: nat, outcome: Outcome)
    requires Inv(s)
    ensures Inv(Next(s, Decrement(l, outcome)))
  {
    if l < |s.leases| && s.leases[l].open {
      var t := Next(s, Decrement(l, outcome));
      forall q | 0 <= q < |t.values| ensures t.values[q] == OnCounter(t.leases, q) {
        CloseCounts(s.leases, l, q, s.leases[l].backend);
      }
    }
  }

  lemma NextKeepsInv(s: State, op: Op)
    requires Inv(s)
    ensures Inv(Next(s, op))
  {
    match op
    case Acquire(b) => AcquireKeepsInv(s, b);
    case Commit => CommitKeepsInv(s);
    case Decrement(l, outcome) => DecrementKeepsInv(s, l, outcome);
    case Settle(_) =>
    case Reconcile(_) =>
  }

  lemma NextKeepsServiceSafe(s: State, op: Op)
    requires ServiceSafe(s)
    ensures ServiceSafe(Next(s, op))
  {
  }

  /** At the finest interleaving every counter object equals the number of open leases holding it,
      and the Service backend is never removed or recorded. */
  lemma {:induction false} CountersMatchLeases(s: State, ops: seq<Op>)
    requires Inv(s) && ServiceSafe(s)
    ensures Inv(Run(s, ops)) && ServiceSafe(Run(s, ops))
    decreases |ops|
  {
    if ops != [] {
      NextKeepsInv(s, ops[0]);
      NextKeepsServiceSafe(s, ops[0]);
      CountersMatchLeases(Next(s, ops[0]), ops[1..]);
    }
  }

  /** This step settles an open lease of b, with an outcome that says the backend failed, or that it served. */
  predicate SettlesAs(s: State, op: Op, b: string, failed: bool) {
    op.Decrement? && op.lease < |s.leases| && s.leases[op.lease].open && s.leases[op.lease].backend == b
    && if failed then op.outcome.TransportFailure? || op.outcome.DeadlineExceeded? || op.outcome.UpstreamStream?
       else op.outcome.ResponseCompleted?
  }

  function Settled(s: State, ops: seq<Op>, b: string, failed: bool): nat
    decreases |ops|
  {
    if ops == [] then 0
    else (if SettlesAs(s, ops[0], b, failed) then 1 else 0) + Settled(Next(s, ops[0]), ops[1..], b, failed)
  }

  function Times(recorded: seq<(string, bool)>, entry: (string, bool)): nat {
    if recorded == [] then 0
    else Times(recorded[..|recorded| - 1], entry) + if recorded[|recorded| - 1] == entry then 1 else 0
  }

  lemma NextRecords(s: State, op: Op, b: string, failed: bool)
    requires Inv(s) && b != s.service
    ensures Times(Next(s, op).recorded, (b, failed))
         == Times(s.recorded, (b, failed)) + if SettlesAs(s, op, b, failed) then 1 else 0
  {
    var r := s.recorded;
    forall e: (string, bool)
      ensures Times(r + [e], (b, failed)) == Times(r, (b, failed)) + if e == (b, failed) then 1 else 0
    {
      assert (r + [e])[..|r + [e]| - 1] == r;
    }
    assert r + [] == r;
  }

  /** Over every run the circuit of a backend other than the Service is told of a failure once for each of
      its leases that ended in a transport failure, a deadline or a broken upstream stream, of a success
      once for each completed response, and of nothing else. */
  lemma {:induction false} RecordsCountOutcomes(s: State, ops: seq<Op>, b: string, failed: bool)
    requires Inv(s) && b != s.service
    ensures Times(Run(s, ops).recorded, (b, failed)) == Times(s.recorded, (b, failed)) + Settled(s, ops, b, failed)
    decreases |ops|
  {
    if ops != [] {
      NextKeepsInv(s, ops[0]);
      NextKeepsService(s, ops[0]);
      NextRecords(s, ops[0], b, failed);
      RecordsCountOutcomes(Next(s, ops[0]), ops[1..], b, failed);
    }
  }

  // ---------------------------------------------------------------- per backend

  /** Every open lease of the backend holds the counter that is published for it. */
  ghost predicate NoOrphan(s: State, b: string) {
    forall l :: 0 <= l < |s.leases| && For(s.leases[l], b) ==> b in s.counters && s.counters[b] == s.leases[l].counter
  }

  lemma {:induction false} PublishedAtMostOpen(leases: seq<Lease>, r: nat, b: string)
    requires forall l :: 0 <= l < |leases| && Holds(leases[l], r) ==> leases[l].backend == b
    ensures OnCounter(leases, r) <= OpenFor(leases, b)
    ensures OnCounter(leases, r) == OpenFor(leases, b) <==>
            forall l :: 0 <= l < |leases| && For(leases[l], b) ==> leases[l].counter == r
  {
    if leases != [] {
      var n := |leases| - 1;
      PublishedAtMostOpen(leases[..n], r, b);
      assert leases == leases[..n] + [leases[n]];
    }
  }

  lemma {:induction false} NoneOpen(leases: seq<Lease>, b: string)
    ensures OpenFor(leases, b) == 0 <==> forall l :: 0 <= l < |leases| ==> !For(leases[l], b)
  {
    if leases != [] {
      NoneOpen(leases[..|leases| - 1], b);
      assert leases == leases[..|leases| - 1] + [leases[|leases| - 1]];
    }
  }

  /** In every reachable fine state a backend's reported in-flight equals its open leases if and
      only if none of them holds a counter that is no longer published. */
  lemma ReportIsExactIffNoOrphan(s: State, b: string)
    requires Inv(s)
    ensures CounterOf(s, b) == OpenFor(s.leases, b) <==> NoOrphan(s, b)
  {
    if b in s.counters {
      PublishedAtMostOpen(s.leases, s.counters[b], b);
    } else {
      NoneOpen(s.leases, b);
    }
  }

  // ---------------------------------------------------------------- whole steps

  datatype WholeOp =
    | Reserve(backend: string)
    | Complete(lease: nat, outcome: Outcome)
    | Membership(members: set<string>)

  function Whole(s: State, op: WholeOp): State {
    match op
    case Reserve(b) => Next(Next(s, Acquire(b)), Commit)
    case Complete(l, outcome) => Next(Next(s, Decrement(l, outcome)), Settle(l))
    case Membership(members) => Next(s, Reconcile(members))
  }

  function WholeRun(s: State, ops: seq<WholeOp>): State
    decreases |ops|
  {
    if ops == [] then s else WholeRun(Whole(s, ops[0]), ops[1..])
  }

  ghost predicate Quiet(s: State) {
    Inv(s) && ServiceSafe(s) && s.acquired.None? && s.zeroed == {} && forall b :: NoOrphan(s, b)
  }

  lemma WholeKeepsInv(s: State, op: WholeOp)
    requires Inv(s) && ServiceSafe(s)
    ensures Inv(Whole(s, op)) && ServiceSafe(Whole(s, op))
  {
    match op
    case Reserve(b) =>
      NextKeepsInv(s, Acquire(b));
      NextKeepsInv(Next(s, Acquire(b)), Commit);
      NextKeepsServiceSafe(s, Acquire(b));
      NextKeepsServiceSafe(Next(s, Acquire(b)), Commit);
    case Complete(l, outcome) =>
      NextKeepsInv(s, Decrement(l, outcome));
      NextKeepsInv(Next(s, Decrement(l, outcome)), Settle(l));
      NextKeepsServiceSafe(s, Decrement(l, outcome));
      NextKeepsServiceSafe(Next(s, Decrement(l, outcome)), Settle(l));
    case Membership(members) =>
      NextKeepsInv(s, Reconcile(members));
      NextKeepsServiceSafe(s, Reconcile(members));
  }

  lemma CompleteExplicitly(s: State, l: nat, outcome: Outcome)
    requires Quiet(s) && l < |s.leases| && s.leases[l].open
    ensures var b, r := s.leases[l].backend, s.leases[l].counter;
            && r < |s.values|
            && (var left := s.values[r] - 1;
                var gone := left == 0 && b !in s.active && b in s.counters && s.counters[b] == r;
                Whole(s, Complete(l, outcome)) ==
                s.(values := s.values[r := left], leases := s.leases[l := s.leases[l].(open := false)],
                   recorded := s.recorded + CircuitRecord(s, b, outcome),
                   counters := if gone then s.counters - {b} else s.counters,
                   announced := if gone then s.announced + [{b}] else s.announced))
  {
    assert {l} - {l} == {};
  }

  lemma CompleteKeepsLeases(s: State, l: nat, outcome: Outcome, b: string)
    requires Quiet(s)
    ensures NoOrphan(Whole(s, Complete(l, outcome)), b)
  {
    var t := Next(s, Decrement(l, outcome));
    var u := Next(t, Settle(l));
    if u.counters != t.counters {
      var r := s.leases[l].counter;
      NextKeepsInv(s, Decrement(l, outcome));
      forall k | 0 <= k < |u.leases| ensures !For(u.leases[k], s.leases[l].backend) {
        NoneHeld(t.leases, r, k);
        assert NoOrphan(s, s.leases[l].backend);
      }
    }
    assert NoOrphan(s, b);
  }

  lemma MembershipKeepsLeases(s: State, members: set<string>, b: string)
    requires Quiet(s)
    ensures NoOrphan(Whole(s, Membership(members)), b)
  {
    assert NoOrphan(s, b);
    if b in Idle(s, members + {s.service}) {
      forall k | 0 <= k < |s.leases| ensures !For(s.leases[k], b) { NoneHeld(s.leases, s.counters[b], k); }
    }
  }

  lemma WholeKeepsQuiet(s: State, op: WholeOp)
    requires Quiet(s)
    ensures Quiet(Whole(s, op))
  {
    WholeKeepsInv(s, op);
    forall b ensures NoOrphan(Whole(s, op), b) {
      assert NoOrphan(s, b);
      match op
      case Reserve(_) =>
      case Complete(l, outcome) => CompleteKeepsLeases(s, l, outcome, b);
      case Membership(members) => MembershipKeepsLeases(s, members, b);
    }
  }

  lemma {:induction false} WholeRunKeepsQuiet(s: State, ops: seq<WholeOp>)
    requires Quiet(s)
    ensures Quiet(WholeRun(s, ops))
    decreases |ops|
  {
    if ops != [] {
      WholeKeepsQuiet(s, ops[0]);
      WholeRunKeepsQuiet(Whole(s, ops[0]), ops[1..]);
    }
  }

  lemma StartIsQuiet(service: string)
    ensures Quiet(Start(service)) && Exact(Start(service))
  {
    ExactIffNoOrphans(Start(service));
  }

  /** Over every run of whole steps each backend's counter, 0 if absent, equals its open leases. */
  lemma InflightIsOpenLeases(service: string, ops: seq<WholeOp>, b: string)
    ensures var s := WholeRun(Start(service), ops); CounterOf(s, b) == OpenFor(s.leases, b)
  {
    StartIsQuiet(service);
    WholeRunKeepsQuiet(Start(service), ops);
    ReportIsExactIffNoOrphan(WholeRun(Start(service), ops), b);
  }

  /** Every counter is a member's or counts something. */
  ghost predicate Tidy(s: State) {
    forall b :: b in s.counters && s.counters[b] < |s.values| ==> b in s.active || s.values[s.counters[b]] > 0
  }

  lemma WholeKeepsTidy(s: State, op: WholeOp)
    requires Quiet(s) && Tidy(s)
    ensures Tidy(Whole(s, op))
  {
    match op
    case Reserve(_) => ReserveKeepsTidy(s, op.backend);
    case Complete(l, outcome) => if l < |s.leases| && s.leases[l].open { CompleteKeepsTidy(s, l, outcome); }
    case Membership(_) =>
  }

  lemma ReserveKeepsTidy(s: State, b: string)
    requires Quiet(s) && Tidy(s)
    ensures Tidy(Whole(s, Reserve(b)))
  {
    var t := Next(s, Acquire(b));
    NextKeepsInv(s, Acquire(b));
    assert forall d :: d in t.counters && d != b ==> d in s.counters && t.counters[d] == s.counters[d];
  }

  lemma CompleteKeepsTidy(s: State, l: nat, outcome: Outcome)
    requires Quiet(s) && Tidy(s) && l < |s.leases| && s.leases[l].open
    ensures Tidy(Whole(s, Complete(l, outcome)))
  {
    var lease := s.leases[l];
    assert lease.backend in s.counters && s.counters[lease.backend] == lease.counter by {
      assert For(lease, lease.backend) && NoOrphan(s, lease.backend);
    }
    CompleteExplicitly(s, l, outcome);
    var t := Whole(s, Complete(l, outcome));
    DecrementKeepsInv(s, l, outcome);
    assert t.values[lease.counter] >= 0;
  }

  lemma {:induction false} WholeRunKeepsTidy(s: State, ops: seq<WholeOp>)
    requires Quiet(s) && Tidy(s)
    ensures Tidy(WholeRun(s, ops))
    decreases |ops|
  {
    if ops != [] {
      WholeKeepsTidy(s, ops[0]);
      WholeKeepsQuiet(s, ops[0]);
      WholeRunKeepsTidy(Whole(s, ops[0]), ops[1..]);
    }
  }

  /** Over every run of whole steps a counter is kept for members and leased backends only: a backend that
      has left is forgotten with its last lease. */
  lemma DepartedIdleIsForgotten(service: string, ops: seq<WholeOp>, b: string)
    ensures var s := WholeRun(Start(service), ops);
            b in s.counters ==> b in s.active || OpenFor(s.leases, b) > 0
  {
    StartIsQuiet(service);
    WholeRunKeepsTidy(Start(service), ops);
    WholeRunKeepsQuiet(Start(service), ops);
    InflightIsOpenLeases(service, ops, b);
  }

  /** A removal is announced only for a backend outside the membership with no open lease. */
  lemma RemovalOnlyWhenIdle(service: string, ops: seq<WholeOp>, op: WholeOp, b: string)
    requires var s := WholeRun(Start(service), ops); var t := Whole(s, op);
             |t.announced| > |s.announced| && b in t.announced[|t.announced| - 1]
    ensures var t := Whole(WholeRun(Start(service), ops), op);
            b !in t.active && b !in t.counters && OpenFor(t.leases, b) == 0 && b != service
  {
    StartIsQuiet(service);
    WholeRunKeepsQuiet(Start(service), ops);
    ServiceNeverChanges(Start(service), ops);
    var s := WholeRun(Start(service), ops);
    AnnouncedIsGone(s, op, b);
    WholeKeepsQuiet(s, op);
    GoneIsIdle(Whole(s, op), b);
    WholeKeepsService(s, op);
  }

  lemma GoneIsIdle(t: State, b: string)
    requires Quiet(t) && b !in t.counters
    ensures OpenFor(t.leases, b) == 0 && b != t.service
  {
    assert NoOrphan(t, b);
    ReportIsExactIffNoOrphan(t, b);
  }

  lemma NextKeepsService(s: State, op: Op)
    ensures Next(s, op).service == s.service
  {
  }

  lemma WholeKeepsService(s: State, op: WholeOp)
    ensures Whole(s, op).service == s.service
  {
    match op
    case Reserve(b) =>
      NextKeepsService(s, Acquire(b));
      NextKeepsService(Next(s, Acquire(b)), Commit);
    case Complete(l, outcome) =>
      NextKeepsService(s, Decrement(l, outcome));
      NextKeepsService(Next(s, Decrement(l, outcome)), Settle(l));
    case Membership(members) => NextKeepsService(s, Reconcile(members));
  }

  lemma AnnouncedIsGone(s: State, op: WholeOp, b: string)
    requires Quiet(s) && |Whole(s, op).announced| > |s.announced|
    requires b in Whole(s, op).announced[|Whole(s, op).announced| - 1]
    ensures b !in Whole(s, op).active && b !in Whole(s, op).counters
  {
    match op
    case Reserve(_) =>
    case Complete(l, outcome) =>
      if l < |s.leases| && s.leases[l].open { CompleteExplicitly(s, l, outcome); }
    case Membership(_) =>
  }

  lemma {:induction false} ServiceNeverChanges(s: State, ops: seq<WholeOp>)
    ensures WholeRun(s, ops).service == s.service
    decreases |ops|
  {
    if ops != [] {
      WholeKeepsService(s, ops[0]);
      ServiceNeverChanges(Whole(s, ops[0]), ops[1..]);
    }
  }

  /** Completing a lease again changes nothing. */
  lemma CompleteIsIdempotent(service: string, ops: seq<WholeOp>, l: nat, first: Outcome, again: Outcome)
    ensures var t := Whole(WholeRun(Start(service), ops), Complete(l, first));
            Whole(t, Complete(l, again)) == t
  {
    StartIsQuiet(service);
    WholeRunKeepsQuiet(Start(service), ops);
  }

  lemma ThreeSteps(s: State, a: Op, b: Op, c: Op)
    ensures Run(s, [a, b, c]) == Next(Next(Next(s, a), b), c)
  {
    assert [a, b, c][1..] == [b, c] && [b, c][1..] == [c] && [c][1..] == [];
    assert Run(Next(Next(s, a), b), [c]) == Run(Next(Next(Next(s, a), b), c), []);
  }

  // ---------------------------------------------------------------- the exact conditions

  /** Every backend's report equals its open leases. */
  ghost predicate Exact(s: State) { forall b :: CounterOf(s, b) == OpenFor(s.leases, b) }

  lemma ExactIffNoOrphans(s: State)
    requires Inv(s)
    ensures Exact(s) <==> forall b :: NoOrphan(s, b)
  {
    forall b ensures CounterOf(s, b) == OpenFor(s.leases, b) <==> NoOrphan(s, b) { ReportIsExactIffNoOrphan(s, b); }
  }

  /** The guards of the two failing branches: an increment finds the counter it looked up still
      published, and a settlement that is about to drop a counter finds it still zero. */
  predicate Guard(s: State, op: Op) {
    match op
    case Commit =>
      s.acquired.Some? && s.acquired.value.1 < |s.values| ==>
        s.acquired.value.0 in s.counters && s.counters[s.acquired.value.0] == s.acquired.value.1
    case Settle(l) => Drops(s, l) ==> s.values[s.leases[l].counter] == 0
    case _ => true
  }

  predicate Drops(s: State, l: nat) {
    l in s.zeroed && l < |s.leases| && s.leases[l].backend !in s.active && s.leases[l].backend in s.counters
    && s.counters[s.leases[l].backend] == s.leases[l].counter < |s.values|
  }

  lemma CommitKeepsReportsIff(s: State, b: string)
    requires Inv(s) && s.acquired.Some? && NoOrphan(s, b)
    ensures NoOrphan(Next(s, Commit), b) <==>
            (b == s.acquired.value.0 ==> b in s.counters && s.counters[b] == s.acquired.value.1)
  {
    var t := Next(s, Commit);
    assert t.leases[|s.leases|] == Lease(s.acquired.value.0, s.acquired.value.1, true);
    assert forall l :: 0 <= l < |s.leases| ==> t.leases[l] == s.leases[l];
  }

  lemma DropKeepsReportsIff(s: State, l: nat)
    requires Inv(s) && Drops(s, l) && NoOrphan(s, s.leases[l].backend)
    ensures NoOrphan(Next(s, Settle(l)), s.leases[l].backend) <==> s.values[s.leases[l].counter] == 0
  {
    var b := s.leases[l].backend;
    ReportIsExactIffNoOrphan(s, b);
    NoneOpen(s.leases, b);
  }

  lemma OthersKeepReports(s: State, op: Op, b: string)
    requires Inv(s) && NoOrphan(s, b)
    requires op.Settle? ==> (Drops(s, op.settled) ==> s.leases[op.settled].backend != b)
    requires !op.Commit?
    ensures NoOrphan(Next(s, op), b)
  {
    if op.Reconcile? && b in Idle(s, op.members + {s.service}) {
      forall k | 0 <= k < |s.leases| ensures !For(s.leases[k], b) { NoneHeld(s.leases, s.counters[b], k); }
    }
  }

  /** A step of any interleaving keeps every report exact if and only if its guard holds. */
  lemma StepKeepsExactIff(s: State, op: Op)
    requires Inv(s) && Exact(s)
    ensures Exact(Next(s, op)) <==> Guard(s, op)
  {
    var t := Next(s, op);
    NextKeepsInv(s, op);
    ExactIffNoOrphans(s);
    ExactIffNoOrphans(t);
    if op.Commit? && s.acquired.Some? {
      forall b ensures NoOrphan(t, b) <==>
        (b == s.acquired.value.0 ==> b in s.counters && s.counters[b] == s.acquired.value.1)
      {
        CommitKeepsReportsIff(s, b);
      }
    } else if op.Settle? && Drops(s, op.settled) {
      DropKeepsReportsIff(s, op.settled);
      forall b | b != s.leases[op.settled].backend ensures NoOrphan(t, b) { OthersKeepReports(s, op, b); }
    } else if !op.Commit? {
      forall b ensures NoOrphan(t, b) { OthersKeepReports(s, op, b); }
    }
  }

  ghost predicate AlwaysExact(s: State, ops: seq<Op>)
    decreases |ops|
  {
    Exact(s) && (ops == [] || AlwaysExact(Next(s, ops[0]), ops[1..]))
  }

  predicate GuardsHold(s: State, ops: seq<Op>)
    decreases |ops|
  {
    ops == [] || (Guard(s, ops[0]) && GuardsHold(Next(s, ops[0]), ops[1..]))
  }

  /** Over every fine run, reports are exact in all of its states if and only if every increment finds
      its counter still published and every dropping settlement finds it still zero. */
  lemma {:induction false} ReportsStayExactIff(s: State, ops: seq<Op>)
    requires Inv(s) && Exact(s)
    ensures AlwaysExact(s, ops) <==> GuardsHold(s, ops)
    decreases |ops|
  {
    if ops != [] {
      var t := Next(s, ops[0]);
      NextKeepsInv(s, ops[0]);
      StepKeepsExactIff(s, ops[0]);
      if Exact(t) { ReportsStayExactIff(t, ops[1..]); }
    }
  }

  predicate Announces(s: State, op: Op, b: string) {
    var t := Next(s, op);
    |t.announced| > |s.announced| && b in t.announced[|t.announced| - 1]
  }

  /** Whatever step announces a removal, in any fine state: the backend is outside the membership and
      published, and it is idle if and only if its counter is zero and no lease of it is orphaned. */
  lemma AnnouncedIsIdleIff(s: State, op: Op, b: string)
    requires Inv(s) && Announces(s, op, b)
    ensures b !in Next(s, op).active && b in s.counters && s.counters[b] < |s.values|
    ensures OpenFor(s.leases, b) == 0 <==> s.values[s.counters[b]] == 0 && NoOrphan(s, b)
    ensures Next(s, op).leases == s.leases
  {
    assert op.Settle? || op.Reconcile?;
    ReportIsExactIffNoOrphan(s, b);
    PublishedAtMostOpen(s.leases, s.counters[b], b);
  }

  /** In a fine run whose guards hold, every announced removal is of an idle non-member. */
  lemma {:induction false} GuardedRemovalsAreIdle(s: State, ops: seq<Op>, op: Op, b: string)
    requires Inv(s) && Exact(s) && GuardsHold(s, ops + [op]) && Announces(Run(s, ops), op, b)
    ensures var t := Next(Run(s, ops), op); b !in t.active && b !in t.counters && OpenFor(t.leases, b) == 0
    decreases |ops|
  {
    if ops == [] {
      assert (ops + [op])[0] == op;
      AnnouncedIsIdleIff(s, op, b);
      ReportIsExactIffNoOrphan(s, b);
      if op.Settle? { assert Drops(s, op.settled); }
    } else {
      assert (ops + [op])[1..] == ops[1..] + [op] && (ops + [op])[0] == ops[0];
      NextKeepsInv(s, ops[0]);
      StepKeepsExactIff(s, ops[0]);
      GuardedRemovalsAreIdle(Next(s, ops[0]), ops[1..], op, b);
    }
  }

  const LOST_LEASE: State :=
    State("svc", {"svc"}, map["svc" := 0], [0, 1], ["svc", "pod"], [Lease("pod", 1, true)], None, {}, [{"pod"}], [])

  /** Between looking a counter up and incrementing it, a membership change can drop the counter:
      the new lease then counts on an object nobody reports. */
  lemma OrphanedReservation()
    ensures var s := Run(Start("svc"), [Acquire("pod"), Reconcile({}), Commit]);
            s == LOST_LEASE && CounterOf(s, "pod") == 0 && OpenFor(s.leases, "pod") == 1
  {
    var s0 := Start("svc");
    var s1 := Next(s0, Acquire("pod"));
    assert Idle(s1, {"svc"}) == {"pod"};
    var none: set<string> := {};
    assert none + {"svc"} == {"svc"} && s1.counters - {"pod"} == map["svc" := 0];
    assert [] + [Lease("pod", 1, true)] == [Lease("pod", 1, true)];
    SnocCounts([], Lease("pod", 1, true), 1, "pod");
    ThreeSteps(s0, Acquire("pod"), Reconcile({}), Commit);
  }

  /** The orphan then misleads the next membership change as well: a second request publishes a fresh
      counter, and dropping that one announces a backend that still has an open lease. */
  lemma OrphanAnnouncedAsRemoved()
    ensures var s := Run(Start("svc"), [Acquire("pod"), Reconcile({}), Commit] + [Acquire("pod"), Reconcile({})]);
            s.announced == [{"pod"}, {"pod"}] && OpenFor(s.leases, "pod") == 1
  {
    OrphanedReservation();
    RunAppend(Start("svc"), [Acquire("pod"), Reconcile({}), Commit], [Acquire("pod"), Reconcile({})]);
    var s4 := Next(LOST_LEASE, Acquire("pod"));
    assert Idle(s4, {"svc"}) == {"pod"};
    var none: set<string> := {};
    assert none + {"svc"} == {"svc"};
    assert [Acquire("pod"), Reconcile({})][1..] == [Reconcile({})];
    assert Run(s4, [Reconcile({})]) == Run(Next(s4, Reconcile({})), []);
  }

  lemma {:induction false} RunAppend(s: State, a: seq<Op>, b: seq<Op>)
    ensures Run(s, a + b) == Run(Run(s, a), b)
    decreases |a|
  {
    if a == [] {
      assert a + b == b;
    } else {
      assert (a + b)[1..] == a[1..] + b;
      RunAppend(Next(s, a[0]), a[1..], b);
    }
  }

  const ONE_LEASE: State :=
    State("svc", {"svc"}, map["svc" := 0, "pod" := 1], [0, 1], ["svc", "pod"],
          [Lease("pod", 1, true)], None, {}, [{}], [])

  lemma OneLeaseIsReachable()
    ensures Run(Start("svc"), [Acquire("pod"), Commit, Reconcile({})]) == ONE_LEASE
  {
    var s0 := Start("svc");
    ThreeSteps(s0, Acquire("pod"), Commit, Reconcile({}));
    var s2 := Next(Next(s0, Acquire("pod")), Commit);
    assert s2 == ONE_LEASE.(announced := []);
    var none: set<string> := {};
    assert none + {"svc"} == {"svc"} && Idle(s2, {"svc"}) == none && s2.counters - none == s2.counters;
  }

  /** A settlement can be late: a lease of a departed backend reaches zero, a second one counts on the
      same object, and the first then announces the backend as removed. */
  lemma RemovedWhileLeased()
    ensures var s := Run(Start("svc"), [Acquire("pod"), Commit, Reconcile({})]
                                       + ([Decrement(0, ClientCanceled), Acquire("pod"), Commit] + [Settle(0)]));
            "pod" !in s.counters && OpenFor(s.leases, "pod") == 1 && s.announced == [{}, {"pod"}]
  {
    var late := [Decrement(0, ClientCanceled), Acquire("pod"), Commit];
    RunAppend(Start("svc"), [Acquire("pod"), Commit, Reconcile({})], late + [Settle(0)]);
    OneLeaseIsReachable();
    RunAppend(ONE_LEASE, late, [Settle(0)]);
    TwoLeasesAreReachable();
    var s := ONE_LEASE.(leases := [Lease("pod", 1, false), Lease("pod", 1, true)], zeroed := {0});
    assert Run(s, [Settle(0)]) == Run(Next(s, Settle(0)), []);
  }

  lemma TwoLeasesAreReachable()
    ensures var leases := [Lease("pod", 1, false), Lease("pod", 1, true)];
            && Run(ONE_LEASE, [Decrement(0, ClientCanceled), Acquire("pod"), Commit])
               == ONE_LEASE.(leases := leases, zeroed := {0})
            && OpenFor(leases, "pod") == 1
  {
    ThreeSteps(ONE_LEASE, Decrement(0, ClientCanceled), Acquire("pod"), Commit);
    var closed, open := Lease("pod", 1, false), Lease("pod", 1, true);
    var none: set<nat> := {};
    assert none + {0} == {0};
    assert Next(ONE_LEASE, Decrement(0, ClientCanceled)).recorded == [];
    assert [closed, open] == [closed] + [open];
    SnocCounts([], closed, 1, "pod");
    SnocCounts([closed], open, 1, "pod");
  }

  // ---------------------------------------------------------------- the object

  class LeaseService {
    const service: string
    var active: set<string>
    var counters: map<string, nat>
    var values: seq<int>
    var leases: seq<Lease>
    var announced: seq<set<string>>
    var recorded: seq<(string, bool)>
    var results: map<nat, bool>
    ghost var owner: seq<string>

    ghost function View(): State
      reads this
    {
      State(service, active, counters, values, owner, leases, None, {}, announced, recorded)
    }

    constructor (service: string)
      ensures View() == Start(service) && Quiet(View())
    {
      this.service := service;
      active, counters, values, leases := {service}, map[service := 0], [0], [];
      announced, recorded, results, owner := [], [], map[], [service];
    }

    method InflightCounter(b: string) returns (r: nat)
      modifies this
      ensures View().(acquired := Some((b, r))) == Next(old(View()), Acquire(b))
    {
      if b in counters {
        return counters[b];
      }
      r := |values|;
      values, owner := values + [0], owner + [b];
      counters := counters[b := r];
    }

    /** The reservation that ends a selection. */
    method ReserveLease(b: string) returns (lease: nat)
      requires Quiet(View())
      modifies this
      ensures View() == Whole(old(View()), Reserve(b)) && Quiet(View())
      ensures lease == |old(leases)| < |leases| && leases[lease].backend == b && leases[lease].open
      ensures CounterOf(View(), b) == CounterOf(old(View()), b) + 1
    {
      WholeKeepsQuiet(View(), Reserve(b));
      NextKeepsInv(View(), Acquire(b));
      var r := InflightCounter(b);
      values := values[r := values[r] + 1];
      lease := |leases|;
      leases := leases + [Lease(b, r, true)];
      assert NoOrphan(View(), b);
      assert For(leases[lease], b);
    }

    method ReleaseBackend(b: string, r: nat) returns (removed: bool)
      requires r < |values|
      modifies this`values, this`counters, this`announced
      ensures values == old(values)[r := old(values)[r] - 1]
      ensures removed <==> values[r] == 0 && b !in active && b in old(counters) && old(counters)[b] == r
      ensures counters == if removed then old(counters) - {b} else old(counters)
      ensures announced == if removed then old(announced) + [{b}] else old(announced)
    {
      values := values[r := values[r] - 1];
      if values[r] != 0 {
        return false;
      }
      if b in active || b !in counters || counters[b] != r {
        return false;
      }
      counters := counters - {b};
      announced := announced + [{b}];
      return true;
    }

    method RecordOutcome(b: string, outcome: Outcome)
      modifies this`recorded
      ensures recorded == old(recorded) + CircuitRecord(View(), b, outcome)
    {
      if b == service {
        return;
      }
      match outcome
      case ResponseCompleted => recorded := recorded + [(b, false)];
      case TransportFailure => recorded := recorded + [(b, true)];
      case DeadlineExceeded => recorded := recorded + [(b, true)];
      case UpstreamStream => recorded := recorded + [(b, true)];
      case _ =>
    }

    /** The once-guarded settlement of a lease; a repeated call answers as the first one did. */
    method CompleteLease(l: nat, outcome: Outcome) returns (removed: bool)
      requires Quiet(View())
      modifies this
      ensures View() == Whole(old(View()), Complete(l, outcome)) && Quiet(View())
      ensures old(l < |leases| && leases[l].open) ==>
                results == old(results)[l := removed] && (removed <==> |announced| > |old(announced)|)
      ensures !old(l < |leases| && leases[l].open) ==>
                results == old(results) && removed == (l in results && results[l])
    {
      WholeKeepsQuiet(View(), Complete(l, outcome));
      if l < |leases| && leases[l].open {
        removed := SettleOpen(l, outcome);
        results := results[l := removed];
      } else {
        removed := l in results && results[l];
      }
    }

    method SettleOpen(l: nat, outcome: Outcome) returns (removed: bool)
      requires Quiet(View()) && l < |leases| && leases[l].open
      modifies this`leases, this`recorded, this`values, this`counters, this`announced
      ensures View() == Whole(old(View()), Complete(l, outcome))
      ensures removed <==> |announced| > |old(announced)|
    {
      CompleteExplicitly(View(), l, outcome);
      var lease := leases[l];
      leases := leases[l := lease.(open := false)];
      RecordOutcome(lease.backend, outcome);
      removed := ReleaseBackend(lease.backend, lease.counter);
    }

    method ReconcileBackends(members: set<string>)
      requires Quiet(View())
      modifies this
      ensures View() == Whole(old(View()), Membership(members)) && Quiet(View())
      ensures active == members + {service} && counters.Keys <= old(counters).Keys
      ensures forall b :: b in old(counters) ==>
                (b !in counters <==> b !in members && b != service && CounterOf(old(View()), b) == 0)
      ensures announced == old(announced) + [old(counters).Keys - counters.Keys]
    {
      WholeKeepsQuiet(View(), Membership(members));
      ghost var before := View();
      active := members + {service};
      var known := counters;
      var todo, removed := known.Keys, {};
      while todo != {}
        invariant todo <= known.Keys
        invariant removed == set b | b in Idle(before, active) && b !in todo
        invariant counters == known - removed
        decreases todo
        modifies this`counters
      {
        var b :| b in todo;
        todo := todo - {b};
        if b !in active && values[known[b]] == 0 {
          counters := counters - {b};
          removed := removed + {b};
        }
      }
      assert removed == Idle(before, active);
      announced := announced + [removed];
      assert known.Keys - counters.Keys == removed;
    }
  }
}
