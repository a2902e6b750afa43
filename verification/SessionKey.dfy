/**
 Bounded stickiness: a table binds each session key to a preferred backend for a sliding
 TTL; pressure or an open circuit spills a request over without rewriting the binding.

 SHA-256 is foreign: a key is its digest, and the rendezvous score of a digest and a
 backend is an uninterpreted function.
 */
module SessionKey {
  import opened Wrappers
  import opened Selection
  import opened Routing

  type Digest = nat
  type Score = (Digest, string) -> nat

  datatype Entry = Entry(backend: string, expiresAt: int)
  type Table = map<Digest, Entry>

  datatype Config = Config(ttl: int, maxEntries: nat, inflightDelta: int, queueDelta: real)

  predicate ValidConfig(c: Config) {
    c.ttl > 0 && c.maxEntries > 0 && c.inflightDelta >= 0 && c.queueDelta >= 0.0
  }

  // ---------------------------------------------------------------- rendezvous

  predicate ScoresHigher(score: Score, k: Digest, a: string, b: string) {
    if score(k, a) != score(k, b) then score(k, a) > score(k, b) else IdLess(a, b)
  }

  function RendezvousOrder(score: Score, k: Digest): (string, string) -> bool { (a, b) => ScoresHigher(score, k, a, b) }

  lemma RendezvousOrders(score: Score, k: Digest)
    ensures Orders(RendezvousOrder(score, k))
  {
    IdOrder();
    LexOrder(b => -(score(k, b) as real), IdLess, RendezvousOrder(score, k));
  }

  method Rendezvous(score: Score, k: Digest, backends: seq<string>) returns (best: string)
    requires backends != []
    ensures IsLeast(RendezvousOrder(score, k), backends, best)
    ensures forall x :: x in backends && x != best ==>
              score(k, best) > score(k, x) || (score(k, best) == score(k, x) && IdLess(best, x))
  {
    RendezvousOrders(score, k);
    best := Least(RendezvousOrder(score, k), backends);
    forall x | x in backends && x != best ensures ScoresHigher(score, k, best, x) {
      assert RendezvousOrder(score, k)(best, x);
    }
  }

  /** The rendezvous choice does not depend on the order of the list. */
  lemma RendezvousIgnoresOrder(score: Score, k: Digest, xs: seq<string>, ys: seq<string>, a: string, b: string)
    requires forall x :: x in xs <==> x in ys
    requires IsLeast(RendezvousOrder(score, k), xs, a) && IsLeast(RendezvousOrder(score, k), ys, b)
    ensures a == b
  {
    RendezvousOrders(score, k);
    LeastIsUnique(RendezvousOrder(score, k), xs, ys, a, b);
  }

  /** Minimal disruption: without a non-winner the winner stays; with a newcomer the key moves to
      the newcomer or not at all. */
  lemma RendezvousMovesLittle(score: Score, k: Digest, xs: seq<string>, ys: seq<string>, extra: string,
                              small: string, large: string)
    requires extra !in xs && forall y :: y in ys <==> y in xs || y == extra
    requires IsLeast(RendezvousOrder(score, k), xs, small) && IsLeast(RendezvousOrder(score, k), ys, large)
    ensures large == if ScoresHigher(score, k, extra, small) then extra else small
    ensures large != extra ==> small == large
  {
    RendezvousOrders(score, k);
    NewcomerOrWinner(RendezvousOrder(score, k), xs, ys, extra, small, large);
  }

  // ---------------------------------------------------------------- the table

  function Live(t: Table, now: int): Table { map k | k in t && now < t[k].expiresAt :: t[k] }

  ghost predicate Earliest(t: Table, k: Digest) {
    k in t && forall j :: j in t ==> t[k].expiresAt <= t[j].expiresAt
  }

  /** Expired entries go; if that is not enough, one entry that expires first goes too. */
  ghost predicate Collected(c: Config, t: Table, now: int, u: Table) {
    var live := Live(t, now);
    if |live| >= c.maxEntries then exists k :: Earliest(live, k) && u == live - {k} else u == live
  }

  ghost predicate Remembered(c: Config, t: Table, k: Digest, b: string, now: int, u: Table) {
    if k !in t && |t| >= c.maxEntries
    then exists room: Table :: Collected(c, t, now, room) && u == room[k := Entry(b, now + c.ttl)]
    else u == t[k := Entry(b, now + c.ttl)]
  }

  predicate Bound(t: Table, k: Digest, backends: seq<string>, now: int) {
    k in t && now < t[k].expiresAt && t[k].backend in backends
  }

  /** The table after `preferred`: an expired or orphaned binding is dropped. */
  function Recalled(t: Table, k: Digest, backends: seq<string>, now: int): Table {
    if Bound(t, k, backends, now) then t else t - {k}
  }

  lemma Smaller<K, V>(big: map<K, V>, small: map<K, V>)
    requires small.Keys <= big.Keys
    ensures |small| <= |big|
  {
    CardinalityMonotone(big.Keys, small.Keys);
  }

  lemma CardinalityMonotone<K>(big: set<K>, small: set<K>)
    requires small <= big
    ensures |small| <= |big|
  {
    assert |big| == |small| + |big - small| by { assert big == small + (big - small); }
  }

  lemma CollectMakesRoom(c: Config, t: Table, now: int, u: Table)
    requires ValidConfig(c) && |t| <= c.maxEntries && Collected(c, t, now, u)
    ensures |u| < c.maxEntries && u.Keys <= t.Keys
  {
    var live := Live(t, now);
    Smaller(t, live);
    if |live| >= c.maxEntries {
      var k :| Earliest(live, k) && u == live - {k};
      assert u.Keys == live.Keys - {k};
    }
  }

  /** Remembering a key never lets the table outgrow its limit. */
  lemma RememberKeepsBound(c: Config, t: Table, k: Digest, b: string, now: int, u: Table)
    requires ValidConfig(c) && |t| <= c.maxEntries && Remembered(c, t, k, b, now, u)
    ensures |u| <= c.maxEntries
  {
    if k !in t && |t| >= c.maxEntries {
      var room: Table :| Collected(c, t, now, room) && u == room[k := Entry(b, now + c.ttl)];
      CollectMakesRoom(c, t, now, room);
      assert u.Keys == room.Keys + {k};
    } else {
      assert u.Keys == t.Keys + {k};
    }
  }

  /** A live entry is only lost to make room in a full table, only one is, and it expires no later
      than any other live entry; entries that stay are unchanged. */
  lemma OnlyEarliestIsEvicted(c: Config, t: Table, k: Digest, b: string, now: int, u: Table, j: Digest)
    requires Remembered(c, t, k, b, now, u) && j != k && j in t && now < t[j].expiresAt
    ensures j in u ==> u[j] == t[j]
    ensures j !in u ==> Earliest(Live(t, now), j) && |Live(t, now)| >= c.maxEntries
    ensures j !in u ==> k !in t && forall i :: i in t && now < t[i].expiresAt ==> t[j].expiresAt <= t[i].expiresAt
    ensures j !in u ==> forall i :: i in t && now < t[i].expiresAt && i != j ==> i in u
  {
    if k !in t && |t| >= c.maxEntries {
      var room: Table :| Collected(c, t, now, room) && u == room[k := Entry(b, now + c.ttl)];
      var live := Live(t, now);
      if |live| >= c.maxEntries {
        var victim :| Earliest(live, victim) && room == live - {victim};
        assert forall i :: i in t && now < t[i].expiresAt ==> i in live && live[i] == t[i];
      }
    }
  }

  // ---------------------------------------------------------------- runs

  datatype Op =
    | Select(key: Digest, backends: seq<string>, recallAt: int, bindAt: int, refreshAt: int)
    | Reconcile(members: seq<string>)

  /** One Select's effect on the table, given the preferred backend it worked with. */
  ghost predicate SelectStep(c: Config, score: Score, t: Table, op: Op, preferred: string, u: Table)
    requires op.Select?
  {
    var recalled := Recalled(t, op.key, op.backends, op.recallAt);
    if Bound(t, op.key, op.backends, op.recallAt)
    then preferred == t[op.key].backend && Remembered(c, recalled, op.key, preferred, op.refreshAt, u)
    else
      && IsLeast(RendezvousOrder(score, op.key), op.backends, preferred)
      && exists bound: Table :: Remembered(c, recalled, op.key, preferred, op.bindAt, bound)
                                && Remembered(c, bound, op.key, preferred, op.refreshAt, u)
  }

  ghost predicate Step(c: Config, score: Score, t: Table, op: Op, u: Table) {
    match op
    case Select(_, backends, _, _, _) => exists p :: SelectStep(c, score, t, op, p, u)
    case Reconcile(members) => u == map k | k in t && t[k].backend in members :: t[k]
  }

  ghost predicate IsRun(c: Config, score: Score, ops: seq<Op>, tables: seq<Table>) {
    |tables| == |ops| + 1 && forall i :: 0 <= i < |ops| ==> Step(c, score, tables[i], ops[i], tables[i + 1])
  }

  lemma StepKeepsBound(c: Config, score: Score, t: Table, op: Op, u: Table)
    requires ValidConfig(c) && |t| <= c.maxEntries && Step(c, score, t, op, u)
    ensures |u| <= c.maxEntries
  {
    match op
    case Reconcile(_) => Smaller(t, u);
    case Select(k, backends, recallAt, bindAt, refreshAt) =>
      var p :| SelectStep(c, score, t, op, p, u);
      var recalled := Recalled(t, k, backends, recallAt);
      Smaller(t, recalled);
      if Bound(t, k, backends, recallAt) {
        RememberKeepsBound(c, recalled, k, p, refreshAt, u);
      } else {
        var bound: Table :| Remembered(c, recalled, k, p, bindAt, bound) && Remembered(c, bound, k, p, refreshAt, u);
        RememberKeepsBound(c, recalled, k, p, bindAt, bound);
        RememberKeepsBound(c, bound, k, p, refreshAt, u);
      }
  }

  /** Over any run the table never exceeds MaxEntries. */
  lemma {:induction false} TableStaysBounded(c: Config, score: Score, ops: seq<Op>, tables: seq<Table>, i: nat)
    requires ValidConfig(c) && IsRun(c, score, ops, tables) && i < |tables| && |tables[0]| <= c.maxEntries
    ensures |tables[i]| <= c.maxEntries
  {
    if i > 0 {
      var j := i - 1;
      TableStaysBounded(c, score, ops, tables, j);
      assert Step(c, score, tables[j], ops[j], tables[j + 1]);
      StepKeepsBound(c, score, tables[j], ops[j], tables[j + 1]);
    }
  }

  lemma RememberOthers(c: Config, t: Table, k: Digest, b: string, now: int, u: Table, j: Digest)
    requires Remembered(c, t, k, b, now, u) && j != k && j in u
    ensures j in t && u[j] == t[j]
  {
    if k !in t && |t| >= c.maxEntries {
      var room: Table :| Collected(c, t, now, room) && u == room[k := Entry(b, now + c.ttl)];
    }
  }

  /** The binding of k survives this step: k is not evicted, and when it is the key being selected
      it is used within its TTL and its backend is still a member. */
  ghost predicate Undisturbed(t: Table, op: Op, u: Table, k: Digest) {
    k in t && k in u && (op.Select? && op.key == k ==> Bound(t, k, op.backends, op.recallAt))
  }

  lemma StepKeepsBinding(c: Config, score: Score, t: Table, op: Op, u: Table, k: Digest)
    requires Step(c, score, t, op, u) && Undisturbed(t, op, u, k)
    ensures u[k].backend == t[k].backend
    ensures op.Select? && op.key == k ==>
              SelectStep(c, score, t, op, t[k].backend, u) && u[k].expiresAt == op.refreshAt + c.ttl
  {
    match op
    case Reconcile(_) =>
    case Select(key, backends, recallAt, bindAt, refreshAt) =>
      var p :| SelectStep(c, score, t, op, p, u);
      if key != k {
        var recalled := Recalled(t, key, backends, recallAt);
        if Bound(t, key, backends, recallAt) {
          RememberOthers(c, recalled, key, p, refreshAt, u, k);
        } else {
          var bound: Table :| Remembered(c, recalled, key, p, bindAt, bound)
                          && Remembered(c, bound, key, p, refreshAt, u);
          RememberOthers(c, bound, key, p, refreshAt, u, k);
          RememberOthers(c, recalled, key, p, bindAt, bound, k);
        }
      }
  }

  /** Through every spillover and every other key's traffic, a key that is reused within its TTL,
      not evicted, and whose backend stays a member keeps its preferred backend. */
  lemma {:induction false} StickyBinding(c: Config, score: Score, ops: seq<Op>, tables: seq<Table>, k: Digest, i: nat)
    requires IsRun(c, score, ops, tables) && i < |tables| && k in tables[0]
    requires forall j :: 0 <= j < |ops| ==> Undisturbed(tables[j], ops[j], tables[j + 1], k)
    ensures k in tables[i] && tables[i][k].backend == tables[0][k].backend
  {
    if i > 0 {
      StickyBinding(c, score, ops, tables, k, i - 1);
      StepKeepsBinding(c, score, tables[i - 1], ops[i - 1], tables[i], k);
    }
  }

  // ---------------------------------------------------------------- interleaved requests

  /** A Select between two of its critical sections: it still has to write this binding so often. */
  datatype Pending = Pending(key: Digest, backend: string, writes: nat)

  datatype Fine = Fine(table: Table, pending: map<nat, Pending>)

  datatype FineOp =
    | Recall(id: nat, key: Digest, backends: seq<string>, at: int)
    | Write(writer: nat, when: int)
    | Drop(members: seq<string>)

  function Wrote(pending: map<nat, Pending>, id: nat): map<nat, Pending>
    requires id in pending
  {
    if pending[id].writes <= 1 then pending - {id} else pending[id := pending[id].(writes := pending[id].writes - 1)]
  }

  ghost predicate RecallStep(score: Score, s: Fine, id: nat, k: Digest, backends: seq<string>,
                             at: int, p: string, t: Fine) {
    && t.table == Recalled(s.table, k, backends, at)
    && (if Bound(s.table, k, backends, at)
        then p == s.table[k].backend && t.pending == s.pending[id := Pending(k, p, 1)]
        else IsLeast(RendezvousOrder(score, k), backends, p) && t.pending == s.pending[id := Pending(k, p, 2)])
  }

  /** One critical section of any request, or a membership change. */
  ghost predicate FineStep(c: Config, score: Score, s: Fine, op: FineOp, t: Fine) {
    match op
    case Recall(id, k, backends, at) =>
      if id in s.pending || backends == [] then t == s
      else exists p :: RecallStep(score, s, id, k, backends, at, p, t)
    case Write(id, when) =>
      if id !in s.pending then t == s
      else t.pending == Wrote(s.pending, id)
           && Remembered(c, s.table, s.pending[id].key, s.pending[id].backend, when, t.table)
    case Drop(members) =>
      t.pending == s.pending
      && t.table == map k | k in s.table && s.table[k].backend in members :: s.table[k]
  }

  ghost predicate IsFineRun(c: Config, score: Score, ops: seq<FineOp>, states: seq<Fine>) {
    |states| == |ops| + 1 && forall i :: 0 <= i < |ops| ==> FineStep(c, score, states[i], ops[i], states[i + 1])
  }

  lemma FineStepKeepsBound(c: Config, score: Score, s: Fine, op: FineOp, t: Fine)
    requires ValidConfig(c) && |s.table| <= c.maxEntries && FineStep(c, score, s, op, t)
    ensures |t.table| <= c.maxEntries
  {
    match op
    case Recall(_, _, _, _) => if t.table.Keys <= s.table.Keys { Smaller(s.table, t.table); }
    case Write(id, when) =>
      if id in s.pending { RememberKeepsBound(c, s.table, s.pending[id].key, s.pending[id].backend, when, t.table); }
    case Drop(_) => Smaller(s.table, t.table);
  }

  /** However requests interleave between their critical sections, the table never exceeds MaxEntries. */
  lemma {:induction false} FineTableStaysBounded(c: Config, score: Score, ops: seq<FineOp>, states: seq<Fine>, i: nat)
    requires ValidConfig(c) && IsFineRun(c, score, ops, states) && i < |states| && |states[0].table| <= c.maxEntries
    ensures |states[i].table| <= c.maxEntries
  {
    if i > 0 {
      var j := i - 1;
      FineTableStaysBounded(c, score, ops, states, j);
      assert FineStep(c, score, states[j], ops[j], states[j + 1]);
      FineStepKeepsBound(c, score, states[j], ops[j], states[j + 1]);
    }
  }

  /** The step leaves k bound, and if it recalls k it finds the binding within its TTL and a member. */
  ghost predicate LeavesBound(s: Fine, op: FineOp, t: Fine, k: Digest) {
    k in s.table && k in t.table
    && (op.Recall? && op.key == k && op.id !in s.pending && op.backends != [] ==> Bound(s.table, k, op.backends, op.at))
  }

  /** A step that leaves k bound keeps its backend if and only if it is not the write of a request that
      worked out another backend before. */
  lemma FineStepKeepsBindingIff(c: Config, score: Score, s: Fine, op: FineOp, t: Fine, k: Digest)
    requires FineStep(c, score, s, op, t) && LeavesBound(s, op, t, k)
    ensures t.table[k].backend == s.table[k].backend <==>
            !(op.Write? && op.writer in s.pending && s.pending[op.writer].key == k
              && s.pending[op.writer].backend != s.table[k].backend)
  {
    if op.Write? && op.writer in s.pending {
      var w := s.pending[op.writer];
      if w.key != k { RememberOthers(c, s.table, w.key, w.backend, op.when, t.table, k); }
    }
  }

  /** Every request for k that is under way carries this backend. */
  ghost predicate AllCarry(s: Fine, k: Digest, b: string) {
    forall id :: id in s.pending && s.pending[id].key == k ==> s.pending[id].backend == b
  }

  lemma FineStepCarries(c: Config, score: Score, s: Fine, op: FineOp, t: Fine, k: Digest, b: string)
    requires FineStep(c, score, s, op, t) && LeavesBound(s, op, t, k) && s.table[k].backend == b && AllCarry(s, k, b)
    ensures t.table[k].backend == b && AllCarry(t, k, b)
  {
    FineStepKeepsBindingIff(c, score, s, op, t, k);
  }

  /** Stickiness at the finest interleaving: if the requests for k under way at the start carry its
      backend, then through every interleaving that leaves k bound the backend stays, and every later
      request for k carries it. */
  lemma {:induction false} FineStickyBinding(c: Config, score: Score, ops: seq<FineOp>, states: seq<Fine>,
                                             k: Digest, i: nat)
    requires IsFineRun(c, score, ops, states) && i < |states| && k in states[0].table
    requires AllCarry(states[0], k, states[0].table[k].backend)
    requires forall j :: 0 <= j < |ops| ==> LeavesBound(states[j], ops[j], states[j + 1], k)
    ensures k in states[i].table && states[i].table[k].backend == states[0].table[k].backend
    ensures AllCarry(states[i], k, states[0].table[k].backend)
  {
    if i > 0 {
      var j := i - 1;
      FineStickyBinding(c, score, ops, states, k, j);
      assert FineStep(c, score, states[j], ops[j], states[j + 1]) && LeavesBound(states[j], ops[j], states[j + 1], k);
      FineStepCarries(c, score, states[j], ops[j], states[j + 1], k, states[0].table[k].backend);
    }
  }

  /** The run starts in s and every step leaves k bound. */
  ghost predicate KeepsBound(c: Config, score: Score, s: Fine, k: Digest, ops: seq<FineOp>, states: seq<Fine>) {
    && IsFineRun(c, score, ops, states) && states[0] == s
    && forall j :: 0 <= j < |ops| ==> LeavesBound(states[j], ops[j], states[j + 1], k)
  }

  ghost predicate EndsWith(states: seq<Fine>, k: Digest, b: string) {
    states != [] && k in states[|states| - 1].table && states[|states| - 1].table[k].backend == b
  }

  /** Stickiness has an exact condition: a bound key keeps its backend in every interleaving that leaves
      it bound if and only if every request for it that is under way carries that backend. */
  lemma StickyIffAllCarry(c: Config, score: Score, s: Fine, k: Digest)
    requires k in s.table
    ensures AllCarry(s, k, s.table[k].backend) <==>
            forall ops: seq<FineOp>, states: seq<Fine> ::
              KeepsBound(c, score, s, k, ops, states) ==> EndsWith(states, k, s.table[k].backend)
  {
    var b := s.table[k].backend;
    if AllCarry(s, k, b) {
      forall ops: seq<FineOp>, states: seq<Fine> | KeepsBound(c, score, s, k, ops, states)
        ensures EndsWith(states, k, b)
      {
        FineStickyBinding(c, score, ops, states, k, |ops|);
      }
    } else {
      var id :| id in s.pending && s.pending[id].key == k && s.pending[id].backend != b;
      var t := OneWrite(c, score, s, k, id);
      assert !EndsWith([s, t], k, b);
    }
  }

  lemma OneWrite(c: Config, score: Score, s: Fine, k: Digest, id: nat) returns (t: Fine)
    requires k in s.table && id in s.pending && s.pending[id].key == k
    ensures KeepsBound(c, score, s, k, [Write(id, 0)], [s, t])
    ensures k in t.table && t.table[k].backend == s.pending[id].backend
  {
    t := Fine(s.table[k := Entry(s.pending[id].backend, c.ttl)], Wrote(s.pending, id));
    assert FineStep(c, score, s, Write(id, 0), t) && LeavesBound(s, Write(id, 0), t, k);
  }

  /** No Select begins while another is under way, as behind the gateway's selection lock. */
  ghost predicate Serial(ops: seq<FineOp>, states: seq<Fine>) {
    |states| == |ops| + 1 && states[0].pending == map[]
    && forall i :: 0 <= i < |ops| && ops[i].Recall? ==> states[i].pending == map[]
  }

  /** The one request under way agrees with the binding of its key, if there is one. */
  ghost predicate Agrees(s: Fine) {
    && (forall i, j :: i in s.pending && j in s.pending ==> i == j)
    && (forall i :: i in s.pending && s.pending[i].key in s.table ==>
          s.table[s.pending[i].key].backend == s.pending[i].backend)
  }

  lemma RememberBinds(c: Config, t: Table, k: Digest, b: string, now: int, u: Table)
    requires Remembered(c, t, k, b, now, u)
    ensures k in u && u[k].backend == b
  {
  }

  lemma SerialStepAgrees(c: Config, score: Score, s: Fine, op: FineOp, t: Fine)
    requires FineStep(c, score, s, op, t) && Agrees(s) && (op.Recall? ==> s.pending == map[])
    ensures Agrees(t)
    ensures forall k :: k in s.table && k in t.table ==> t.table[k].backend == s.table[k].backend
  {
    if op.Write? && op.writer in s.pending {
      var w := s.pending[op.writer];
      RememberBinds(c, s.table, w.key, w.backend, op.when, t.table);
      forall k | k in t.table && k != w.key ensures k in s.table && t.table[k] == s.table[k] {
        RememberOthers(c, s.table, w.key, w.backend, op.when, t.table, k);
      }
      assert forall i :: i in t.pending ==>
               i in s.pending && t.pending[i].key == w.key && t.pending[i].backend == w.backend;
    }
  }

  /** One Select at a time, membership changes anywhere: no step ever moves a binding to another backend. */
  lemma {:induction false} SerialSelectsNeverMove(c: Config, score: Score, ops: seq<FineOp>, states: seq<Fine>, i: nat)
    requires IsFineRun(c, score, ops, states) && Serial(ops, states) && i < |ops|
    ensures Agrees(states[i + 1])
    ensures forall k :: k in states[i].table && k in states[i + 1].table ==>
              states[i + 1].table[k].backend == states[i].table[k].backend
  {
    if i > 0 { SerialSelectsNeverMove(c, score, ops, states, i - 1); }
    assert FineStep(c, score, states[i], ops[i], states[i + 1]);
    SerialStepAgrees(c, score, states[i], ops[i], states[i + 1]);
  }

  lemma MissStep(c: Config, score: Score, s: Fine, id: nat, k: Digest, b: string, at: int)
    requires id !in s.pending && k !in s.table
    ensures FineStep(c, score, s, Recall(id, k, [b], at), s.(pending := s.pending[id := Pending(k, b, 2)]))
  {
    var t := s.(pending := s.pending[id := Pending(k, b, 2)]);
    assert s.table - {k} == s.table;
    assert RecallStep(score, s, id, k, [b], at, b, t);
  }

  lemma WriteStep(c: Config, score: Score, s: Fine, id: nat, when: int)
    requires id in s.pending && |s.table| < c.maxEntries
    ensures FineStep(c, score, s, Write(id, when),
                     Fine(s.table[s.pending[id].key := Entry(s.pending[id].backend, when + c.ttl)],
                          Wrote(s.pending, id)))
  {
  }

  const STALE_CONFIG := Config(10, 4, 0, 0.0)

  function Bindings(k: Digest, b: string, until: int): Table { map[k := Entry(b, until)] }

  /** One request has written once and still has its refresh to write. */
  function Waiting(k: Digest, b: string): map<nat, Pending> { map[0 := Pending(k, b, 1)] }

  ghost predicate FineReaches(c: Config, score: Score, s: Fine, t: Fine) {
    exists ops: seq<FineOp>, states: seq<Fine> ::
      IsFineRun(c, score, ops, states) && states[0] == s && states[|ops|] == t
  }

  lemma ReachesSelf(c: Config, score: Score, s: Fine)
    ensures FineReaches(c, score, s, s)
  {
    assert IsFineRun(c, score, [], [s]);
  }

  lemma ReachesNext(c: Config, score: Score, s: Fine, t: Fine, op: FineOp, u: Fine)
    requires FineReaches(c, score, s, t) && FineStep(c, score, t, op, u)
    ensures FineReaches(c, score, s, u)
  {
    var ops: seq<FineOp>, states: seq<Fine> :| IsFineRun(c, score, ops, states) && states[0] == s && states[|ops|] == t;
    var more, after := ops + [op], states + [u];
    forall i | 0 <= i < |more| ensures FineStep(c, score, after[i], more[i], after[i + 1]) {
      if i < |ops| { assert after[i] == states[i] && after[i + 1] == states[i + 1] && more[i] == ops[i]; }
    }
    assert IsFineRun(c, score, more, after);
  }

  /** A Select that nobody interrupts is a run of these steps. */
  lemma SelectIsFine(c: Config, score: Score, t: Table, op: Op, preferred: string, u: Table,
                     pending: map<nat, Pending>, id: nat)
    requires op.Select? && op.backends != [] && SelectStep(c, score, t, op, preferred, u) && id !in pending
    ensures FineReaches(c, score, Fine(t, pending), Fine(u, pending))
  {
    if Bound(t, op.key, op.backends, op.recallAt) {
      HitIsFine(c, score, t, op, preferred, u, pending, id);
    } else {
      var recalled := Recalled(t, op.key, op.backends, op.recallAt);
      var bound: Table :| Remembered(c, recalled, op.key, preferred, op.bindAt, bound)
                          && Remembered(c, bound, op.key, preferred, op.refreshAt, u);
      MissIsFine(c, score, t, op, preferred, bound, pending, id);
      LastWrite(c, score, Fine(t, pending), bound, pending, id, op.key, preferred, op.refreshAt, u);
    }
  }

  lemma HitIsFine(c: Config, score: Score, t: Table, op: Op, preferred: string, u: Table,
                  pending: map<nat, Pending>, id: nat)
    requires op.Select? && op.backends != [] && id !in pending && Bound(t, op.key, op.backends, op.recallAt)
    requires preferred == t[op.key].backend && Remembered(c, t, op.key, preferred, op.refreshAt, u)
    ensures FineReaches(c, score, Fine(t, pending), Fine(u, pending))
  {
    var once := pending[id := Pending(op.key, preferred, 1)];
    ReachesRecall(c, score, Fine(t, pending), id, op, preferred, Fine(t, once));
    LastWrite(c, score, Fine(t, pending), t, pending, id, op.key, preferred, op.refreshAt, u);
  }

  lemma MissIsFine(c: Config, score: Score, t: Table, op: Op, preferred: string, bound: Table,
                   pending: map<nat, Pending>, id: nat)
    requires op.Select? && op.backends != [] && id !in pending && !Bound(t, op.key, op.backends, op.recallAt)
    requires IsLeast(RendezvousOrder(score, op.key), op.backends, preferred)
    requires Remembered(c, Recalled(t, op.key, op.backends, op.recallAt), op.key, preferred, op.bindAt, bound)
    ensures FineReaches(c, score, Fine(t, pending), Fine(bound, pending[id := Pending(op.key, preferred, 1)]))
  {
    var recalled, twice := Recalled(t, op.key, op.backends, op.recallAt), pending[id := Pending(op.key, preferred, 2)];
    ReachesRecall(c, score, Fine(t, pending), id, op, preferred, Fine(recalled, twice));
    FirstWrite(c, score, Fine(t, pending), recalled, pending, id, op.key, preferred, op.bindAt, bound);
  }

  lemma FirstWrite(c: Config, score: Score, s: Fine, table: Table, pending: map<nat, Pending>, id: nat,
                   k: Digest, b: string, when: int, u: Table)
    requires FineReaches(c, score, s, Fine(table, pending[id := Pending(k, b, 2)]))
    requires Remembered(c, table, k, b, when, u)
    ensures FineReaches(c, score, s, Fine(u, pending[id := Pending(k, b, 1)]))
  {
    var twice := pending[id := Pending(k, b, 2)];
    assert Wrote(twice, id) == pending[id := Pending(k, b, 1)];
    ReachesWrite(c, score, s, Fine(table, twice), id, when, u);
  }

  lemma LastWrite(c: Config, score: Score, s: Fine, table: Table, pending: map<nat, Pending>, id: nat,
                  k: Digest, b: string, when: int, u: Table)
    requires id !in pending && FineReaches(c, score, s, Fine(table, pending[id := Pending(k, b, 1)]))
    requires Remembered(c, table, k, b, when, u)
    ensures FineReaches(c, score, s, Fine(u, pending))
  {
    var once := pending[id := Pending(k, b, 1)];
    assert Wrote(once, id) == pending;
    ReachesWrite(c, score, s, Fine(table, once), id, when, u);
  }

  lemma ReachesRecall(c: Config, score: Score, s: Fine, id: nat, op: Op, p: string, t: Fine)
    requires op.Select? && op.backends != [] && id !in s.pending
    requires RecallStep(score, s, id, op.key, op.backends, op.recallAt, p, t)
    ensures FineReaches(c, score, s, t)
  {
    ReachesSelf(c, score, s);
    ReachesNext(c, score, s, s, Recall(id, op.key, op.backends, op.recallAt), t);
  }

  lemma ReachesWrite(c: Config, score: Score, s: Fine, t: Fine, id: nat, when: int, table: Table)
    requires FineReaches(c, score, s, t) && id in t.pending
    requires Remembered(c, t.table, t.pending[id].key, t.pending[id].backend, when, table)
    ensures FineReaches(c, score, s, Fine(table, Wrote(t.pending, id)))
  {
    ReachesNext(c, score, s, t, Write(id, when), Fine(table, Wrote(t.pending, id)));
  }

  const NOBODY: Fine := Fine(map[], map[])

  lemma FirstPauses(score: Score, k: Digest)
    ensures FineReaches(STALE_CONFIG, score, NOBODY, Fine(map[], Waiting(k, "a")))
  {
    var one := Fine(map[], map[0 := Pending(k, "a", 2)]);
    ReachesSelf(STALE_CONFIG, score, NOBODY);
    MissStep(STALE_CONFIG, score, NOBODY, 0, k, "a", 0);
    assert NOBODY.pending[0 := Pending(k, "a", 2)] == one.pending;
    ReachesNext(STALE_CONFIG, score, NOBODY, NOBODY, Recall(0, k, ["a"], 0), one);
    WriteStep(STALE_CONFIG, score, one, 0, 0);
    assert Wrote(one.pending, 0) == Waiting(k, "a") && one.table[k := Entry("a", 10)] == Bindings(k, "a", 10);
    var bound := Fine(Bindings(k, "a", 10), Waiting(k, "a"));
    ReachesNext(STALE_CONFIG, score, NOBODY, one, Write(0, 0), bound);
    DropStep(score, k);
    ReachesNext(STALE_CONFIG, score, NOBODY, bound, Drop(["b"]), Fine(map[], Waiting(k, "a")));
  }

  lemma DropStep(score: Score, k: Digest)
    ensures FineStep(STALE_CONFIG, score, Fine(Bindings(k, "a", 10), Waiting(k, "a")), Drop(["b"]),
                     Fine(map[], Waiting(k, "a")))
  {
  }

  lemma SecondFinishes(score: Score, k: Digest)
    ensures FineReaches(STALE_CONFIG, score, NOBODY, Fine(Bindings(k, "b", 11), Waiting(k, "a")))
  {
    var paused := Fine(map[], Waiting(k, "a"));
    var two := Waiting(k, "a")[1 := Pending(k, "b", 2)];
    FirstPauses(score, k);
    MissStep(STALE_CONFIG, score, paused, 1, k, "b", 1);
    ReachesNext(STALE_CONFIG, score, NOBODY, paused, Recall(1, k, ["b"], 1), Fine(map[], two));
    WriteStep(STALE_CONFIG, score, Fine(map[], two), 1, 1);
    assert paused.table[k := Entry("b", 11)] == Bindings(k, "b", 11);
    var bound := Fine(Bindings(k, "b", 11), Wrote(two, 1));
    ReachesNext(STALE_CONFIG, score, NOBODY, Fine(map[], two), Write(1, 1), bound);
    WriteStep(STALE_CONFIG, score, bound, 1, 1);
    assert bound.table[k := Entry("b", 11)] == Bindings(k, "b", 11) && Wrote(bound.pending, 1) == Waiting(k, "a");
    ReachesNext(STALE_CONFIG, score, NOBODY, bound, Write(1, 1), Fine(Bindings(k, "b", 11), Waiting(k, "a")));
  }

  /** The condition can fail: a request binds a key to "a" and pauses, "a" leaves, a second request binds
      the key to the member "b" and finishes, and the first one's refresh takes the key back to "a". */
  lemma StaleRefreshMovesBinding(score: Score, k: Digest)
    ensures var s := Fine(Bindings(k, "b", 11), Waiting(k, "a"));
            && FineReaches(STALE_CONFIG, score, NOBODY, s)
            && FineStep(STALE_CONFIG, score, s, Write(0, 2), Fine(Bindings(k, "a", 12), map[]))
  {
    SecondFinishes(score, k);
    var s := Fine(Bindings(k, "b", 11), Waiting(k, "a"));
    WriteStep(STALE_CONFIG, score, s, 0, 2);
    assert s.table[k := Entry("a", 12)] == Bindings(k, "a", 12) && Wrote(s.pending, 0) == map[];
  }

  // ---------------------------------------------------------------- the object

  datatype Spill = NoSpill | Blocked | QueueTooDeep | TooManyInflight
  predicate QueueBroken(c: Config, s: Snapshot, preferred: string, least: string) {
    QueueAvailableForAll(s) && QueueOf(s, preferred) > QueueOf(s, least) + c.queueDelta
  }

  predicate InflightBroken(c: Config, s: Snapshot, preferred: string, least: string) {
    Inflight(s, preferred) > Inflight(s, least) + c.inflightDelta
  }

  /** A request leaves its preferred backend only for the least loaded one and only for the reason given:
      an open circuit before the queue bound, the queue bound before the in-flight bound; and it stays
      only while the least loaded one breaks neither bound. */
  ghost predicate RightSpill(c: Config, s: Snapshot, preferred: string, selected: string, spill: Spill) {
    && (spill.NoSpill? ==> selected == preferred)
    && (!spill.NoSpill? ==> IsLeast(LeastLoadedOrder(s, preferred), EligibleBackends(s), selected))
    && (spill.Blocked? <==> preferred in s.ineligible)
    && (spill.QueueTooDeep? ==> QueueBroken(c, s, preferred, selected))
    && (spill.TooManyInflight? ==> InflightBroken(c, s, preferred, selected) && !QueueBroken(c, s, preferred, selected))
    && (spill.NoSpill? ==>
          forall least :: IsLeast(LeastLoadedOrder(s, preferred), EligibleBackends(s), least) && least != preferred ==>
            !QueueBroken(c, s, preferred, least) && !InflightBroken(c, s, preferred, least))
  }

  /** Stay on the preferred backend unless it is blocked or clearly busier than the least loaded. */
  method SelectWithinBounds(c: Config, s: Snapshot, preferred: string) returns (selected: string, spill: Spill)
    requires EligibleBackends(s) != [] && preferred in s.backends
    ensures selected in EligibleBackends(s)
    ensures RightSpill(c, s, preferred, selected, spill)
    ensures spill.Blocked? <==> preferred in s.ineligible
    ensures spill.QueueTooDeep? ==>
              QueueAvailableForAll(s) && QueueOf(s, preferred) > QueueOf(s, selected) + c.queueDelta
    ensures spill.TooManyInflight? ==> Inflight(s, preferred) > Inflight(s, selected) + c.inflightDelta
    ensures spill.NoSpill? ==> forall least :: IsLeast(LeastLoadedOrder(s, preferred), EligibleBackends(s), least) ==>
              least == preferred
              || (Inflight(s, preferred) <= Inflight(s, least) + c.inflightDelta
                  && (QueueAvailableForAll(s) ==> QueueOf(s, preferred) <= QueueOf(s, least) + c.queueDelta))
  {
    var least := LeastLoaded(s, preferred);
    LeastLoadedOrders(s, preferred);
    forall x | IsLeast(LeastLoadedOrder(s, preferred), EligibleBackends(s), x) ensures x == least {
      LeastIsUnique(LeastLoadedOrder(s, preferred), EligibleBackends(s), EligibleBackends(s), x, least);
    }
    if preferred in s.ineligible {
      return least, Blocked;
    }
    if least == preferred {
      return preferred, NoSpill;
    }
    if QueueAvailableForAll(s) {
      if QueueOf(s, preferred) > QueueOf(s, least) + c.queueDelta {
        return least, QueueTooDeep;
      }
    }
    if Inflight(s, preferred) > Inflight(s, least) + c.inflightDelta {
      return least, TooManyInflight;
    }
    return preferred, NoSpill;
  }

  class Strategy {
    const config: Config
    var entries: Table

    constructor (config: Config)
      requires ValidConfig(config)
      ensures this.config == config && entries == map[]
    {
      this.config := config;
      entries := map[];
    }

    method Preferred(k: Digest, backends: seq<string>, now: int) returns (hit: Option<string>)
      modifies this
      ensures entries == Recalled(old(entries), k, backends, now)
      ensures hit.Some? <==> k in old(entries) && now < old(entries)[k].expiresAt && old(entries)[k].backend in backends
      ensures hit.Some? ==> entries == old(entries)
      ensures hit.None? ==> entries == old(entries) - {k}
      ensures hit.Some? ==> hit.value == entries[k].backend && hit.value in backends
    {
      if k !in entries || now >= entries[k].expiresAt {
        entries := entries - {k};
        return None;
      }
      for i := 0 to |backends|
        invariant entries == old(entries) && entries[k].backend !in backends[..i]
      {
        if backends[i] == entries[k].backend {
          return Some(backends[i]);
        }
      }
      assert backends[..|backends|] == backends;
      entries := entries - {k};
      return None;
    }

    method CollectOrEvictOldest(now: int)
      requires ValidConfig(config)
      modifies this
      ensures Collected(config, old(entries), now, entries)
      ensures forall k :: k in entries ==>
                k in old(entries) && entries[k] == old(entries)[k] && now < entries[k].expiresAt
      ensures forall k :: k in old(entries) && now < old(entries)[k].expiresAt && k !in entries ==>
                forall j :: j in old(entries) && now < old(entries)[j].expiresAt ==>
                  old(entries)[k].expiresAt <= old(entries)[j].expiresAt && (j != k ==> j in entries)
    {
      var before := entries;
      var todo := before.Keys;
      var oldest: Option<Digest> := None;
      while todo != {}
        invariant todo <= before.Keys
        invariant entries.Keys == set k | k in before.Keys && (k in todo || now < before[k].expiresAt)
        invariant forall k :: k in entries ==> entries[k] == before[k]
        invariant oldest.None? ==> forall k :: k in entries ==> k in todo
        invariant oldest.Some? ==> oldest.value in entries && oldest.value !in todo
        invariant oldest.Some? ==> forall k :: k in entries && k !in todo ==>
                                     entries[oldest.value].expiresAt <= entries[k].expiresAt
        decreases todo
      {
        var k :| k in todo;
        todo := todo - {k};
        if now >= before[k].expiresAt {
          entries := entries - {k};
        } else if oldest.None? || before[k].expiresAt < before[oldest.value].expiresAt {
          oldest := Some(k);
        }
      }
      assert entries == Live(before, now);
      if |entries| >= config.maxEntries && oldest.Some? {
        assert Earliest(Live(before, now), oldest.value);
        entries := entries - {oldest.value};
      } else if oldest.None? {
        assert entries.Keys == {};
      }
    }

    method Remember(k: Digest, b: string, now: int)
      requires ValidConfig(config)
      modifies this
      ensures Remembered(config, old(entries), k, b, now, entries)
      ensures k in entries && entries[k] == Entry(b, now + config.ttl)
      ensures forall j :: j in entries && j != k ==> j in old(entries) && entries[j] == old(entries)[j]
      ensures k in old(entries) || |old(entries)| < config.maxEntries ==> forall j :: j in old(entries) ==> j in entries
    {
      if k !in entries && |entries| >= config.maxEntries {
        CollectOrEvictOldest(now);
      }
      entries := entries[k := Entry(b, now + config.ttl)];
    }

    /** `key` is None for a request without a session key: nothing is remembered. */
    method SelectBackend(key: Option<Digest>, s: Snapshot, score: Score, recallAt: int, bindAt: int, refreshAt: int)
      returns (ok: bool, selected: string, preferred: string, spill: Spill, hit: bool)
      requires ValidConfig(config) && |entries| <= config.maxEntries
      modifies this
      ensures |entries| <= config.maxEntries
      ensures ok <==> EligibleBackends(s) != []
      ensures ok ==> selected in EligibleBackends(s)
      ensures ok && key.Some? ==>
                SelectStep(config, score, old(entries), Select(key.value, s.backends, recallAt, bindAt, refreshAt),
                           preferred, entries)
      ensures !ok || key.None? ==> entries == old(entries)
      ensures ok && key.None? ==> IsLeast(LeastLoadedOrder(s, ""), EligibleBackends(s), selected) && spill == NoSpill
      ensures ok && spill.NoSpill? ==> selected == preferred
      ensures ok && key.Some? ==> preferred in s.backends && RightSpill(config, s, preferred, selected, spill)
      ensures hit <==> ok && key.Some? && Bound(old(entries), key.value, s.backends, recallAt)
    {
      var eligible := Eligible(s);
      if eligible == [] {
        return false, "", "", NoSpill, false;
      }
      if key.None? {
        selected := LeastLoaded(s, "");
        return true, selected, selected, NoSpill, false;
      }
      var k := key.value;
      ghost var before := entries;
      var recalled := Preferred(k, s.backends, recallAt);
      hit := recalled.Some?;
      if hit {
        preferred := recalled.value;
      } else {
        assert eligible[0] in s.backends;
        preferred := Rendezvous(score, k, s.backends);
        Remember(k, preferred, bindAt);
      }
      selected, spill := SelectWithinBounds(config, s, preferred);
      Remember(k, preferred, refreshAt);
      ghost var op := Select(k, s.backends, recallAt, bindAt, refreshAt);
      assert SelectStep(config, score, before, op, preferred, entries);
      StepKeepsBound(config, score, before, op, entries);
      ok := true;
    }

    method ReconcileBackends(members: seq<string>)
      modifies this
      ensures entries == map k | k in old(entries) && old(entries)[k].backend in members :: old(entries)[k]
    {
      var before := entries;
      var todo := before.Keys;
      while todo != {}
        invariant todo <= before.Keys
        invariant entries == map k | k in before && (k in todo || before[k].backend in members) :: before[k]
        decreases todo
      {
        var k :| k in todo;
        todo := todo - {k};
        if before[k].backend !in members {
          entries := entries - {k};
        }
      }
    }
  }
}
