/**
 Which stream owns which Pod: Reconcile and Close retire, clear, publish and start
 streams while their threads write the index and lookups read it.

 A stream object is a handle, the position of its record; creating one appends a
 record, so handles are never reused. Index entries remember the stream that wrote them and the
 engine generation it was in; a sequence reset begins the next one.
 */
module StreamLifecycle {
  import opened Text

  type Handle = nat

  datatype Instance = Instance(backend: string, uid: string, pod: string, model: string,
                               eventsEndpoint: string, replayEndpoint: string)

  /** `valid` says whether the stream's snapshot is valid as long as it is fresh. */
  datatype Record = Record(instance: Instance, started: bool, closed: bool, exited: bool, generation: nat, valid: bool)

  datatype Entry = Entry(pod: string, writer: Handle, generation: nat, block: nat)

  datatype Phase =
    | Settled
    | Retiring(target: map<string, Instance>, next: map<string, Handle>, additions: seq<Handle>, pending: seq<Handle>)
    | Starting(waiting: seq<Handle>)
    | ShuttingDown(left: seq<Handle>, clean: bool)

  /** A lookup in progress: the streams it fixed at its start, what it has read for each, and the
      stream's generation at the first read that found anything. */
  datatype Reading = Reading(selected: map<string, Handle>, seen: map<string, set<Entry>>, first: map<string, nat>)

  /** `goal` is the desired set of the last Reconcile that succeeded. */
  datatype World = World(records: seq<Record>, published: map<string, Handle>, goal: map<string, Instance>,
                         index: set<Entry>, closed: bool, phase: Phase, reading: Reading)

  const NO_READING := Reading(map[], map[], map[])
  const NEW_WORLD := World([], map[], map[], {}, false, Settled, NO_READING)

  // ---------------------------------------------------------------- reconcile planning

  ghost predicate Distinct<T>(s: seq<T>) { forall i, j :: 0 <= i < j < |s| ==> s[i] != s[j] }

  /** What validateInstances guarantees of the desired set. */
  predicate DesiredOk(desired: map<string, Instance>) {
    && (forall b :: b in desired ==> desired[b].backend == b)
    && (forall b, d :: b in desired && d in desired && b != d ==> desired[b].pod != desired[d].pod)
  }

  predicate KeepsStream(w: World, desired: map<string, Instance>, b: string) {
    b in desired && b in w.published && w.published[b] < |w.records|
    && w.records[w.published[b]].instance == desired[b] && !w.records[w.published[b]].closed
  }

  function Kept(w: World, desired: map<string, Instance>): map<string, Handle> {
    map b | b in w.published && KeepsStream(w, desired, b) :: w.published[b]
  }

  /** `names` lists the backends that get a new stream, `order` the streams to retire. */
  ghost predicate IsPlan(w: World, desired: map<string, Instance>, names: seq<string>, order: seq<Handle>) {
    && DesiredOk(desired)
    && Distinct(names) && (forall b :: b in names <==> b in desired && !KeepsStream(w, desired, b))
    && (forall h :: h in order <==>
          exists b :: b in w.published && !KeepsStream(w, desired, b) && w.published[b] == h)
  }

  function NewRecord(instance: Instance): Record { Record(instance, false, false, false, 0, false) }

  function NewRecords(desired: map<string, Instance>, names: seq<string>): seq<Record>
    requires forall b :: b in names ==> b in desired
  {
    seq(|names|, i requires 0 <= i < |names| => NewRecord(desired[names[i]]))
  }

  function Fresh(base: nat, names: seq<string>): map<string, Handle> {
    if names == [] then map[]
    else Fresh(base, names[..|names| - 1])[names[|names| - 1] := base + |names| - 1]
  }

  // ---------------------------------------------------------------- steps

  /** Edit, Reset, Confirm and Lapse are what a stream's threads do: apply a batch (or clear after a fault),
      accept a sequence reset and clear the Pod, reach a replay END that resolves the reason, and lose
      validity to a gap, a fault or age. */
  datatype Op =
    | BeginReconcile(desired: map<string, Instance>, names: seq<string>, order: seq<Handle>)
    | BeginClose(all: seq<Handle>)
    | MarkHeadClosed
    | ThreadsExit(exiting: Handle)
    | ClearHead(ok: bool, dropped: set<Entry>)
    | Publish
    | StartHead
    | CloseReturns
    | Edit(writer: Handle, added: set<nat>, removed: set<nat>)
    | Reset(restarted: Handle)
    | Confirm(confirmed: Handle)
    | Lapse(lapsed: Handle)
    | LookupBegin(backends: set<string>)
    | LookupRead(backend: string, block: nat)

  function Head(p: Phase): seq<Handle> {
    match p
    case Retiring(_, _, _, pending) => pending
    case ShuttingDown(left, _) => left
    case _ => []
  }

  predicate Stopped(r: Record) { r.closed && (r.exited || !r.started) }

  function WithoutPod(index: set<Entry>, pod: string): set<Entry> {
    set e | e in index && e.pod != pod
  }

  /** The stream's threads may act. */
  predicate Running(w: World, h: Handle) { h < |w.records| && w.records[h].started && !w.records[h].exited }

  /** The snapshot check of a lookup, up to freshness. */
  predicate SnapshotOk(r: Record) { !r.closed && r.valid }

  ghost function Next(w: World, op: Op): World {
    match op
    case BeginReconcile(desired, names, order) =>
      if !w.phase.Settled? || w.closed || !IsPlan(w, desired, names, order) then w
      else
        w.(records := w.records + NewRecords(desired, names),
           phase := Retiring(desired, Kept(w, desired) + Fresh(|w.records|, names),
                             seq(|names|, i => |w.records| + i), order))
    case BeginClose(all) =>
      if !w.phase.Settled? || w.closed || !(forall h :: h in all <==> h in w.published.Values) then w
      else w.(closed := true, phase := ShuttingDown(all, true))
    case MarkHeadClosed =>
      if Head(w.phase) == [] || Head(w.phase)[0] >= |w.records| then w
      else var h := Head(w.phase)[0]; w.(records := w.records[h := w.records[h].(closed := true)])
    case ThreadsExit(h) =>
      if h < |w.records| && w.records[h].closed
      then w.(records := w.records[h := w.records[h].(exited := true)]) else w
    case ClearHead(ok, dropped) =>
      if Head(w.phase) == [] || Head(w.phase)[0] >= |w.records| || !Stopped(w.records[Head(w.phase)[0]]) then w
      else
        var pod := w.records[Head(w.phase)[0]].instance.pod;
        var cleared := if ok then WithoutPod(w.index, pod)
                       else w.index - (set e | e in w.index && e in dropped && e.pod == pod);
        if w.phase.ShuttingDown?
        then w.(index := cleared, phase := ShuttingDown(w.phase.left[1..], w.phase.clean && ok))
        else w.(index := cleared,
                phase := if ok then w.phase.(pending := w.phase.pending[1..]) else Settled)
    case Publish =>
      if w.phase.Retiring? && w.phase.pending == []
      then w.(published := w.phase.next, goal := w.phase.target, phase := Starting(w.phase.additions)) else w
    case StartHead =>
      if !w.phase.Starting? then w
      else if w.phase.waiting == [] || w.phase.waiting[0] >= |w.records| then w.(phase := Settled)
      else var h := w.phase.waiting[0];
           w.(records := w.records[h := w.records[h].(started := true)], phase := Starting(w.phase.waiting[1..]))
    case CloseReturns => if w.phase.ShuttingDown? && w.phase.left == [] then w.(phase := Settled) else w
    case Edit(h, added, removed) =>
      if Running(w, h)
      then
        var pod := w.records[h].instance.pod;
        w.(index := (set e | e in w.index && !(e.pod == pod && e.block in removed))
                    + (set n | n in added :: Entry(pod, h, w.records[h].generation, n)))
      else w
    case Reset(h) =>
      if Running(w, h)
      then w.(records := w.records[h := w.records[h].(generation := w.records[h].generation + 1, valid := false)],
              index := WithoutPod(w.index, w.records[h].instance.pod))
      else w
    case Confirm(h) =>
      if Running(w, h) then w.(records := w.records[h := w.records[h].(valid := true)]) else w
    case Lapse(h) =>
      if h < |w.records| then w.(records := w.records[h := w.records[h].(valid := false)]) else w
    case LookupBegin(backends) =>
      var selected := map b | b in w.published && b in backends && w.published[b] < |w.records|
                              && SnapshotOk(w.records[w.published[b]]) :: w.published[b];
      w.(reading := Reading(selected, map b | b in selected :: {}, map[]))
    case LookupRead(b, block) =>
      if b in w.reading.selected && b in w.reading.seen && w.reading.selected[b] < |w.records| then
        var r := w.records[w.reading.selected[b]];
        var found := set e | e in w.index && e.pod == r.instance.pod && e.block == block;
        w.(reading := w.reading.(
             seen := w.reading.seen[b := w.reading.seen[b] + found],
             first := if b !in w.reading.first && found != {} then w.reading.first[b := r.generation]
                      else w.reading.first))
      else w
  }

  ghost function Run(w: World, ops: seq<Op>): World
    decreases |ops|
  {
    if ops == [] then w else Run(Next(w, ops[0]), ops[1..])
  }

  // ---------------------------------------------------------------- invariant

  /** Every stream a map names exists, serves that backend, and no two serve one Pod. */
  ghost predicate WellNamed(w: World, m: map<string, Handle>) {
    && (forall b :: b in m ==> m[b] < |w.records| && w.records[m[b]].instance.backend == b)
    && (forall b, d :: b in m && d in m && b != d ==>
          w.records[m[b]].instance.pod != w.records[m[d]].instance.pod)
  }

  /** The streams named are exactly those of the wanted instances. */
  ghost predicate Serves(w: World, m: map<string, Handle>, wanted: map<string, Instance>) {
    && m.Keys == wanted.Keys
    && forall b :: b in m ==> m[b] < |w.records| && w.records[m[b]].instance == wanted[b]
  }

  ghost predicate Names(m: map<string, Handle>, h: Handle) { exists b :: b in m && m[b] == h }

  /** The index only holds entries of published streams, written by themselves since their start. */
  ghost predicate Owned(w: World) {
    forall e :: e in w.index ==>
      Names(w.published, e.writer) && e.writer < |w.records| && w.records[e.writer].instance.pod == e.pod
      && w.records[e.writer].started && e.generation == w.records[e.writer].generation
  }

  /** A stream that has been started is published or completely stopped. */
  ghost predicate Accounted(w: World) {
    forall h :: 0 <= h < |w.records| && w.records[h].started ==>
      Names(w.published, h) || (w.records[h].closed && w.records[h].exited)
  }

  ghost predicate Retired(w: World, h: Handle) {
    h < |w.records| && Stopped(w.records[h]) && forall e :: e in w.index ==> e.writer != h
  }

  ghost predicate PhaseOk(w: World) {
    match w.phase
    case Settled => true
    case Starting(waiting) =>
      && Distinct(waiting)
      && (forall h :: h in waiting ==> Names(w.published, h) && h < |w.records| && !w.records[h].started)
    case ShuttingDown(left, clean) =>
      && w.closed
      && (forall h :: h in left ==> Names(w.published, h))
      && (clean ==> forall h :: Names(w.published, h) ==> h in left || Retired(w, h))
    case Retiring(target, next, additions, pending) =>
      && WellNamed(w, next) && Serves(w, next, target)
      && (forall h :: h in additions ==> Names(next, h) && !Names(w.published, h))
      && (forall b :: b in next ==> (b in w.published && next[b] == w.published[b]) || next[b] in additions)
      && (forall h :: h in pending ==> Names(w.published, h) && !Names(next, h))
      && (forall h :: Names(w.published, h) && !Names(next, h) ==> h in pending || Retired(w, h))
      && Distinct(additions)
      && (forall h :: h in additions ==> h < |w.records| && !w.records[h].started)
  }

  /** While a selected stream is still the published one, everything read for it is its own. */
  ghost predicate ReadingOk(w: World) {
    && w.reading.seen.Keys == w.reading.selected.Keys
    && (forall b :: b in w.reading.selected ==> w.reading.selected[b] < |w.records|)
    && (w.phase.Retiring? ==> forall b :: b in w.reading.selected ==> w.reading.selected[b] !in w.phase.additions)
    && (forall b :: b in w.reading.selected && b in w.published && w.published[b] == w.reading.selected[b] ==>
          SeenFor(w, b))
  }

  ghost predicate SeenFor(w: World, b: string) {
    b in w.reading.selected && b in w.reading.seen && w.reading.selected[b] < |w.records|
    && SeenOk(w.reading.seen[b], w.reading.selected[b], b in w.reading.first,
              if b in w.reading.first then w.reading.first[b] else 0, w.records[w.reading.selected[b]].generation)
  }

  /** Everything seen was written by h, from the generation of the first find to the current one, and
      something of that first generation is among it. */
  ghost predicate SeenOk(seen: set<Entry>, h: Handle, found: bool, first: nat, now: nat) {
    && (found <==> seen != {})
    && (found ==> first <= now && exists e :: e in seen && e.generation == first)
    && (forall e :: e in seen ==> e.writer == h && first <= e.generation <= now)
  }

  ghost predicate Inv(w: World) {
    WellNamed(w, w.published) && Serves(w, w.published, w.goal)
    && Owned(w) && Accounted(w) && PhaseOk(w) && ReadingOk(w)
  }

  lemma {:induction false} FreshIs(base: nat, names: seq<string>)
    requires Distinct(names)
    ensures forall b :: b in Fresh(base, names) <==> b in names
    ensures forall i :: 0 <= i < |names| ==> names[i] in Fresh(base, names) && Fresh(base, names)[names[i]] == base + i
  {
    if names != [] {
      FreshIs(base, names[..|names| - 1]);
      assert names == names[..|names| - 1] + [names[|names| - 1]];
    }
  }

  ghost predicate SameGenerations(w: World, v: World) {
    |w.records| <= |v.records|
    && forall i :: 0 <= i < |w.records| ==> v.records[i].generation == w.records[i].generation
  }

  /** Records may grow and change flags; names keep meaning the same instances. */
  ghost predicate SameInstances(w: World, v: World) {
    && |w.records| <= |v.records|
    && forall i :: 0 <= i < |w.records| ==> v.records[i].instance == w.records[i].instance
                                            && (w.records[i].started ==> v.records[i].started)
  }

  lemma NamesKeep(w: World, v: World, m: map<string, Handle>)
    requires SameInstances(w, v) && WellNamed(w, m)
    ensures WellNamed(v, m)
  {
  }

  lemma OwnedKeep(w: World, v: World)
    requires SameInstances(w, v) && SameGenerations(w, v) && Owned(w)
             && v.index == w.index && v.published == w.published
    requires Serves(w, w.published, w.goal) && v.goal == w.goal
    ensures Owned(v) && Serves(v, v.published, v.goal)
  {
  }

  /** Generations only grow, so what a lookup has read stays well described. */
  lemma ReadingKeeps(w: World, v: World)
    requires ReadingOk(w) && v.reading == w.reading && |w.records| <= |v.records|
    requires forall i :: 0 <= i < |w.records| ==> w.records[i].generation <= v.records[i].generation
    requires forall b :: b in v.published && b in w.reading.selected && v.published[b] == w.reading.selected[b] ==>
               b in w.published && w.published[b] == v.published[b]
    requires v.phase.Retiring? ==> forall b :: b in v.reading.selected ==> v.reading.selected[b] !in v.phase.additions
    ensures ReadingOk(v)
  {
    forall b | b in v.reading.selected && b in v.published && v.published[b] == v.reading.selected[b]
      ensures SeenFor(v, b)
    {
      assert SeenFor(w, b)
             && w.records[w.reading.selected[b]].generation <= v.records[v.reading.selected[b]].generation;
    }
  }

  /** What the plan of a reconcile looks like, backend by backend. */
  lemma PlanShape(w: World, desired: map<string, Instance>, names: seq<string>, order: seq<Handle>, b: string)
    requires WellNamed(w, w.published) && w.phase.Settled? && !w.closed && IsPlan(w, desired, names, order)
    ensures var v := Next(w, BeginReconcile(desired, names, order));
            var next := v.phase.next;
            && (b in next <==> b in desired)
            && (b in next ==> next[b] < |v.records| && v.records[next[b]].instance == desired[b])
            && (b in next && KeepsStream(w, desired, b) ==> next[b] == w.published[b] < |w.records|)
            && (b in next && !KeepsStream(w, desired, b) ==> next[b] >= |w.records| && next[b] in v.phase.additions)
  {
    var v := Next(w, BeginReconcile(desired, names, order));
    FreshIs(|w.records|, names);
    if b in names {
      var i :| 0 <= i < |names| && names[i] == b;
      assert v.phase.additions[i] == v.phase.next[b] == |w.records| + i;
    }
  }

  lemma AdditionShape(w: World, desired: map<string, Instance>, names: seq<string>, order: seq<Handle>, h: Handle)
    requires WellNamed(w, w.published) && w.phase.Settled? && !w.closed && IsPlan(w, desired, names, order)
    requires h in Next(w, BeginReconcile(desired, names, order)).phase.additions
    ensures var v := Next(w, BeginReconcile(desired, names, order));
            Names(v.phase.next, h) && |w.records| <= h < |v.records| && !v.records[h].started
  {
    var v := Next(w, BeginReconcile(desired, names, order));
    FreshIs(|w.records|, names);
    var i :| 0 <= i < |names| && h == |w.records| + i;
    assert names[i] in v.phase.next && v.phase.next[names[i]] == h;
  }

  lemma PlanWellNamed(w: World, desired: map<string, Instance>, names: seq<string>, order: seq<Handle>)
    requires WellNamed(w, w.published) && w.phase.Settled? && !w.closed && IsPlan(w, desired, names, order)
    ensures var v := Next(w, BeginReconcile(desired, names, order));
            WellNamed(v, v.phase.next) && Serves(v, v.phase.next, desired)
  {
    var v := Next(w, BeginReconcile(desired, names, order));
    forall b | b in v.phase.next
      ensures b in desired && v.phase.next[b] < |v.records| && v.records[v.phase.next[b]].instance == desired[b]
    {
      PlanShape(w, desired, names, order, b);
    }
    forall b | b in desired ensures b in v.phase.next { PlanShape(w, desired, names, order, b); }
  }

  lemma PlanRetires(w: World, desired: map<string, Instance>, names: seq<string>, order: seq<Handle>, h: Handle)
    requires WellNamed(w, w.published) && w.phase.Settled? && !w.closed && IsPlan(w, desired, names, order)
    ensures var next := Next(w, BeginReconcile(desired, names, order)).phase.next;
            h in order <==> Names(w.published, h) && !Names(next, h)
  {
    var next := Next(w, BeginReconcile(desired, names, order)).phase.next;
    if Names(w.published, h) {
      var b :| b in w.published && w.published[b] == h;
      PlanShape(w, desired, names, order, b);
      if Names(next, h) {
        var d :| d in next && next[d] == h;
        PlanShape(w, desired, names, order, d);
        assert KeepsStream(w, desired, d) && d == b;
        assert forall c :: c in w.published && w.published[c] == h ==> c == b;
      }
    }
  }

  lemma PlanPhaseOk(w: World, desired: map<string, Instance>, names: seq<string>, order: seq<Handle>)
    requires WellNamed(w, w.published) && w.phase.Settled? && !w.closed && IsPlan(w, desired, names, order)
    ensures PhaseOk(Next(w, BeginReconcile(desired, names, order)))
  {
    var v := Next(w, BeginReconcile(desired, names, order));
    var next, additions := v.phase.next, v.phase.additions;
    PlanWellNamed(w, desired, names, order);
    PlanAdds(w, desired, names, order);
    forall h ensures h in order <==> Names(w.published, h) && !Names(next, h) {
      PlanRetires(w, desired, names, order, h);
    }
  }

  lemma PlanAdds(w: World, desired: map<string, Instance>, names: seq<string>, order: seq<Handle>)
    requires WellNamed(w, w.published) && w.phase.Settled? && !w.closed && IsPlan(w, desired, names, order)
    ensures var v := Next(w, BeginReconcile(desired, names, order));
            var next, additions := v.phase.next, v.phase.additions;
            && Distinct(additions)
            && (forall h :: h in additions ==>
                  Names(next, h) && h < |v.records| && !v.records[h].started && !Names(w.published, h))
            && (forall b :: b in next ==> (b in w.published && next[b] == w.published[b]) || next[b] in additions)
  {
    var v := Next(w, BeginReconcile(desired, names, order));
    var next, additions := v.phase.next, v.phase.additions;
    forall h | h in additions
      ensures Names(next, h) && h < |v.records| && !v.records[h].started && !Names(w.published, h)
    {
      AdditionShape(w, desired, names, order, h);
    }
    forall b | b in next ensures (b in w.published && next[b] == w.published[b]) || next[b] in additions {
      PlanShape(w, desired, names, order, b);
    }
  }

  lemma PlanGrows(w: World, desired: map<string, Instance>, names: seq<string>, order: seq<Handle>)
    requires w.phase.Settled? && !w.closed && IsPlan(w, desired, names, order)
    ensures var v, created := Next(w, BeginReconcile(desired, names, order)), NewRecords(desired, names);
            && v == w.(records := w.records + created, phase := v.phase) && v.phase.Retiring?
            && (forall i :: 0 <= i < |created| ==> !created[i].started)
            && (forall h :: h in v.phase.additions ==> h >= |w.records|)
  {
  }

  /** New records are not started, so they owe nothing yet. */
  lemma CreationKeeps(w: World, v: World, created: seq<Record>)
    requires Inv(w) && PhaseOk(v) && v == w.(records := w.records + created, phase := v.phase) && v.phase.Retiring?
    requires forall i :: 0 <= i < |created| ==> !created[i].started
    requires forall h :: h in v.phase.additions ==> h >= |w.records|
    ensures Inv(v)
  {
    NamesKeep(w, v, w.published);
    OwnedKeep(w, v);
    ReadingKeeps(w, v);
    assert Accounted(v);
  }

  lemma PlanKeepsInv(w: World, desired: map<string, Instance>, names: seq<string>, order: seq<Handle>)
    requires Inv(w) && w.phase.Settled? && !w.closed && IsPlan(w, desired, names, order)
    ensures Inv(Next(w, BeginReconcile(desired, names, order)))
  {
    PlanPhaseOk(w, desired, names, order);
    PlanGrows(w, desired, names, order);
    CreationKeeps(w, Next(w, BeginReconcile(desired, names, order)), NewRecords(desired, names));
  }

  /** Closing a stream or seeing its threads exit keeps every name, Pod and entry. */
  lemma FlagsKeepInv(w: World, h: Handle, r: Record)
    requires Inv(w) && h < |w.records| && r.instance == w.records[h].instance && r.started == w.records[h].started
    requires r.generation == w.records[h].generation
    requires w.records[h].closed ==> r.closed
    requires w.records[h].exited ==> r.exited
    ensures Inv(w.(records := w.records[h := r]))
  {
    var v := w.(records := w.records[h := r]);
    NamesKeep(w, v, w.published);
    OwnedKeep(w, v);
    assert forall g :: 0 <= g < |w.records| ==> v.records[g].started == w.records[g].started;
    forall g: Handle | Retired(w, g) ensures Retired(v, g) {
      assert v.records[g] == if g == h then r else w.records[g];
    }
    FlagsKeepPhase(w, v);
    ReadingKeeps(w, v);
    assert Accounted(v);
  }

  lemma FlagsKeepPhase(w: World, v: World)
    requires PhaseOk(w) && v == w.(records := v.records) && |v.records| == |w.records| && SameInstances(w, v)
    requires forall g :: 0 <= g < |w.records| ==> v.records[g].started == w.records[g].started
    requires forall g :: Retired(w, g) ==> Retired(v, g)
    ensures PhaseOk(v)
  {
    if w.phase.Retiring? { NamesKeep(w, v, w.phase.next); }
  }

  lemma StartedIsAccounted(w: World, v: World, h: Handle)
    requires Accounted(w) && Names(w.published, h) && v.published == w.published
    requires h < |w.records| && v.records == w.records[h := w.records[h].(started := true)]
    ensures Accounted(v)
  {
    forall g | 0 <= g < |v.records| && v.records[g].started
      ensures Names(v.published, g) || (v.records[g].closed && v.records[g].exited)
    {
      if g != h { assert v.records[g] == w.records[g]; }
    }
  }

  lemma StartFirstKeepsInv(w: World, h: Handle, rest: seq<Handle>)
    requires Inv(w) && w.phase == Starting([h] + rest) && h < |w.records|
    ensures Inv(w.(records := w.records[h := w.records[h].(started := true)], phase := Starting(rest)))
  {
    var v := w.(records := w.records[h := w.records[h].(started := true)], phase := Starting(rest));
    NamesKeep(w, v, w.published);
    OwnedKeep(w, v);
    StartedIsAccounted(w, v, h);
    RestStillWaits(w, v, h, rest);
    ReadingKeeps(w, v);
  }

  lemma RestStillWaits(w: World, v: World, h: Handle, rest: seq<Handle>)
    requires PhaseOk(w) && w.phase == Starting([h] + rest) && h < |w.records|
    requires v == w.(records := w.records[h := w.records[h].(started := true)], phase := Starting(rest))
    ensures PhaseOk(v)
  {
    var waiting := w.phase.waiting;
    forall i | 0 <= i < |rest| ensures rest[i] == waiting[i + 1] && rest[i] != h {
      assert waiting[0] != waiting[i + 1];
    }
    forall i, j | 0 <= i < j < |rest| ensures rest[i] != rest[j] {
      assert waiting[i + 1] != waiting[j + 1];
    }
    assert forall g :: g in rest ==> g in waiting;
  }

  lemma StartKeepsInv(w: World)
    requires Inv(w)
    ensures Inv(Next(w, StartHead))
  {
    if w.phase.Starting? {
      if w.phase.waiting == [] || w.phase.waiting[0] >= |w.records| {
        SettleKeepsInv(w, w.(phase := Settled));
      } else {
        assert w.phase.waiting == [w.phase.waiting[0]] + w.phase.waiting[1..];
        StartFirstKeepsInv(w, w.phase.waiting[0], w.phase.waiting[1..]);
      }
    }
  }

  /** Fewer entries, a shorter queue: nothing that held is lost. */
  lemma ShrinkKeeps(w: World, v: World)
    requires Inv(w) && v == w.(index := v.index, phase := v.phase) && v.index <= w.index
    requires v.phase.Retiring? ==> w.phase.Retiring? && v.phase.additions == w.phase.additions
    ensures WellNamed(v, v.published) && Serves(v, v.published, v.goal) && Owned(v) && Accounted(v) && ReadingOk(v)
    ensures forall g :: Retired(w, g) ==> Retired(v, g)
  {
    NamesKeep(w, v, w.published);
    ReadingKeeps(w, v);
    forall g | Retired(w, g) ensures Retired(v, g) {}
  }

  lemma RetireKeepsPhase(w: World, v: World, h: Handle)
    requires PhaseOk(w) && w.phase.Retiring? && v.phase.Retiring? && w.phase.pending == [h] + v.phase.pending
    requires v == w.(index := v.index, phase := w.phase.(pending := v.phase.pending))
    requires Retired(v, h) && forall g :: Retired(w, g) ==> Retired(v, g)
    ensures PhaseOk(v)
  {
    NamesKeep(w, v, w.phase.next);
    assert forall g :: g in w.phase.pending <==> g == h || g in v.phase.pending;
  }

  lemma ShutKeepsPhase(w: World, v: World, h: Handle)
    requires PhaseOk(w) && w.phase.ShuttingDown? && v.phase.ShuttingDown? && w.phase.left == [h] + v.phase.left
    requires v == w.(index := v.index, phase := v.phase)
    requires v.phase.clean ==> w.phase.clean && Retired(v, h)
    requires forall g :: Retired(w, g) ==> Retired(v, g)
    ensures PhaseOk(v)
  {
    assert forall g :: g in w.phase.left <==> g == h || g in v.phase.left;
  }

  lemma ClearKeepsInv(w: World, ok: bool, dropped: set<Entry>)
    requires Inv(w)
    ensures Inv(Next(w, ClearHead(ok, dropped)))
  {
    var v := Next(w, ClearHead(ok, dropped));
    if v != w {
      var h := Head(w.phase)[0];
      assert Head(w.phase) == [h] + Head(w.phase)[1..];
      ShrinkKeeps(w, v);
      if ok { ClearedIsRetired(w, v, h); }
      if w.phase.ShuttingDown? {
        ShutKeepsPhase(w, v, h);
      } else if ok {
        RetireKeepsPhase(w, v, h);
      }
    }
  }

  lemma ClearedIsRetired(w: World, v: World, h: Handle)
    requires Owned(w) && h < |w.records| && Stopped(w.records[h])
    requires v.records == w.records && v.index == WithoutPod(w.index, w.records[h].instance.pod)
    ensures Retired(v, h)
  {
  }

  lemma PublishKeepsInv(w: World)
    requires Inv(w)
    ensures Inv(Next(w, Publish))
  {
    var v := Next(w, Publish);
    if v != w {
      forall h | Names(w.published, h) && !Names(v.published, h) ensures Retired(w, h) {}
      NamesKeep(w, v, w.phase.next);
      PublishKeepsReading(w);
      assert Owned(v) && Accounted(v) && PhaseOk(v);
    }
  }

  lemma PublishKeepsReading(w: World)
    requires ReadingOk(w) && PhaseOk(w) && w.phase.Retiring? && w.phase.pending == []
    ensures ReadingOk(Next(w, Publish))
  {
    var v := Next(w, Publish);
    forall b | b in w.reading.selected && b in v.published && v.published[b] == w.reading.selected[b]
      ensures b in w.published && w.published[b] == w.reading.selected[b] {}
    ReadingKeeps(w, v);
  }

  lemma EditKeepsInv(w: World, h: Handle, added: set<nat>, removed: set<nat>)
    requires Inv(w)
    ensures Inv(Next(w, Edit(h, added, removed)))
  {
    var v := Next(w, Edit(h, added, removed));
    if Running(w, h) {
      NamesKeep(w, v, w.published);
      EditKeepsOwned(w, h, added, removed);
      forall g | Retired(w, g) ensures Retired(v, g) {}
      if w.phase.Retiring? { NamesKeep(w, v, w.phase.next); }
      ReadingKeeps(w, v);
      assert Accounted(v) && PhaseOk(v);
    }
  }

  lemma EditKeepsOwned(w: World, h: Handle, added: set<nat>, removed: set<nat>)
    requires Owned(w) && Accounted(w) && Running(w, h)
    ensures Owned(Next(w, Edit(h, added, removed)))
  {
    assert Names(w.published, h);
  }

  lemma ResetKeepsInv(w: World, h: Handle)
    requires Inv(w) && Running(w, h)
    ensures Inv(Next(w, Reset(h)))
  {
    var v := Next(w, Reset(h));
    NamesKeep(w, v, w.published);
    ResetKeepsOwned(w, h);
    ResetKeepsFlags(w, v, h);
    FlagsKeepPhase(w.(index := v.index), v);
    ReadingKeeps(w, v);
  }

  lemma ResetKeepsFlags(w: World, v: World, h: Handle)
    requires Inv(w) && Running(w, h) && v == Next(w, Reset(h))
    ensures Accounted(v) && SameInstances(w, v) && PhaseOk(w.(index := v.index))
    ensures forall g :: 0 <= g < |w.records| ==> v.records[g].started == w.records[g].started
    ensures forall g :: Retired(w.(index := v.index), g) ==> Retired(v, g)
  {
    ShrinkIndexKeepsPhase(w, w.(index := v.index));
    forall g: Handle | Retired(w.(index := v.index), g) ensures Retired(v, g) {
      assert Stopped(v.records[g]) == Stopped(w.records[g]);
    }
  }

  lemma ShrinkIndexKeepsPhase(w: World, v: World)
    requires PhaseOk(w) && v == w.(index := v.index) && v.index <= w.index
    ensures PhaseOk(v)
  {
    forall g | Retired(w, g) ensures Retired(v, g) {}
    if w.phase.Retiring? { NamesKeep(w, v, w.phase.next); }
  }

  lemma ResetKeepsOwned(w: World, h: Handle)
    requires Owned(w) && Running(w, h) && Serves(w, w.published, w.goal)
    ensures var v := Next(w, Reset(h)); Owned(v) && Serves(v, v.published, v.goal)
  {
    var v := Next(w, Reset(h));
    forall e | e in v.index ensures e.writer != h && e in w.index {}
  }

  lemma ReadSeesOwn(w: World, b: string, n: nat)
    requires WellNamed(w, w.published) && Owned(w) && ReadingOk(w)
    ensures ReadingOk(Next(w, LookupRead(b, n)))
  {
    var v := Next(w, LookupRead(b, n));
    forall d | d in w.reading.selected && d in w.published && w.published[d] == w.reading.selected[d]
      ensures SeenFor(v, d)
    {
      assert SeenFor(w, d);
      if d == b { ReadOneSeesOwn(w, b, n); }
    }
  }

  lemma ReadOneSeesOwn(w: World, b: string, n: nat)
    requires WellNamed(w, w.published) && Owned(w) && b in w.published
             && SeenFor(w, b) && w.published[b] == w.reading.selected[b]
    ensures SeenFor(Next(w, LookupRead(b, n)), b)
  {
    var h := w.published[b];
    var found := set e | e in w.index && e.pod == w.records[h].instance.pod && e.block == n;
    forall e | e in found ensures e.writer == h && e.generation == w.records[h].generation {
      OwnedByPublished(w, b, e);
    }
    FindKeepsSeen(w.reading.seen[b], found, h, b in w.reading.first,
                  if b in w.reading.first then w.reading.first[b] else 0, w.records[h].generation);
  }

  lemma FindKeepsSeen(seen: set<Entry>, found: set<Entry>, h: Handle, before: bool, first: nat, now: nat)
    requires SeenOk(seen, h, before, first, now)
    requires forall e :: e in found ==> e.writer == h && e.generation == now
    ensures SeenOk(seen + found, h, before || found != {}, if !before && found != {} then now else first, now)
  {
    if before {
      var e :| e in seen && e.generation == first;
      assert e in seen + found;
    } else if found != {} {
      var e :| e in found;
      assert e in seen + found && seen == {};
    }
  }

  lemma ReadKeepsInv(w: World, b: string, n: nat)
    requires Inv(w)
    ensures Inv(Next(w, LookupRead(b, n)))
  {
    ReadSeesOwn(w, b, n);
    var reading := Next(w, LookupRead(b, n)).reading;
    var v := w.(reading := reading);
    NamesKeep(w, v, w.published);
    OwnedKeep(w, v);
    PhaseKeeps(w, v);
    assert Accounted(v);
    assert v == Next(w, LookupRead(b, n));
  }

  /** The phase's claims do not depend on the lookup in progress. */
  lemma PhaseKeeps(w: World, v: World)
    requires PhaseOk(w) && v == w.(reading := v.reading)
    ensures PhaseOk(v)
  {
    forall h | Retired(w, h) ensures Retired(v, h) {}
    if w.phase.Retiring? { NamesKeep(w, v, w.phase.next); }
  }

  lemma OwnedByPublished(w: World, b: string, e: Entry)
    requires WellNamed(w, w.published) && Owned(w) && b in w.published
    requires e in w.index && e.pod == w.records[w.published[b]].instance.pod
    ensures e.writer == w.published[b]
  {
    var d :| d in w.published && w.published[d] == e.writer;
  }

  lemma BeginKeepsInv(w: World, backends: set<string>)
    requires Inv(w)
    ensures Inv(Next(w, LookupBegin(backends)))
  {
    var v := Next(w, LookupBegin(backends));
    NamesKeep(w, v, w.published);
    OwnedKeep(w, v);
    PhaseKeeps(w, v);
    BeginReading(w, backends);
  }

  lemma BeginReading(w: World, backends: set<string>)
    requires WellNamed(w, w.published) && PhaseOk(w)
    ensures ReadingOk(Next(w, LookupBegin(backends)))
  {
    var r := Next(w, LookupBegin(backends)).reading;
    var v := w.(reading := r);
    forall b | b in r.selected ensures SeenFor(v, b) {}
    if w.phase.Retiring? {
      forall b | b in r.selected ensures r.selected[b] !in w.phase.additions {
        assert Names(w.published, r.selected[b]);
      }
    }
  }

  lemma ShutdownKeepsInv(w: World, all: seq<Handle>)
    requires Inv(w)
    ensures Inv(Next(w, BeginClose(all)))
  {
    var v := Next(w, BeginClose(all));
    if v.phase.ShuttingDown? && w.phase.Settled? {
      NamesKeep(w, v, w.published);
      OwnedKeep(w, v);
      forall h ensures Names(w.published, h) <==> h in w.published.Values {}
      ReadingKeeps(w, v);
      assert Accounted(v) && PhaseOk(v);
    }
  }

  lemma SettleKeepsInv(w: World, v: World)
    requires Inv(w) && v == w.(phase := Settled)
    ensures Inv(v)
  {
    NamesKeep(w, v, w.published);
    OwnedKeep(w, v);
    ReadingKeeps(w, v);
    assert Accounted(v) && PhaseOk(v);
  }

  lemma NextKeepsInv(w: World, op: Op)
    requires Inv(w)
    ensures Inv(Next(w, op))
  {
    match op
    case BeginReconcile(desired, names, order) =>
      if Next(w, op) != w { PlanKeepsInv(w, desired, names, order); }
    case BeginClose(all) => ShutdownKeepsInv(w, all);
    case MarkHeadClosed =>
      if Next(w, op) != w { var h := Head(w.phase)[0]; FlagsKeepInv(w, h, w.records[h].(closed := true)); }
    case ThreadsExit(h) =>
      if Next(w, op) != w { FlagsKeepInv(w, h, w.records[h].(exited := true)); }
    case ClearHead(ok, dropped) => ClearKeepsInv(w, ok, dropped);
    case Publish => PublishKeepsInv(w);
    case StartHead => StartKeepsInv(w);
    case CloseReturns => SettleKeepsInv(w, w.(phase := Settled));
    case Edit(h, added, removed) => EditKeepsInv(w, h, added, removed);
    case Reset(h) => if Running(w, h) { ResetKeepsInv(w, h); }
    case Confirm(h) => if Running(w, h) { FlagsKeepInv(w, h, w.records[h].(valid := true)); }
    case Lapse(h) => if h < |w.records| { FlagsKeepInv(w, h, w.records[h].(valid := false)); }
    case LookupBegin(backends) => BeginKeepsInv(w, backends);
    case LookupRead(b, n) => ReadKeepsInv(w, b, n);
  }

  lemma {:induction false} RunKeepsInv(w: World, ops: seq<Op>)
    requires Inv(w)
    ensures Inv(Run(w, ops))
    decreases |ops|
  {
    if ops != [] {
      NextKeepsInv(w, ops[0]);
      RunKeepsInv(Next(w, ops[0]), ops[1..]);
    }
  }

  // ---------------------------------------------------------------- which streams run

  /** Published streams have been started, or wait for it; what is about to be published is open. */
  ghost predicate Ready(w: World) {
    && (forall b :: b in w.published && w.published[b] < |w.records| ==>
          w.records[w.published[b]].started || (w.phase.Starting? && w.published[b] in w.phase.waiting))
    && (w.phase.Retiring? ==>
          forall b :: b in w.phase.next && w.phase.next[b] < |w.records| ==> !w.records[w.phase.next[b]].closed)
  }

  lemma PlanIsReady(w: World, desired: map<string, Instance>, names: seq<string>, order: seq<Handle>)
    requires WellNamed(w, w.published) && Ready(w)
    requires w.phase.Settled? && !w.closed && IsPlan(w, desired, names, order)
    ensures Ready(Next(w, BeginReconcile(desired, names, order)))
  {
    var v := Next(w, BeginReconcile(desired, names, order));
    PlanGrows(w, desired, names, order);
    forall b | b in v.phase.next && v.phase.next[b] < |v.records| ensures !v.records[v.phase.next[b]].closed {
      PlanShape(w, desired, names, order, b);
    }
  }

  lemma PublishIsReady(w: World)
    requires Inv(w) && Ready(w) && w.phase.Retiring? && w.phase.pending == []
    ensures Ready(Next(w, Publish))
  {
  }

  lemma StartIsReady(w: World)
    requires PhaseOk(w) && Ready(w) && w.phase.Starting?
    ensures Ready(Next(w, StartHead))
  {
    var v, waiting := Next(w, StartHead), w.phase.waiting;
    if waiting != [] {
      assert waiting[0] in waiting;
      forall b | b in w.published && w.published[b] < |w.records|
        ensures v.records[w.published[b]].started || w.published[b] in v.phase.waiting
      {
        if w.published[b] in waiting { HeadOrRest(waiting, w.published[b]); }
      }
    }
  }

  lemma HeadOrRest(s: seq<Handle>, h: Handle)
    requires h in s
    ensures h == s[0] || h in s[1..]
  {
    assert s == [s[0]] + s[1..];
  }

  /** Streams may start and change other flags, but none of the next ones closes. */
  lemma ReadyKeeps(w: World, v: World)
    requires Ready(w) && WellNamed(w, w.published) && v.published == w.published && |w.records| <= |v.records|
    requires forall i :: 0 <= i < |w.records| && w.records[i].started ==> v.records[i].started
    requires v.phase.Starting? == w.phase.Starting? && (w.phase.Starting? ==> v.phase == w.phase)
    requires v.phase.Retiring? ==> w.phase.Retiring? && v.phase.next == w.phase.next && |v.records| == |w.records|
    requires v.phase.Retiring? ==>
               forall b :: b in w.phase.next && w.phase.next[b] < |w.records| && !w.records[w.phase.next[b]].closed ==>
                 !v.records[w.phase.next[b]].closed
    ensures Ready(v)
  {
  }

  lemma HeadIsNotNext(w: World, b: string)
    requires PhaseOk(w) && w.phase.Retiring? && w.phase.pending != [] && b in w.phase.next
    ensures w.phase.next[b] != w.phase.pending[0]
  {
    assert w.phase.pending[0] in w.phase.pending && !Names(w.phase.next, w.phase.pending[0]);
  }

  lemma CloseHeadIsReady(w: World)
    requires PhaseOk(w) && WellNamed(w, w.published) && Ready(w)
    ensures Ready(Next(w, MarkHeadClosed))
  {
    if Head(w.phase) != [] && Head(w.phase)[0] < |w.records| {
      var h := Head(w.phase)[0];
      var v := w.(records := w.records[h := w.records[h].(closed := true)]);
      if w.phase.Retiring? {
        forall b | b in w.phase.next ensures w.phase.next[b] != h { HeadIsNotNext(w, b); }
      }
      ReadyKeeps(w, v);
    }
  }

  /** One record changes, but neither its start nor its closing. */
  lemma RecordStepIsReady(w: World, v: World, h: Handle)
    requires WellNamed(w, w.published) && Ready(w) && h < |w.records| && |v.records| == |w.records|
    requires v.published == w.published && v.phase == w.phase
    requires forall i :: 0 <= i < |w.records| && i != h ==> v.records[i] == w.records[i]
    requires v.records[h].started == w.records[h].started && v.records[h].closed == w.records[h].closed
    ensures Ready(v)
  {
    ReadyKeeps(w, v);
  }

  lemma FlagStepIsReady(w: World, op: Op)
    requires WellNamed(w, w.published) && Ready(w) && (op.ThreadsExit? || op.Reset? || op.Confirm? || op.Lapse?)
    ensures Ready(Next(w, op))
  {
    var h := match op case ThreadsExit(h) => h case Reset(h) => h case Confirm(h) => h case Lapse(h) => h;
    if h < |w.records| { RecordStepIsReady(w, Next(w, op), h); }
  }

  lemma StreamStepIsReady(w: World, op: Op)
    requires WellNamed(w, w.published) && Ready(w) && (op.Edit? || op.LookupBegin? || op.LookupRead?)
    ensures Ready(Next(w, op))
  {
    assert Next(w, op).records == w.records && Next(w, op).phase == w.phase && Next(w, op).published == w.published;
  }

  lemma OwnerStepIsReady(w: World, op: Op)
    requires WellNamed(w, w.published) && Ready(w) && (op.BeginClose? || op.ClearHead? || op.CloseReturns?)
    ensures Ready(Next(w, op))
  {
    ReadyKeeps(w, Next(w, op));
  }

  lemma NextKeepsReady(w: World, op: Op)
    requires Inv(w) && Ready(w)
    ensures Ready(Next(w, op))
  {
    match op
    case BeginReconcile(desired, names, order) =>
      if w.phase.Settled? && !w.closed && IsPlan(w, desired, names, order) { PlanIsReady(w, desired, names, order); }
    case Publish => if w.phase.Retiring? && w.phase.pending == [] { PublishIsReady(w); }
    case StartHead => if w.phase.Starting? { StartIsReady(w); }
    case MarkHeadClosed => CloseHeadIsReady(w);
    case BeginClose(_) => OwnerStepIsReady(w, op);
    case ClearHead(_, _) => OwnerStepIsReady(w, op);
    case CloseReturns => OwnerStepIsReady(w, op);
    case Edit(_, _, _) => StreamStepIsReady(w, op);
    case LookupBegin(_) => StreamStepIsReady(w, op);
    case LookupRead(_, _) => StreamStepIsReady(w, op);
    case _ => FlagStepIsReady(w, op);
  }

  lemma {:induction false} RunKeepsReady(w: World, ops: seq<Op>)
    requires Inv(w) && Ready(w)
    ensures Ready(Run(w, ops))
    decreases |ops|
  {
    if ops != [] {
      NextKeepsInv(w, ops[0]);
      NextKeepsReady(w, ops[0]);
      RunKeepsReady(Next(w, ops[0]), ops[1..]);
    }
  }

  lemma NextKeepsClosed(w: World, h: Handle, op: Op)
    requires h < |w.records| && w.records[h].closed
    ensures h < |Next(w, op).records| && Next(w, op).records[h].closed
  {
  }

  /** A stream that was closed, by a finished or an aborted Reconcile or by Close, is never answered as
      usable again: in no later state does either check of a lookup accept it. */
  lemma {:induction false} ClosedIsNeverUsable(w: World, h: Handle, ops: seq<Op>, b: string, timely: Handle -> bool)
    requires h < |w.records| && w.records[h].closed
    ensures var v := Run(w, ops);
            && h < |v.records| && v.records[h].closed
            && SecondCheck(v.records, v.published, timely, b, h) != Usable(h)
            && !(b in Next(v, LookupBegin({b})).reading.selected
                 && Next(v, LookupBegin({b})).reading.selected[b] == h)
    decreases |ops|
  {
    if ops != [] {
      NextKeepsClosed(w, h, ops[0]);
      ClosedIsNeverUsable(Next(w, ops[0]), h, ops[1..], b, timely);
    }
  }

  // ---------------------------------------------------------------- what every run promises

  /** At most one started and unclosed stream per Pod identifier, whatever was aborted or retried. */
  lemma OneLiveStreamPerPod(ops: seq<Op>, g: Handle, h: Handle)
    requires var w := Run(NEW_WORLD, ops);
             && g < |w.records| && h < |w.records| && g != h
             && w.records[g].started && !w.records[g].closed && w.records[h].started && !w.records[h].closed
    ensures var w := Run(NEW_WORLD, ops); w.records[g].instance.pod != w.records[h].instance.pod
  {
    RunKeepsInv(NEW_WORLD, ops);
    var w := Run(NEW_WORLD, ops);
    var b :| b in w.published && w.published[b] == g;
    var d :| d in w.published && w.published[d] == h;
  }

  /** The index never holds locality for a Pod outside the last successfully reconciled set,
      and what it holds for a Pod was written by that Pod's published stream. */
  lemma IndexStaysWithinGoal(ops: seq<Op>, e: Entry)
    requires e in Run(NEW_WORLD, ops).index
    ensures var w := Run(NEW_WORLD, ops);
            exists b :: b in w.goal && b in w.published && w.goal[b].pod == e.pod && w.published[b] == e.writer
  {
    RunKeepsInv(NEW_WORLD, ops);
    var w := Run(NEW_WORLD, ops);
    var b :| b in w.published && w.published[b] == e.writer;
  }

  /** A stream always starts on an empty part of the index: nothing is stored for its Pod. */
  lemma NewStreamStartsEmpty(ops: seq<Op>, e: Entry)
    requires var w := Run(NEW_WORLD, ops); w.phase.Starting? && w.phase.waiting != [] && e in w.index
    ensures var w := Run(NEW_WORLD, ops);
            var h := w.phase.waiting[0];
            h < |w.records| && !w.records[h].started && e.pod != w.records[h].instance.pod
  {
    RunKeepsInv(NEW_WORLD, ops);
    var w := Run(NEW_WORLD, ops);
    var h := w.phase.waiting[0];
    assert h in w.phase.waiting;
    var b :| b in w.published && w.published[b] == h;
    if e.pod == w.records[h].instance.pod { OwnedByPublished(w, b, e); }
  }

  lemma GoalCoversIndex(w: World)
    requires Inv(w)
    ensures forall e :: e in w.index ==> exists b :: b in w.goal && w.goal[b].pod == e.pod
  {
    forall e | e in w.index ensures exists b :: b in w.goal && w.goal[b].pod == e.pod {
      var b :| b in w.published && w.published[b] == e.writer;
      assert b in w.goal;
    }
  }

  /** The lookup's second check: the stream fixed at the start is still published and its snapshot valid. */
  predicate MatchStillCurrent(w: World, b: string) {
    && b in w.reading.selected && b in w.published && w.published[b] == w.reading.selected[b]
    && w.published[b] < |w.records| && SnapshotOk(w.records[w.published[b]])
  }

  /** With Reconcile, Close and every stream's threads interleaved anywhere, a Valid match only
      carries blocks that the selected stream itself wrote for its own Pod. */
  lemma ValidMatchIsOwn(ops: seq<Op>, b: string, e: Entry)
    requires var w := Run(NEW_WORLD, ops); MatchStillCurrent(w, b) && b in w.reading.seen && e in w.reading.seen[b]
    ensures var w := Run(NEW_WORLD, ops);
            && b in w.goal && e.writer == w.published[b] && w.records[e.writer].instance == w.goal[b]
            && !w.records[e.writer].closed && w.records[e.writer].valid
  {
    RunKeepsInv(NEW_WORLD, ops);
  }

  /** A lookup starts with the published streams of the queried backends that are open and valid. */
  lemma LookupSelects(w: World, backends: set<string>, b: string)
    ensures b in Next(w, LookupBegin(backends)).reading.selected <==>
            b in backends && b in w.published && w.published[b] < |w.records|
            && !w.records[w.published[b]].closed && w.records[w.published[b]].valid
  {
  }

  /** The steps of one lookup's time in which the stream is not reset. */
  ghost predicate NoReset(w: World, h: Handle, ops: seq<Op>)
    decreases |ops|
  {
    ops == [] || (!(ops[0] == Reset(h) && Running(w, h)) && NoReset(Next(w, ops[0]), h, ops[1..]))
  }

  ghost predicate SameLookup(ops: seq<Op>) { forall i :: 0 <= i < |ops| ==> !ops[i].LookupBegin? }

  lemma NextGeneration(w: World, h: Handle, op: Op)
    requires h < |w.records|
    ensures h < |Next(w, op).records|
    ensures Next(w, op).records[h].generation
         == w.records[h].generation + if op == Reset(h) && Running(w, h) then 1 else 0
  {
  }

  lemma NextFirst(w: World, b: string, op: Op)
    requires !op.LookupBegin? && b in w.reading.first
    ensures var r := Next(w, op).reading;
            r.selected == w.reading.selected && b in r.first && r.first[b] == w.reading.first[b]
  {
  }

  lemma {:induction false} GenerationStandsIff(w: World, h: Handle, b: string, ops: seq<Op>)
    requires h < |w.records| && SameLookup(ops) && b in w.reading.first
    ensures var v := Run(w, ops);
            && h < |v.records| && v.records[h].generation >= w.records[h].generation
            && (v.records[h].generation == w.records[h].generation <==> NoReset(w, h, ops))
            && v.reading.selected == w.reading.selected
            && b in v.reading.first && v.reading.first[b] == w.reading.first[b]
    decreases |ops|
  {
    if ops != [] {
      NextGeneration(w, h, ops[0]);
      NextFirst(w, b, ops[0]);
      GenerationStandsIff(Next(w, ops[0]), h, b, ops[1..]);
    }
  }

  /** Of one engine generation: `past` leads to the lookup's first read that finds blocks of b, `later`
      to its second check. A match that passes it carries only blocks of the stream's current generation
      if and only if the stream was not reset in between. */
  lemma MatchIsCurrentIffNoReset(past: seq<Op>, b: string, n: nat, later: seq<Op>)
    requires var u := Run(NEW_WORLD, past);
             var w := Next(u, LookupRead(b, n));
             && b in w.reading.selected && b !in u.reading.first && b in w.reading.first
             && SameLookup(later) && MatchStillCurrent(Run(w, later), b)
    ensures var w := Next(Run(NEW_WORLD, past), LookupRead(b, n));
            var v := Run(w, later);
            var h := w.reading.selected[b];
            AllCurrent(v, b, h) <==> NoReset(w, h, later)
  {
    var u := Run(NEW_WORLD, past);
    var w := Next(u, LookupRead(b, n));
    var h := w.reading.selected[b];
    assert Inv(Run(w, later)) by {
      RunKeepsInv(NEW_WORLD, past);
      NextKeepsInv(u, LookupRead(b, n));
      RunKeepsInv(w, later);
    }
    FirstFind(u, b, n);
    GenerationStandsIff(w, h, b, later);
    SeenDecides(Run(w, later), b);
  }

  lemma {:induction false} ValidNeedsConfirm(w: World, h: Handle, ops: seq<Op>)
    requires h < |w.records| && !w.records[h].valid && h < |Run(w, ops).records| && Run(w, ops).records[h].valid
    ensures Confirm(h) in ops
    decreases |ops|
  {
    if ops != [] && ops[0] != Confirm(h) {
      NextGeneration(w, h, ops[0]);
      NextStaysInvalid(w, h, ops[0]);
      ValidNeedsConfirm(Next(w, ops[0]), h, ops[1..]);
    }
  }

  lemma NextStaysInvalid(w: World, h: Handle, op: Op)
    requires h < |w.records| && !w.records[h].valid && op != Confirm(h)
    ensures h < |Next(w, op).records| && !Next(w, op).records[h].valid
  {
  }

  /** A stream made during a run is only valid at its end if it has reached a replay END of its own. */
  lemma {:induction false} FreshNeedsReplayEnd(w: World, h: Handle, ops: seq<Op>)
    requires h >= |w.records| && h < |Run(w, ops).records| && Run(w, ops).records[h].valid
    ensures Confirm(h) in ops
    decreases |ops|
  {
    var v := Next(w, ops[0]);
    if h >= |v.records| {
      FreshNeedsReplayEnd(v, h, ops[1..]);
    } else {
      NewIsInvalid(w, h, ops[0]);
      ValidNeedsConfirm(v, h, ops[1..]);
    }
  }

  lemma NewIsInvalid(w: World, h: Handle, op: Op)
    requires |w.records| <= h < |Next(w, op).records|
    ensures !Next(w, op).records[h].valid
  {
  }

  /** A stream that lost its validity to a gap, a fault or age is only valid again after a replay END. */
  lemma LapsedNeedsReplayEnd(w: World, h: Handle, ops: seq<Op>)
    requires h < |w.records|
    requires var v := Run(Next(w, Lapse(h)), ops); h < |v.records| && v.records[h].valid
    ensures Confirm(h) in ops
  {
    ValidNeedsConfirm(Next(w, Lapse(h)), h, ops);
  }

  ghost predicate PodHolds(w: World, pod: string, block: nat) {
    exists e :: e in w.index && e.pod == pod && e.block == block
  }

  /** What a batch does to the index: added blocks are there, removed ones are not, the rest of the Pod's
      part and every other Pod's stays; a stream whose threads are not running changes nothing. */
  lemma EditMeans(w: World, h: Handle, added: set<nat>, removed: set<nat>, pod: string, n: nat)
    requires h < |w.records|
    ensures var acts := w.records[h].started && !w.records[h].exited && pod == w.records[h].instance.pod;
            PodHolds(Next(w, Edit(h, added, removed)), pod, n)
            <==> (acts && n in added) || (PodHolds(w, pod, n) && !(acts && n in removed))
  {
    var v := Next(w, Edit(h, added, removed));
    if Running(w, h) && pod == w.records[h].instance.pod && n in added {
      assert Entry(pod, h, w.records[h].generation, n) in v.index;
    }
    if PodHolds(w, pod, n) && !(Running(w, h) && pod == w.records[h].instance.pod && n in removed) {
      var e :| e in w.index && e.pod == pod && e.block == n;
      assert e in v.index;
    }
  }

  /** A stream that was reset during a stretch of steps is only valid at its end if a replay of the new
      generation reached its END in that stretch. */
  lemma {:induction false} ResetNeedsReplayEnd(w: World, h: Handle, ops: seq<Op>)
    requires h < |w.records| && !NoReset(w, h, ops) && h < |Run(w, ops).records| && Run(w, ops).records[h].valid
    ensures Confirm(h) in ops
    decreases |ops|
  {
    NextGeneration(w, h, ops[0]);
    if ops[0] == Reset(h) && Running(w, h) {
      ValidNeedsConfirm(Next(w, ops[0]), h, ops[1..]);
    } else {
      ResetNeedsReplayEnd(Next(w, ops[0]), h, ops[1..]);
    }
    assert forall op :: op in ops[1..] ==> op in ops;
  }

  /** Everything read for b is of the current generation of its stream. */
  ghost predicate AllCurrent(v: World, b: string, h: Handle) {
    h < |v.records| && b in v.reading.seen
    && forall e :: e in v.reading.seen[b] ==> e.generation == v.records[h].generation
  }

  lemma FirstFind(u: World, b: string, n: nat)
    requires var w := Next(u, LookupRead(b, n));
             b in w.reading.selected && b !in u.reading.first && b in w.reading.first
    ensures var w := Next(u, LookupRead(b, n));
            var h := w.reading.selected[b];
            h < |w.records| && w.reading.first[b] == w.records[h].generation
  {
  }

  lemma SeenDecides(v: World, b: string)
    requires ReadingOk(v) && MatchStillCurrent(v, b) && b in v.reading.first
    ensures AllCurrent(v, b, v.reading.selected[b])
        <==> v.reading.first[b] == v.records[v.reading.selected[b]].generation
  {
    assert SeenFor(v, b);
  }

  ghost predicate NeverAgain(w: World, h: Handle) {
    h < |w.records| && !Names(w.published, h) && (w.phase.Retiring? ==> h !in w.phase.additions)
  }

  lemma NextKeepsNeverAgain(w: World, h: Handle, op: Op)
    requires PhaseOk(w) && NeverAgain(w, h)
    ensures NeverAgain(Next(w, op), h)
  {
  }

  /** No ABA: a stream that has left the published map never comes back. */
  lemma {:induction false} RetiredStaysRetired(w: World, h: Handle, ops: seq<Op>)
    requires Inv(w) && NeverAgain(w, h)
    ensures NeverAgain(Run(w, ops), h)
    decreases |ops|
  {
    if ops != [] {
      NextKeepsInv(w, ops[0]);
      NextKeepsNeverAgain(w, h, ops[0]);
      RetiredStaysRetired(Next(w, ops[0]), h, ops[1..]);
    }
  }

  /** A Close whose every Clear succeeded leaves nothing in the index. */
  lemma CleanCloseEmptiesIndex(ops: seq<Op>)
    requires Run(NEW_WORLD, ops).phase == ShuttingDown([], true)
    ensures Run(NEW_WORLD, ops).index == {}
  {
    RunKeepsInv(NEW_WORLD, ops);
    CleanShutdown(Run(NEW_WORLD, ops));
  }

  lemma CleanShutdown(w: World)
    requires Inv(w) && w.phase == ShuttingDown([], true)
    ensures w.index == {}
  {
  }

  // ---------------------------------------------------------------- the object

  lemma {:induction false} RunSnoc(w: World, ops: seq<Op>, op: Op)
    ensures Run(w, ops + [op]) == Next(Run(w, ops), op)
    decreases |ops|
  {
    if ops == [] {
      assert ops + [op] == [op] && [op][1..] == [];
      assert Run(Next(w, op), []) == Next(w, op);
    } else {
      assert (ops + [op])[1..] == ops[1..] + [op];
      RunSnoc(Next(w, ops[0]), ops[1..], op);
    }
  }

  ghost predicate Reaches(w: World, v: World) { exists ops :: Run(w, ops) == v }

  lemma ReachesSelf(w: World)
    ensures Reaches(w, w)
  {
    assert Run(w, []) == w;
  }

  lemma ReachesNext(w: World, v: World, op: Op)
    requires Reaches(w, v)
    ensures Reaches(w, Next(v, op))
  {
    var ops :| Run(w, ops) == v;
    RunSnoc(w, ops, op);
  }

  ghost predicate Acceptable(desired: seq<Instance>, limit: nat, complete: Instance -> bool) {
    && |desired| <= limit
    && (forall i :: 0 <= i < |desired| ==> complete(desired[i]))
    && (forall i, j :: 0 <= i < j < |desired| ==>
          desired[i].backend != desired[j].backend && desired[i].uid != desired[j].uid
          && desired[i].pod != desired[j].pod)
  }

  lemma AcceptableSnoc(desired: seq<Instance>, limit: nat, complete: Instance -> bool, i: nat)
    requires i < |desired| <= limit && Acceptable(desired[..i], limit, complete)
    ensures Acceptable(desired[..i + 1], limit, complete) <==>
            complete(desired[i]) && forall k :: 0 <= k < i ==>
              desired[k].backend != desired[i].backend && desired[k].uid != desired[i].uid
              && desired[k].pod != desired[i].pod
  {
    var a := desired[..i + 1];
    assert a[i] == desired[i] && forall k :: 0 <= k < i ==> a[k] == desired[..i][k] == desired[k];
  }

  function Normalize(x: Instance): Instance {
    x.(pod := TrimSpace(x.pod), model := TrimSpace(x.model),
       eventsEndpoint := TrimSpace(x.eventsEndpoint), replayEndpoint := TrimSpace(x.replayEndpoint))
  }

  function Normalized(raw: seq<Instance>): (desired: seq<Instance>)
    ensures |desired| == |raw|
  {
    seq(|raw|, i requires 0 <= i < |raw| => Normalize(raw[i]))
  }

  /** The per-instance check; `endpointOk` says which strings are absolute tcp endpoints. */
  function CompleteWith(endpointOk: string -> bool): Instance -> bool {
    (x: Instance) => x.backend != "" && x.uid != "" && TrimSpace(x.pod) != "" && TrimSpace(x.model) != ""
                     && endpointOk(x.eventsEndpoint) && endpointOk(x.replayEndpoint)
  }

  method ValidateInstances(raw: seq<Instance>, limit: nat, endpointOk: string -> bool)
    returns (ok: bool, normalized: map<string, Instance>)
    ensures ok <==>
              && |raw| <= limit
              && (forall k :: 0 <= k < |raw| ==>
                    && raw[k].backend != "" && raw[k].uid != ""
                    && TrimSpace(raw[k].pod) != "" && TrimSpace(raw[k].model) != ""
                    && endpointOk(TrimSpace(raw[k].eventsEndpoint)) && endpointOk(TrimSpace(raw[k].replayEndpoint)))
              && (forall j, k :: 0 <= j < k < |raw| ==>
                    && raw[j].backend != raw[k].backend && raw[j].uid != raw[k].uid
                    && TrimSpace(raw[j].pod) != TrimSpace(raw[k].pod))
    ensures ok ==> DesiredOk(normalized)
    ensures ok ==> normalized.Keys == (set k | 0 <= k < |raw| :: raw[k].backend)
    ensures ok ==> forall k :: 0 <= k < |raw| ==>
              normalized[raw[k].backend]
              == raw[k].(pod := TrimSpace(raw[k].pod), model := TrimSpace(raw[k].model),
                         eventsEndpoint := TrimSpace(raw[k].eventsEndpoint),
                         replayEndpoint := TrimSpace(raw[k].replayEndpoint))
  {
    ok, normalized := Register(Normalized(raw), limit, CompleteWith(endpointOk));
    AcceptableMeans(raw, limit, endpointOk);
    assert forall k :: 0 <= k < |raw| ==> Normalized(raw)[k] == Normalize(raw[k]);
  }

  lemma AcceptableMeans(raw: seq<Instance>, limit: nat, endpointOk: string -> bool)
    ensures Acceptable(Normalized(raw), limit, CompleteWith(endpointOk)) <==>
              && |raw| <= limit
              && (forall k :: 0 <= k < |raw| ==>
                    && raw[k].backend != "" && raw[k].uid != ""
                    && TrimSpace(raw[k].pod) != "" && TrimSpace(raw[k].model) != ""
                    && endpointOk(TrimSpace(raw[k].eventsEndpoint)) && endpointOk(TrimSpace(raw[k].replayEndpoint)))
              && (forall j, k :: 0 <= j < k < |raw| ==>
                    && raw[j].backend != raw[k].backend && raw[j].uid != raw[k].uid
                    && TrimSpace(raw[j].pod) != TrimSpace(raw[k].pod))
  {
    var n := Normalized(raw);
    forall k | 0 <= k < |raw|
      ensures n[k] == Normalize(raw[k])
      ensures CompleteWith(endpointOk)(n[k]) <==>
                && raw[k].backend != "" && raw[k].uid != ""
                && TrimSpace(raw[k].pod) != "" && TrimSpace(raw[k].model) != ""
                && endpointOk(TrimSpace(raw[k].eventsEndpoint)) && endpointOk(TrimSpace(raw[k].replayEndpoint))
    {
      TrimTwice(raw[k].pod);
      TrimTwice(raw[k].model);
    }
  }

  method Register(desired: seq<Instance>, limit: nat, complete: Instance -> bool)
    returns (ok: bool, normalized: map<string, Instance>)
    ensures ok <==> Acceptable(desired, limit, complete)
    ensures ok ==> DesiredOk(normalized)
    ensures ok ==> normalized.Keys == (set k | 0 <= k < |desired| :: desired[k].backend)
    ensures ok ==> forall k :: 0 <= k < |desired| ==> normalized[desired[k].backend] == desired[k]
  {
    normalized := map[];
    if |desired| > limit {
      return false, map[];
    }
    var uids, pods := {}, {};
    for i := 0 to |desired|
      invariant Acceptable(desired[..i], limit, complete)
      invariant uids == set k | 0 <= k < i :: desired[k].uid
      invariant pods == set k | 0 <= k < i :: desired[k].pod
      invariant normalized.Keys == set k | 0 <= k < i :: desired[k].backend
      invariant forall k :: 0 <= k < i ==> normalized[desired[k].backend] == desired[k]
    {
      var x := desired[i];
      AcceptableSnoc(desired, limit, complete, i);
      if !complete(x) || x.backend in normalized || x.uid in uids || x.pod in pods {
        assert !Acceptable(desired[..i + 1], limit, complete);
        AcceptablePrefix(desired, limit, complete, i + 1);
        return false, map[];
      }
      normalized := normalized[x.backend := x];
      uids, pods := uids + {x.uid}, pods + {x.pod};
    }
    ok := true;
    assert desired[..|desired|] == desired;
  }

  lemma AcceptablePrefix(desired: seq<Instance>, limit: nat, complete: Instance -> bool, i: nat)
    requires i <= |desired|
    ensures Acceptable(desired, limit, complete) ==> Acceptable(desired[..i], limit, complete)
  {
  }

  lemma KeptPlusFresh(w: World, desired: map<string, Instance>, next: map<string, Handle>, names: seq<string>)
    requires Distinct(names) && forall b :: b in names <==> b in desired && !KeepsStream(w, desired, b)
    requires next.Keys == desired.Keys
             && forall b :: b in next && b !in names ==> b in w.published && next[b] == w.published[b]
    requires forall i :: 0 <= i < |names| ==> next[names[i]] == |w.records| + i
    ensures next == Kept(w, desired) + Fresh(|w.records|, names)
  {
    var kept, added := Kept(w, desired), Fresh(|w.records|, names);
    FreshIs(|w.records|, names);
    forall b | b in added ensures next[b] == added[b] {
      var i :| 0 <= i < |names| && names[i] == b;
    }
    assert forall b :: b in kept <==> b in desired && b !in names;
    JoinOf(next, kept, added);
  }

  lemma JoinOf(next: map<string, Handle>, kept: map<string, Handle>, added: map<string, Handle>)
    requires forall b :: b in next <==> b in kept || b in added
    requires forall b :: b in added ==> next[b] == added[b]
    requires forall b :: b in kept && b !in added ==> next[b] == kept[b]
    ensures next == kept + added
  {
  }

  /** All desired backends but `todo` have their stream: the one they had, or one just created. */
  ghost predicate Allotted(w: World, desired: map<string, Instance>, todo: set<string>, next: map<string, Handle>,
                           additions: seq<Handle>, names: seq<string>, records: seq<Record>) {
    && next.Keys == desired.Keys - todo
    && Distinct(names)
    && (forall b :: b in names <==> b in next && !KeepsStream(w, desired, b))
    && (forall b :: b in next && b !in names ==> b in w.published && next[b] == w.published[b])
    && (forall i :: 0 <= i < |names| ==> next[names[i]] == |w.records| + i)
    && additions == seq(|names|, i => |w.records| + i)
    && records == w.records + NewRecords(desired, names)
  }

  lemma AllotKept(w: World, desired: map<string, Instance>, todo: set<string>, next: map<string, Handle>,
                  additions: seq<Handle>, names: seq<string>, records: seq<Record>, b: string)
    requires Allotted(w, desired, todo, next, additions, names, records)
    requires b in todo && b in desired && KeepsStream(w, desired, b)
    ensures Allotted(w, desired, todo - {b}, next[b := w.published[b]], additions, names, records)
  {
  }

  lemma AllotNew(w: World, desired: map<string, Instance>, todo: set<string>, next: map<string, Handle>,
                 additions: seq<Handle>, names: seq<string>, records: seq<Record>, b: string)
    requires Allotted(w, desired, todo, next, additions, names, records)
    requires b in todo && b in desired && !KeepsStream(w, desired, b)
    ensures Allotted(w, desired, todo - {b}, next[b := |records|], additions + [|records|], names + [b],
                     records + [NewRecord(desired[b])])
  {
    assert b !in next && |records| == |w.records| + |names|;
    assert seq(|names + [b]|, i => |w.records| + i) == seq(|names|, i => |w.records| + i) + [|records|];
    assert NewRecords(desired, names + [b]) == NewRecords(desired, names) + [NewRecord(desired[b])];
  }

  lemma ReachesInv(w0: World, w: World)
    requires Inv(w0) && Reaches(w0, w)
    ensures Inv(w)
  {
    var ops :| Run(w0, ops) == w;
    RunKeepsInv(w0, ops);
  }

  lemma ReachesReady(w0: World, w: World)
    requires Inv(w0) && Ready(w0) && Reaches(w0, w)
    ensures Ready(w)
  {
    var ops :| Run(w0, ops) == w;
    RunKeepsReady(w0, ops);
  }

  lemma ReachesTo(w: World, v: World, op: Op, u: World)
    requires Reaches(w, v) && Next(v, op) == u
    ensures Reaches(w, u)
  {
    ReachesNext(w, v, op);
  }

  /** A service with one instance, whose stream runs. */
  function Lone(x: Instance, generation: nat, valid: bool, index: set<Entry>, reading: Reading): World {
    World([Record(x, true, false, false, generation, valid)], map[x.backend := 0], map[x.backend := x],
          index, false, Settled, reading)
  }

  function Plan(x: Instance): Phase { Retiring(map[x.backend := x], map[x.backend := 0], [0], []) }

  lemma LonePlanned(x: Instance, w: World)
    requires w == NEW_WORLD
    ensures Next(w, BeginReconcile(map[x.backend := x], [x.backend], []))
         == w.(records := [NewRecord(x)], phase := Plan(x))
  {
    var desired, names := map[x.backend := x], [x.backend];
    assert IsPlan(w, desired, names, []);
    assert w.records + NewRecords(desired, names) == [NewRecord(x)];
    FreshIs(0, names);
    assert names[0] in Fresh(0, names);
    assert Kept(w, desired) + Fresh(|w.records|, names) == map[x.backend := 0];
    assert seq(|names|, i => |w.records| + i) == [0];
  }

  lemma LonePublished(x: Instance, w: World)
    requires w == NEW_WORLD.(records := [NewRecord(x)], phase := Plan(x))
    ensures Next(w, Publish)
         == w.(published := map[x.backend := 0], goal := map[x.backend := x], phase := Starting([0]))
  {
  }

  lemma LoneStarted(x: Instance, w: World)
    requires w == Lone(x, 0, false, {}, NO_READING).(records := [NewRecord(x)], phase := Starting([0]))
    ensures Next(w, StartHead) == Lone(x, 0, false, {}, NO_READING).(phase := Starting([]))
  {
    StartedHead(w);
    assert w.records[0 := w.records[0].(started := true)] == [Record(x, true, false, false, 0, false)];
    assert w.phase.waiting[1..] == [];
  }

  lemma LoneRuns(x: Instance)
    ensures Reaches(NEW_WORLD, Lone(x, 0, false, {}, NO_READING))
  {
    var desired, up := map[x.backend := x], Lone(x, 0, false, {}, NO_READING);
    var w1 := NEW_WORLD.(records := [NewRecord(x)], phase := Plan(x));
    var w2 := up.(records := [NewRecord(x)], phase := Starting([0]));
    ReachesSelf(NEW_WORLD);
    LonePlanned(x, NEW_WORLD);
    ReachesTo(NEW_WORLD, NEW_WORLD, BeginReconcile(desired, [x.backend], []), w1);
    LonePublished(x, w1);
    ReachesTo(NEW_WORLD, w1, Publish, w2);
    LoneStarted(x, w2);
    ReachesTo(NEW_WORLD, w2, StartHead, up.(phase := Starting([])));
    AllStarted(NEW_WORLD, up.(phase := Starting([])));
  }

  lemma LoneConfirms(x: Instance, g: nat, index: set<Entry>, reading: Reading)
    ensures Next(Lone(x, g, false, index, reading), Confirm(0)) == Lone(x, g, true, index, reading)
  {
    var w := Lone(x, g, false, index, reading);
    assert w.records[0 := w.records[0].(valid := true)] == Lone(x, g, true, index, reading).records;
  }

  /** A lookup of the one backend, before and after it has found a block. */
  function Began(b: string): Reading { Reading(map[b := 0], map[b := {}], map[]) }
  function Finds(b: string, e: Entry): Reading { Reading(map[b := 0], map[b := {e}], map[b := 0]) }

  lemma LoneStores(x: Instance, n: nat, e: Entry)
    requires e == Entry(x.pod, 0, 0, n)
    ensures Next(Lone(x, 0, true, {}, NO_READING), Edit(0, {n}, {})) == Lone(x, 0, true, {e}, NO_READING)
  {
    var w := Lone(x, 0, true, {}, NO_READING);
    var blocks: set<nat> := {n};
    assert n in blocks;
    assert (set m | m in blocks :: Entry(x.pod, 0, w.records[0].generation, m)) == {e};
    assert Next(w, Edit(0, blocks, {})).index == {e};
  }

  lemma LoneBegins(x: Instance, e: Entry)
    ensures Next(Lone(x, 0, true, {e}, NO_READING), LookupBegin({x.backend})) == Lone(x, 0, true, {e}, Began(x.backend))
  {
    var w := Lone(x, 0, true, {e}, NO_READING);
    assert SnapshotOk(w.records[0]);
    assert Next(w, LookupBegin({x.backend})).reading.selected == map[x.backend := 0];
  }

  lemma LoneReads(x: Instance, e: Entry)
    requires e.pod == x.pod
    ensures Next(Lone(x, 0, true, {e}, Began(x.backend)), LookupRead(x.backend, e.block))
         == Lone(x, 0, true, {e}, Finds(x.backend, e))
  {
    var w := Lone(x, 0, true, {e}, Began(x.backend));
    assert (set d | d in w.index && d.pod == w.records[0].instance.pod && d.block == e.block) == {e};
    var none: set<Entry> := {};
    assert none + {e} == {e} && w.reading.seen[x.backend := {e}] == Finds(x.backend, e).seen;
    assert w.reading.first[x.backend := 0] == Finds(x.backend, e).first;
  }

  lemma LoneResets(x: Instance, e: Entry)
    requires e.pod == x.pod
    ensures Next(Lone(x, 0, true, {e}, Finds(x.backend, e)), Reset(0)) == Lone(x, 1, false, {}, Finds(x.backend, e))
  {
    var w := Lone(x, 0, true, {e}, Finds(x.backend, e));
    assert WithoutPod(w.index, x.pod) == {};
    assert w.records[0 := w.records[0].(generation := 1, valid := false)] == [Record(x, true, false, false, 1, false)];
  }

  lemma LoneHasFound(x: Instance, n: nat, e: Entry)
    requires e == Entry(x.pod, 0, 0, n)
    ensures Reaches(NEW_WORLD, Lone(x, 0, true, {e}, Finds(x.backend, e)))
  {
    var b := x.backend;
    LoneRuns(x);
    LoneConfirms(x, 0, {}, NO_READING);
    ReachesTo(NEW_WORLD, Lone(x, 0, false, {}, NO_READING), Confirm(0), Lone(x, 0, true, {}, NO_READING));
    LoneStores(x, n, e);
    ReachesTo(NEW_WORLD, Lone(x, 0, true, {}, NO_READING), Edit(0, {n}, {}), Lone(x, 0, true, {e}, NO_READING));
    LoneBegins(x, e);
    ReachesTo(NEW_WORLD, Lone(x, 0, true, {e}, NO_READING), LookupBegin({b}), Lone(x, 0, true, {e}, Began(b)));
    LoneReads(x, e);
    ReachesTo(NEW_WORLD, Lone(x, 0, true, {e}, Began(b)), LookupRead(b, n), Lone(x, 0, true, {e}, Finds(b, e)));
  }

  /** A reset between read and check does happen, for any instance and block: a confirmed stream's block is
      found, the engine restarts and its Pod is cleared, a replay of the new generation reaches its END, and
      the match that passes the second check carries the block of the lost generation. */
  lemma MatchCarriesLostGeneration(x: Instance, n: nat)
    ensures var e := Entry(x.pod, 0, 0, n);
            var w := Lone(x, 1, true, {}, Finds(x.backend, e));
            Reaches(NEW_WORLD, w) && MatchStillCurrent(w, x.backend)
            && e in w.reading.seen[x.backend] && !AllCurrent(w, x.backend, 0)
  {
    var b, e := x.backend, Entry(x.pod, 0, 0, n);
    LoneHasFound(x, n, e);
    LoneResets(x, e);
    ReachesTo(NEW_WORLD, Lone(x, 0, true, {e}, Finds(b, e)), Reset(0), Lone(x, 1, false, {}, Finds(b, e)));
    LoneConfirms(x, 1, {}, Finds(b, e));
    ReachesTo(NEW_WORLD, Lone(x, 1, false, {}, Finds(b, e)), Confirm(0), Lone(x, 1, true, {}, Finds(b, e)));
  }

  /** The record of a stream whose Close has returned. */
  function Halted(r: Record): Record { r.(closed := true, exited := true) }

  lemma CloseHead(w0: World, w: World)
    requires Inv(w0) && Reaches(w0, w) && Head(w.phase) != []
    ensures var h := Head(w.phase)[0];
            h < |w.records| && Reaches(w0, w.(records := w.records[h := Halted(w.records[h])]))
  {
    var h := Head(w.phase)[0];
    assert h < |w.records| by {
      ReachesInv(w0, w);
      assert Names(w.published, h);
    }
    var v := w.(records := w.records[h := w.records[h].(closed := true)]);
    ReachesTo(w0, w, MarkHeadClosed, v);
    ThreadsGone(v, h);
    assert v.records[h := Halted(w.records[h])] == w.records[h := Halted(w.records[h])];
    ReachesTo(w0, v, ThreadsExit(h), v.(records := v.records[h := Halted(w.records[h])]));
  }

  lemma ThreadsGone(v: World, h: Handle)
    requires h < |v.records| && v.records[h].closed
    ensures Next(v, ThreadsExit(h)) == v.(records := v.records[h := v.records[h].(exited := true)])
  {
  }

  /** A Clear of the stopped head; one that fails here has removed nothing. */
  lemma ClearedHead(w: World, ok: bool)
    requires Head(w.phase) != [] && Head(w.phase)[0] < |w.records| && Stopped(w.records[Head(w.phase)[0]])
    ensures var pod := w.records[Head(w.phase)[0]].instance.pod;
            var index := if ok then WithoutPod(w.index, pod) else w.index;
            Next(w, ClearHead(ok, {})) ==
              if w.phase.ShuttingDown?
              then w.(index := index, phase := ShuttingDown(w.phase.left[1..], w.phase.clean && ok))
              else w.(index := index, phase := if ok then w.phase.(pending := w.phase.pending[1..]) else Settled)
  {
    var pod := w.records[Head(w.phase)[0]].instance.pod;
    assert (set e | e in w.index && e in {} && e.pod == pod) == {};
  }

  /** Closing, waiting for the threads and clearing the head of the retirement queue. */
  lemma RetireHead(w0: World, w: World, ok: bool)
    requires Inv(w0) && Reaches(w0, w) && w.phase.Retiring? && w.phase.pending != []
    ensures var h := w.phase.pending[0];
            && h < |w.records|
            && (var records := w.records[h := Halted(w.records[h])];
                Reaches(w0, if ok then w.(records := records, index := WithoutPod(w.index, w.records[h].instance.pod),
                                          phase := w.phase.(pending := w.phase.pending[1..]))
                            else w.(records := records, phase := Settled)))
  {
    CloseHead(w0, w);
    var h := w.phase.pending[0];
    var v := w.(records := w.records[h := Halted(w.records[h])]);
    ReachesNext(w0, v, ClearHead(ok, {}));
    ClearedHead(v, ok);
  }

  /** The same for the head of the shutdown queue; a failing Clear does not stop the others. */
  lemma ShutHead(w0: World, w: World, ok: bool)
    requires Inv(w0) && Reaches(w0, w) && w.phase.ShuttingDown? && w.phase.left != []
    ensures var h := w.phase.left[0];
            && h < |w.records|
            && Reaches(w0, w.(records := w.records[h := Halted(w.records[h])],
                              index := if ok then WithoutPod(w.index, w.records[h].instance.pod) else w.index,
                              phase := ShuttingDown(w.phase.left[1..], w.phase.clean && ok)))
  {
    CloseHead(w0, w);
    var h := w.phase.left[0];
    var v := w.(records := w.records[h := Halted(w.records[h])]);
    ReachesNext(w0, v, ClearHead(ok, {}));
    ClearedHead(v, ok);
  }

  lemma ShutdownReturns(w0: World, w: World)
    requires Inv(w0) && Reaches(w0, w) && w.phase.ShuttingDown? && w.phase.left == []
    ensures var v := w.(phase := Settled); Reaches(w0, v) && Inv(v)
    ensures w.phase.clean ==> w.index == {}
  {
    ReachesInv(w0, w);
    if w.phase.clean { CleanShutdown(w); }
    ReachesNext(w0, w, CloseReturns);
    SettleKeepsInv(w, w.(phase := Settled));
  }

  lemma PublishNext(w0: World, w: World)
    requires Reaches(w0, w) && w.phase.Retiring? && w.phase.pending == []
    ensures Reaches(w0, w.(published := w.phase.next, goal := w.phase.target, phase := Starting(w.phase.additions)))
  {
    ReachesNext(w0, w, Publish);
  }

  lemma PlanNext(w0: World, w: World, desired: map<string, Instance>, names: seq<string>)
    requires w0.phase.Settled? && !w0.closed && w.phase.Retiring? && IsPlan(w0, desired, names, w.phase.pending)
    requires w == w0.(records := w0.records + NewRecords(desired, names), phase := w.phase)
    requires w.phase.target == desired && w.phase.next == Kept(w0, desired) + Fresh(|w0.records|, names)
    requires w.phase.additions == seq(|names|, i => |w0.records| + i)
    ensures Reaches(w0, w)
  {
    ReachesSelf(w0);
    ReachesNext(w0, w0, BeginReconcile(desired, names, w.phase.pending));
  }

  lemma AllStarted(w0: World, w: World)
    requires Reaches(w0, w) && w.phase == Starting([])
    ensures Reaches(w0, w.(phase := Settled))
  {
    ReachesNext(w0, w, StartHead);
  }

  lemma StartedHead(w: World)
    requires w.phase.Starting? && w.phase.waiting != [] && w.phase.waiting[0] < |w.records|
    ensures var h := w.phase.waiting[0];
            Next(w, StartHead) == w.(records := w.records[h := w.records[h].(started := true)],
                                     phase := Starting(w.phase.waiting[1..]))
  {
  }

  lemma StartFirst(w0: World, w: World)
    requires Inv(w0) && Reaches(w0, w) && w.phase.Starting? && w.phase.waiting != []
    ensures var h := w.phase.waiting[0];
            && h < |w.records|
            && Reaches(w0, w.(records := w.records[h := w.records[h].(started := true)],
                              phase := Starting(w.phase.waiting[1..])))
  {
    assert w.phase.waiting[0] < |w.records| by {
      ReachesInv(w0, w);
      assert w.phase.waiting[0] in w.phase.waiting;
    }
    StartedHead(w);
    ReachesNext(w0, w, StartHead);
  }

  /** The snapshot is valid: confirmed, without reason, on an open stream, and `timely`, that is fresh. */
  predicate Answers(records: seq<Record>, timely: Handle -> bool, h: Handle) {
    h < |records| && SnapshotOk(records[h]) && timely(h)
  }

  predicate Serving(records: seq<Record>, model: string, h: Handle) {
    h < |records| && records[h].instance.model == model
  }

  /** A backend without a stream, with another model, with an invalid snapshot, whose stream was
      replaced during the lookup, or a valid match. */
  datatype Match = Unknown | ModelMismatch | Unusable | LifecycleChanging | Usable(stream: Handle)

  /** What the first half of a lookup may answer in a given state of the service. */
  ghost predicate InputsAnswer(records: seq<Record>, streams: map<string, Handle>, backends: seq<string>, model: string,
                               timely: Handle -> bool, selected: map<string, Handle>, matches: map<string, Match>) {
    && (forall b :: b in backends <==> b in selected || b in matches)
    && (forall b :: b in selected ==>
          b !in matches && b in streams && selected[b] == streams[b]
          && Serving(records, model, streams[b]) && Answers(records, timely, streams[b]))
    && (forall b :: b in matches ==>
          matches[b] == if b !in streams then Unknown
                        else if !Serving(records, model, streams[b]) then ModelMismatch else Unusable)
    && (forall b :: b in matches && matches[b] == Unusable ==> !Answers(records, timely, streams[b]))
  }

  /** What the second half must answer for a selected stream in the state it finds. */
  function SecondCheck(records: seq<Record>, streams: map<string, Handle>, timely: Handle -> bool,
                       b: string, h: Handle): Match {
    if b !in streams || streams[b] != h then LifecycleChanging
    else if !Answers(records, timely, h) then Unusable else Usable(h)
  }

  /** The second checks take the lock once per backend: each may find a state of its own. */
  ghost predicate FinishAnswer(later: string -> World, timely: Handle -> bool,
                               selected: map<string, Handle>, matches: map<string, Match>, result: map<string, Match>) {
    && result.Keys == selected.Keys + matches.Keys
    && (forall b :: b in matches ==> result[b] == matches[b])
    && (forall b :: b in selected ==>
          result[b] == SecondCheck(later(b).records, later(b).published, timely, b, selected[b]))
  }

  predicate OpenAndValid(w: World, timely: Handle -> bool, b: string, h: Handle) {
    b in w.published && w.published[b] == h < |w.records| && !w.records[h].closed && w.records[h].valid && timely(h)
  }

  /** Whatever happens to the service between the two halves and between the second checks: the result
      answers exactly the queried backends, one match each, and a match is usable exactly for the
      stream that was published and valid at both of its checks and serves the queried model. */
  lemma LookupAnswersEveryBackend(w: World, later: string -> World, backends: seq<string>, model: string,
                                  before: Handle -> bool, after: Handle -> bool,
                                  selected: map<string, Handle>, matches: map<string, Match>,
                                  result: map<string, Match>)
    requires InputsAnswer(w.records, w.published, backends, model, before, selected, matches)
    requires FinishAnswer(later, after, selected, matches, result)
    ensures forall b :: b in result <==> b in backends
    ensures forall b: string, h: Handle :: b in result && result[b] == Usable(h) <==>
              && b in backends && OpenAndValid(w, before, b, h) && w.records[h].instance.model == model
              && OpenAndValid(later(b), after, b, h)
  {
    forall b ensures b in result <==> b in backends {
      assert b in result.Keys <==> b in selected.Keys || b in matches.Keys;
    }
  }

  predicate AllClear(streams: seq<Handle>, clearOk: Handle -> bool) {
    streams == [] || (AllClear(streams[..|streams| - 1], clearOk) && clearOk(streams[|streams| - 1]))
  }

  lemma ClearsNext(streams: seq<Handle>, clearOk: Handle -> bool, i: nat)
    requires i < |streams|
    ensures AllClear(streams[..i + 1], clearOk) <==> AllClear(streams[..i], clearOk) && clearOk(streams[i])
    ensures !clearOk(streams[i]) ==> !AllClear(streams, clearOk)
  {
    assert streams[..i + 1][..i] == streams[..i];
    ClearsMean(streams, clearOk);
  }

  lemma {:induction false} ClearsMean(streams: seq<Handle>, clearOk: Handle -> bool)
    ensures AllClear(streams, clearOk) <==> forall h :: h in streams ==> clearOk(h)
  {
    if streams != [] {
      ClearsMean(streams[..|streams| - 1], clearOk);
      assert streams == streams[..|streams| - 1] + [streams[|streams| - 1]];
    }
  }

  /** Nothing but `started` may differ. */
  predicate SameFlags(r: Record, before: Record) { r == before.(started := r.started) }

  predicate AllHalted(records: seq<Record>, streams: seq<Handle>) {
    forall h :: h in streams ==> h < |records| && records[h].closed && records[h].exited
  }

  lemma HaltedNext(records: seq<Record>, streams: seq<Handle>, i: nat)
    requires i < |streams| && AllHalted(records, streams[..i])
    ensures streams[i] < |records| ==>
              AllHalted(records[streams[i] := Halted(records[streams[i]])], streams[..i + 1])
  {
    assert streams[..i + 1] == streams[..i] + [streams[i]];
  }

  lemma StillSound(w0: World, w: World)
    requires Inv(w0) && Ready(w0) && Reaches(w0, w)
    ensures Inv(w) && Ready(w)
  {
    ReachesInv(w0, w);
    ReachesReady(w0, w);
  }

  /** All retired streams clear exactly if all published streams that are not kept do. */
  lemma PlanClears(w: World, desired: map<string, Instance>, names: seq<string>, retired: seq<Handle>,
                   clearOk: Handle -> bool)
    requires IsPlan(w, desired, names, retired)
    ensures AllClear(retired, clearOk) <==>
            forall b :: b in w.published && !KeepsStream(w, desired, b) ==> clearOk(w.published[b])
  {
    ClearsMean(retired, clearOk);
    forall b | b in w.published && !KeepsStream(w, desired, b) ensures w.published[b] in retired {}
  }

  lemma FailedIsPublished(w: World, desired: map<string, Instance>, names: seq<string>, retired: seq<Handle>,
                          records: seq<Record>, clearOk: Handle -> bool)
    requires IsPlan(w, desired, names, retired)
    requires exists h :: h in retired && h < |records| && records[h].closed && !clearOk(h)
    ensures exists b :: b in w.published && w.published[b] < |records| && records[w.published[b]].closed
                        && !clearOk(w.published[b])
  {
    var h :| h in retired && h < |records| && records[h].closed && !clearOk(h);
    var b :| b in w.published && !KeepsStream(w, desired, b) && w.published[b] == h;
  }

  lemma NextIsOpen(w0: World, w: World)
    requires Inv(w0) && Ready(w0) && Reaches(w0, w) && w.phase.Retiring?
    ensures forall b :: b in w.phase.next ==> w.phase.next[b] < |w.records| && !w.records[w.phase.next[b]].closed
  {
    ReachesInv(w0, w);
    ReachesReady(w0, w);
  }

  /** What a settled, reachable state says of the streams it publishes. */
  lemma Launched(w0: World, w: World)
    requires Inv(w0) && Ready(w0) && Reaches(w0, w) && w.phase.Settled?
    ensures Inv(w) && Ready(w) && w.published.Keys == w.goal.Keys
    ensures forall b :: b in w.published ==>
              w.published[b] < |w.records| && w.records[w.published[b]].instance == w.goal[b]
              && w.records[w.published[b]].started
    ensures forall e :: e in w.index ==> exists b :: b in w.goal && w.goal[b].pod == e.pod
  {
    ReachesInv(w0, w);
    ReachesReady(w0, w);
    GoalCoversIndex(w);
  }

  /** A published stream that is not the next one of its backend is among the retired. */
  predicate ReplacedHalted(records: seq<Record>, before: map<string, Handle>, next: map<string, Handle>) {
    forall b :: b in before && (b !in next || next[b] != before[b]) ==>
      before[b] < |records| && records[before[b]].closed && records[before[b]].exited
  }

  lemma ReplacedAreHalted(w: World, desired: map<string, Instance>, names: seq<string>, retired: seq<Handle>,
                          next: map<string, Handle>, records: seq<Record>)
    requires IsPlan(w, desired, names, retired) && next == Kept(w, desired) + Fresh(|w.records|, names)
    requires WellNamed(w, w.published)
    requires AllHalted(records, retired)
    ensures ReplacedHalted(records, w.published, next)
  {
    FreshIs(|w.records|, names);
    forall b | b in w.published && (b !in next || next[b] != w.published[b]) ensures w.published[b] in retired {
      assert KeepsStream(w, desired, b) ==> b !in names && b in Kept(w, desired);
    }
  }

  class KvService {
    var records: seq<Record>
    var streams: map<string, Handle>
    var index: set<Entry>
    var closed: bool
    ghost var goal: map<string, Instance>

    ghost function View(): World
      reads this
    {
      World(records, streams, goal, index, closed, Settled, NO_READING)
    }

    constructor ()
      ensures View() == NEW_WORLD && Inv(View()) && Ready(View())
    {
      records, streams, index, closed, goal := [], map[], {}, false, map[];
    }

    method ReconcileChanges(desired: map<string, Instance>)
      returns (next: map<string, Handle>, additions: seq<Handle>, retired: seq<Handle>, ghost names: seq<string>)
      requires Inv(View()) && DesiredOk(desired)
      modifies this`records
      ensures IsPlan(old(View()), desired, names, retired)
      ensures next == Kept(old(View()), desired) + Fresh(|old(records)|, names)
      ensures additions == seq(|names|, i => |old(records)| + i)
      ensures records == old(records) + NewRecords(desired, names)
    {
      ghost var w := View();
      var known := records;
      next, additions, names := KeepOrCreate(desired);
      NamesKeep(w, View(), streams);
      retired := Replaced(known, desired);
      KeptPlusFresh(w, desired, next, names);
    }

    /** For each desired backend: the stream it has, or a new one. */
    method KeepOrCreate(desired: map<string, Instance>)
      returns (next: map<string, Handle>, additions: seq<Handle>, ghost names: seq<string>)
      requires WellNamed(View(), streams)
      modifies this`records
      ensures Distinct(names) && forall b :: b in names <==> b in desired && !KeepsStream(old(View()), desired, b)
      ensures next.Keys == desired.Keys
              && forall b :: b in next && b !in names ==> b in streams && next[b] == streams[b]
      ensures forall i :: 0 <= i < |names| ==> next[names[i]] == |old(records)| + i
      ensures additions == seq(|names|, i => |old(records)| + i)
      ensures records == old(records) + NewRecords(desired, names)
    {
      ghost var w := View();
      var known := records;
      next, additions, names := map[], [], [];
      var todo := desired.Keys;
      while todo != {}
        invariant todo <= desired.Keys
        invariant Allotted(w, desired, todo, next, additions, names, records)
        decreases todo
      {
        var b :| b in todo;
        if b in streams && known[streams[b]].instance == desired[b] && !known[streams[b]].closed {
          AllotKept(w, desired, todo, next, additions, names, records, b);
          next := next[b := streams[b]];
        } else {
          AllotNew(w, desired, todo, next, additions, names, records, b);
          next, additions, names := next[b := |records|], additions + [|records|], names + [b];
          records := records + [NewRecord(desired[b])];
        }
        todo := todo - {b};
      }
    }

    /** The published streams that are not kept. */
    method Replaced(known: seq<Record>, desired: map<string, Instance>) returns (retired: seq<Handle>)
      requires WellNamed(View(), streams) && known <= records
      requires forall b :: b in streams ==> streams[b] < |known|
      ensures forall h :: h in retired <==>
                exists b :: b in streams && !KeepsStream(View().(records := known), desired, b) && streams[b] == h
    {
      retired := [];
      ghost var w := View().(records := known);
      var todo := streams.Keys;
      while todo != {}
        invariant todo <= streams.Keys
        invariant forall h :: h in retired ==>
                    exists b :: b in streams && !KeepsStream(w, desired, b) && streams[b] == h
        invariant forall b :: b in streams && b !in todo && !KeepsStream(w, desired, b) ==> streams[b] in retired
        decreases todo
      {
        var b :| b in todo;
        todo := todo - {b};
        if !(b in desired && known[streams[b]].instance == desired[b] && !known[streams[b]].closed) {
          assert !KeepsStream(w, desired, b);
          retired := retired + [streams[b]];
        }
      }
    }

    /** Stop the retired streams one by one, clear their Pods, publish, then start the new ones.
        `clearOk` says which Clear calls succeed; the first that fails aborts the call. */
    method Reconcile(desired: map<string, Instance>, clearOk: Handle -> bool) returns (ok: bool)
      requires Inv(View()) && Ready(View()) && DesiredOk(desired)
      modifies this
      ensures Inv(View()) && Ready(View()) && closed == old(closed) && Reaches(old(View()), View())
      ensures ok <==> !old(closed) && forall b :: b in old(streams) && !KeepsStream(old(View()), desired, b) ==>
                                        clearOk(old(streams)[b])
      ensures ok ==> goal == desired && streams.Keys == desired.Keys
      ensures ok ==> forall b :: b in streams ==>
                && streams[b] < |records| && records[streams[b]].instance == desired[b]
                && records[streams[b]].started && !records[streams[b]].closed
      ensures ok ==> forall e :: e in index ==> exists b :: b in desired && desired[b].pod == e.pod
      ensures ok ==> forall b :: b in old(streams) && (b !in streams || streams[b] != old(streams)[b]) ==>
                old(streams)[b] < |records| && records[old(streams)[b]].closed && records[old(streams)[b]].exited
      ensures !ok ==> streams == old(streams)
      ensures !ok && !old(closed) ==> exists b :: b in streams && streams[b] < |records|
                                                  && records[streams[b]].closed && !clearOk(streams[b])
      ensures old(closed) ==> !ok && View() == old(View())
    {
      ghost var w0 := View();
      if closed {
        ReachesSelf(w0);
        return false;
      }
      var next, additions;
      ghost var phase;
      ok, next, additions, phase := RetireReplaced(desired, clearOk);
      if ok {
        PublishAndStart(w0, phase, next, desired, additions);
      } else {
        StillSound(w0, View());
      }
    }

    /** Plan the change, then close and clear the streams that are not kept, up to the first failing Clear. */
    method RetireReplaced(desired: map<string, Instance>, clearOk: Handle -> bool)
      returns (ok: bool, next: map<string, Handle>, additions: seq<Handle>, ghost phase: Phase)
      requires Inv(View()) && DesiredOk(desired) && !closed
      modifies this`records, this`index
      ensures phase.Retiring? && phase == Retiring(desired, next, additions, phase.pending)
      ensures ok <==> forall b :: b in streams && !KeepsStream(old(View()), desired, b) ==> clearOk(streams[b])
      ensures ok ==> Reaches(old(View()), Midway(phase, [])) && ReplacedHalted(records, streams, next)
      ensures !ok ==> Reaches(old(View()), View())
      ensures !ok ==> exists b ::
                b in streams && streams[b] < |records| && records[streams[b]].closed && !clearOk(streams[b])
    {
      ghost var w0 := View();
      var retired;
      ghost var names;
      next, additions, retired, names := ReconcileChanges(desired);
      phase := Retiring(desired, next, additions, retired);
      PlanNext(w0, Midway(phase, retired), desired, names);
      PlanClears(w0, desired, names, retired, clearOk);
      ok := RetireAll(w0, phase, retired, clearOk);
      if ok {
        ReplacedAreHalted(w0, desired, names, retired, next, records);
      } else {
        FailedIsPublished(w0, desired, names, retired, records, clearOk);
      }
    }

    /** Publish the planned streams and start the new ones. */
    method PublishAndStart(ghost w0: World, ghost phase: Phase, next: map<string, Handle>,
                           desired: map<string, Instance>, additions: seq<Handle>)
      requires Inv(w0) && Ready(w0) && phase.Retiring? && Reaches(w0, Midway(phase, []))
      requires phase == Retiring(desired, next, additions, phase.pending)
      modifies this`records, this`streams, this`goal
      ensures streams == next && goal == desired && Reaches(w0, View()) && Inv(View()) && Ready(View())
      ensures streams.Keys == goal.Keys
      ensures forall b :: b in streams ==>
                && streams[b] < |records| && records[streams[b]].instance == goal[b]
                && records[streams[b]].started && !records[streams[b]].closed
      ensures forall e :: e in index ==> exists b :: b in goal && goal[b].pod == e.pod
      ensures |records| == |old(records)|
      ensures forall h :: 0 <= h < |records| ==> SameFlags(records[h], old(records)[h])
    {
      NextIsOpen(w0, Midway(phase, []));
      PublishNext(w0, Midway(phase, []));
      streams, goal := next, desired;
      StartAll(w0, additions);
      Launched(w0, View());
    }

    ghost function Midway(phase: Phase, pending: seq<Handle>): World
      requires phase.Retiring?
      reads this
    {
      World(records, streams, goal, index, closed, phase.(pending := pending), NO_READING)
    }

    method RetireAll(ghost w0: World, ghost phase: Phase, retired: seq<Handle>, clearOk: Handle -> bool)
      returns (ok: bool)
      requires Inv(w0) && phase.Retiring? && Reaches(w0, Midway(phase, retired))
      modifies this`records, this`index
      ensures ok <==> AllClear(retired, clearOk)
      ensures ok ==> Reaches(w0, Midway(phase, [])) && AllHalted(records, retired)
      ensures !ok ==> Reaches(w0, View())
      ensures !ok ==> exists h :: h in retired && h < |records| && records[h].closed && !clearOk(h)
    {
      assert retired[0..] == retired;
      for i := 0 to |retired|
        invariant Reaches(w0, Midway(phase, retired[i..]))
        invariant AllClear(retired[..i], clearOk) && AllHalted(records, retired[..i])
      {
        ClearsNext(retired, clearOk, i);
        assert retired[i..][1..] == retired[i + 1..];
        HaltedNext(records, retired, i);
        RetireOne(w0, phase, retired[i..], clearOk(retired[i]));
        if !clearOk(retired[i]) {
          assert retired[i] in retired;
          return false;
        }
      }
      assert retired[|retired|..] == [] && retired[..|retired|] == retired;
      ok := true;
    }

    /** Close one retired stream, wait for its threads and clear its Pod. */
    method RetireOne(ghost w0: World, ghost phase: Phase, pending: seq<Handle>, cleared: bool)
      requires Inv(w0) && phase.Retiring? && pending != [] && Reaches(w0, Midway(phase, pending))
      modifies this`records, this`index
      ensures cleared ==> Reaches(w0, Midway(phase, pending[1..]))
      ensures !cleared ==> Reaches(w0, View())
      ensures pending[0] < |old(records)| && records == old(records)[pending[0] := Halted(old(records)[pending[0]])]
    {
      var h := pending[0];
      RetireHead(w0, Midway(phase, pending), cleared);
      records := records[h := Halted(records[h])];
      if cleared {
        index := WithoutPod(index, records[h].instance.pod);
      }
    }

    method StartAll(ghost w0: World, additions: seq<Handle>)
      requires Inv(w0)
      requires Reaches(w0, World(records, streams, goal, index, closed, Starting(additions), NO_READING))
      modifies this`records
      ensures Reaches(w0, View()) && |records| == |old(records)|
      ensures forall h :: 0 <= h < |records| ==> SameFlags(records[h], old(records)[h])
    {
      ghost var w := World(records, streams, goal, index, closed, Starting(additions), NO_READING);
      assert additions[0..] == additions;
      for i := 0 to |additions|
        invariant Reaches(w0, w)
        invariant w == World(records, streams, goal, index, closed, Starting(additions[i..]), NO_READING)
        invariant |records| == |old(records)|
        invariant forall h :: 0 <= h < |records| ==> SameFlags(records[h], old(records)[h])
      {
        var h := additions[i];
        StartFirst(w0, w);
        records := records[h := records[h].(started := true)];
        assert additions[i..][1..] == additions[i + 1..];
        w := World(records, streams, goal, index, closed, Starting(additions[i + 1..]), NO_READING);
      }
      AllStarted(w0, w);
      assert View() == w.(phase := Settled);
    }

    /** Stop and clear every published stream; failing clears are reported, not retried. */
    method Close(clearOk: Handle -> bool) returns (clean: bool)
      requires Inv(View()) && Ready(View())
      modifies this
      ensures Inv(View()) && Ready(View()) && closed && streams == old(streams) && Reaches(old(View()), View())
      ensures old(closed) ==> clean && View() == old(View())
      ensures !old(closed) ==> (clean <==> forall h :: h in old(streams).Values ==> clearOk(h))
      ensures !old(closed) && clean ==> index == {}
    {
      ReachesSelf(View());
      if closed {
        return true;
      }
      ghost var w0 := View();
      var all := PublishedStreams();
      closed, clean := true, true;
      ghost var w := World(records, streams, goal, index, closed, ShuttingDown(all, true), NO_READING);
      ReachesNext(w0, w0, BeginClose(all));
      assert all[0..] == all;
      for i := 0 to |all|
        invariant Reaches(w0, w) && closed && streams == w0.published && goal == w0.goal
        invariant w == World(records, streams, goal, index, closed, ShuttingDown(all[i..], clean), NO_READING)
        invariant clean <==> AllClear(all[..i], clearOk)
      {
        var h := all[i];
        ClearsNext(all, clearOk, i);
        ShutHead(w0, w, clearOk(h));
        records := records[h := Halted(records[h])];
        if clearOk(h) {
          index := WithoutPod(index, records[h].instance.pod);
        } else {
          clean := false;
        }
        assert all[i..][1..] == all[i + 1..];
        w := World(records, streams, goal, index, closed, ShuttingDown(all[i + 1..], clean), NO_READING);
      }
      ShutdownReturns(w0, w);
      assert View() == w.(phase := Settled);
      ReachesReady(w0, View());
      assert all[..|all|] == all;
      ClearsMean(all, clearOk);
    }

    method PublishedStreams() returns (all: seq<Handle>)
      ensures forall h :: h in all <==> h in streams.Values
    {
      all := [];
      var todo := streams.Keys;
      while todo != {}
        invariant todo <= streams.Keys
        invariant forall h :: h in all ==> h in streams.Values
        invariant forall b :: b in streams && b !in todo ==> streams[b] in all
        decreases todo
      {
        var b :| b in todo;
        todo := todo - {b};
        all := all + [streams[b]];
      }
    }

    /** First half of a lookup: fix the streams to query and answer for the others. A closed
        service refuses. */
    method LookupInputs(backends: seq<string>, model: string, timely: Handle -> bool)
      returns (ok: bool, selected: map<string, Handle>, matches: map<string, Match>)
      ensures ok <==> !closed
      ensures ok ==> InputsAnswer(records, streams, backends, model, timely, selected, matches)
      ensures !ok ==> selected == map[] && matches == map[]
      ensures forall b :: b in selected <==>
                && !closed && b in backends && b in streams && streams[b] < |records|
                && records[streams[b]].instance.model == model
                && !records[streams[b]].closed && records[streams[b]].valid && timely(streams[b])
    {
      selected, matches := map[], map[];
      if closed {
        return false, selected, matches;
      }
      for i := 0 to |backends|
        invariant forall b :: b in backends[..i] <==> b in selected || b in matches
        invariant forall b :: b in selected ==>
                    b in streams && selected[b] == streams[b]
                    && Serving(records, model, streams[b]) && Answers(records, timely, streams[b])
        invariant forall b :: b in matches ==>
                    matches[b] == if b !in streams then Unknown
                                  else if !Serving(records, model, streams[b]) then ModelMismatch else Unusable
        invariant forall b :: b in matches && b in streams && Serving(records, model, streams[b]) ==>
                    !Answers(records, timely, streams[b])
      {
        var b := backends[i];
        if b !in streams {
          matches := matches[b := Unknown];
        } else if !Serving(records, model, streams[b]) {
          matches := matches[b := ModelMismatch];
        } else if !Answers(records, timely, streams[b]) {
          matches := matches[b := Unusable];
        } else {
          selected := selected[b := streams[b]];
        }
      }
      assert backends[..|backends|] == backends;
      ok := true;
    }

    /** The second check of one backend, in whatever state the service is by then. */
    method CurrentState(b: string, expected: Handle, timely: Handle -> bool) returns (m: Match)
      ensures m == SecondCheck(records, streams, timely, b, expected)
      ensures m.LifecycleChanging? <==> b !in streams || streams[b] != expected
      ensures m.Usable? <==> b in streams && streams[b] == expected && expected < |records|
                             && !records[expected].closed && records[expected].valid && timely(expected)
    {
      if b !in streams || streams[b] != expected {
        return LifecycleChanging;
      }
      if !Answers(records, timely, streams[b]) {
        return Unusable;
      }
      return Usable(expected);
    }

    /** Second half, when nothing moves between its checks. */
    method FinishLookup(selected: map<string, Handle>, matches: map<string, Match>, timely: Handle -> bool)
      returns (result: map<string, Match>)
      requires selected.Keys !! matches.Keys
      ensures var v := View(); FinishAnswer(_ => v, timely, selected, matches, result)
    {
      result := matches;
      var todo := selected.Keys;
      while todo != {}
        invariant todo <= selected.Keys && result.Keys == matches.Keys + (selected.Keys - todo)
        invariant forall b :: b in matches ==> result[b] == matches[b]
        invariant forall b :: b in selected && b !in todo ==>
                    result[b] == SecondCheck(records, streams, timely, b, selected[b])
        decreases todo
      {
        var b :| b in todo;
        todo := todo - {b};
        var m := CurrentState(b, selected[b], timely);
        result := result[b := m];
      }
    }
  }
}
