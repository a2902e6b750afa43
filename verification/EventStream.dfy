/**
 One Pod's KV event stream: live events and replayed events feed the Pod's part
 of the block index through a single sequence discipline.

 The first half is the stream as values: what each critical section does, and
 the interleavings of the live thread, the replay thread and the lifecycle owner.
 The class at the end is the stream as the program keeps it, field by field.
 */
module EventStreams {
  import opened Wrappers
  import opened Int64

  const RESET_MAX_NEAR_ZERO: U64 := 1
  const RESET_MIN_PREVIOUS: U64 := 4

  datatype Reason =
    | NoReason
    | ReplayNotConfirmed
    | HeartbeatStale
    | SequenceGap
    | SequenceReset
    | UnrecoverableGap
    | EventTooLarge
    | Faulted(fault: Fault)
    | ReplayCapacityExceeded
    | LifecycleChanging
    | StreamClosed

  /** The reasons a failing apply can report. */
  datatype Fault = ApplyFailed | DecodeFailed | UnsupportedEvent | KeyMismatch

  predicate IsFatal(r: Reason) {
    !(r.NoReason? || r.ReplayNotConfirmed? || r.SequenceGap? || r.SequenceReset?)
  }

  datatype Config = Config(topic: string, maxEventBytes: nat, maxReplayEvents: nat, freshnessTTL: nat)

  predicate ValidConfig(c: Config) {
    c.maxEventBytes > 0 && c.maxReplayEvents > 0 && c.freshnessTTL > 0
  }

  // ---------------------------------------------------------------- the index

  type BlockHash = nat
  type Locality = set<BlockHash>

  datatype Item = Stored(blocks: set<BlockHash>) | Removed(blocks: set<BlockHash>) | AllCleared

  datatype Event = Event(topic: string, sequence: U64, bytes: nat, items: seq<Item>)

  function ApplyItem(l: Locality, item: Item): Locality {
    match item
    case Stored(blocks) => l + blocks
    case Removed(blocks) => l - blocks
    case AllCleared => {}
  }

  function ApplyItems(l: Locality, items: seq<Item>): Locality {
    if items == [] then l
    else ApplyItem(ApplyItems(l, items[..|items| - 1]), items[|items| - 1])
  }

  /** What an initially empty index holds after each batch was applied once, in order. */
  function Contents(batches: seq<Event>): Locality {
    if batches == [] then {}
    else ApplyItems(Contents(batches[..|batches| - 1]), batches[|batches| - 1].items)
  }

  /** A failing apply has written a prefix of the batch; a failing clear leaves anything. */
  datatype ApplyOutcome = Applied | Failed(fault: Fault, written: nat)
  datatype ClearOutcome = Cleared | ClearFailed(left: Locality)
  datatype Env = Env(apply: ApplyOutcome, resetClear: ClearOutcome, faultClear: ClearOutcome)

  // ---------------------------------------------------------------- the stream

  /** The published state, the Pod's index contents, and five history variables:
      `history`, the batches applied in this generation (since the last sequence reset);
      `first`, the sequence the generation begins with: 0, or that of the reset event that began it;
      `cleared`, how many of them were applied before the last Clear call;
      `residue`, whether that Clear failed, so the index may hold anything;
      `gaps`, the sequences a live gap skipped to in this generation. */
  datatype Stream = Stream(
    hasSeq: bool, lastSeq: U64, gapUntil: U64, reason: Reason,
    lastReplayAt: Option<int>, closed: bool, index: Locality,
    history: seq<Event>, first: U64, cleared: nat, residue: bool, gaps: set<U64>)

  function NewStream(): Stream {
    Stream(false, 0, 0, ReplayNotConfirmed, None, false, {}, [], 0, 0, false, {})
  }

  function Expected(s: Stream): U64 {
    if s.hasSeq then (s.lastSeq + 1) % U64_LIMIT else 0
  }

  predicate IsSequenceReset(sequence: U64, previous: U64) {
    sequence <= RESET_MAX_NEAR_ZERO && previous >= RESET_MIN_PREVIOUS && sequence < previous / 2
  }

  datatype Verdict = Duplicate | InOrder | Gap | Reset

  function Classify(s: Stream, sequence: U64, replayed: bool): (Stream, Verdict) {
    if s.hasSeq && IsSequenceReset(sequence, s.lastSeq) then
      (s.(hasSeq := false, lastSeq := 0, gapUntil := 0, lastReplayAt := None, reason := SequenceReset,
          history := [], first := 0, cleared := 0, residue := true, gaps := {}), Reset)
    else if sequence < Expected(s) then (s, Duplicate)
    else if sequence == Expected(s) then (s, InOrder)
    else if replayed then (s, Gap)
    else
      (s.(reason := SequenceGap, gapUntil := if sequence > s.gapUntil then sequence else s.gapUntil,
          gaps := s.gaps + {sequence}), Gap)
  }

  function Clear(s: Stream, outcome: ClearOutcome): Stream {
    match outcome
    case Cleared => s.(index := {}, cleared := |s.history|, residue := false)
    case ClearFailed(left) => s.(index := left, cleared := |s.history|, residue := true)
  }

  function InvalidateAndClear(s: Stream, reason: Reason, outcome: ClearOutcome): Stream {
    Clear(s.(reason := reason), outcome)
  }

  function Min(a: nat, b: nat): nat { if a <= b then a else b }

  /** Apply the batch to the index; the sequence moves only when all of it was written. A generation
      whose first batch fails begins again at 0. */
  function Commit(s: Stream, e: Event, env: Env): (Stream, bool) {
    match env.apply
    case Applied =>
      (s.(index := ApplyItems(s.index, e.items), hasSeq := true, lastSeq := e.sequence,
          history := s.history + [e]), true)
    case Failed(fault, written) =>
      (InvalidateAndClear(s.(index := ApplyItems(s.index, e.items[..Min(written, |e.items|)]),
                             first := if s.hasSeq then s.first else 0),
                          Faulted(fault), env.faultClear), false)
  }

  /** One accepted event, from the size check to the committed sequence; false is an error return. */
  function Accept(c: Config, s: Stream, e: Event, replayed: bool, env: Env): (Stream, bool) {
    if e.bytes > c.maxEventBytes then (InvalidateAndClear(s, EventTooLarge, env.faultClear), false)
    else if e.topic != c.topic then (InvalidateAndClear(s, Faulted(DecodeFailed), env.faultClear), false)
    else
      var (t, verdict) := Classify(s, e.sequence, replayed);
      match verdict
      case Duplicate => (t, true)
      case InOrder => Commit(t, e, env)
      case Gap => (if replayed then InvalidateAndClear(t, UnrecoverableGap, env.faultClear) else t, false)
      case Reset => Restart(t, e, env)
  }

  /** After a sequence reset: clear the old generation away, then apply the first batch of the new. */
  function Restart(s: Stream, e: Event, env: Env): (Stream, bool) {
    if env.resetClear.ClearFailed? then (Clear(s, env.resetClear).(reason := Faulted(ApplyFailed)), false)
    else Commit(Clear(s, env.resetClear).(first := e.sequence), e, env)
  }

  /** The replay END marker: the only step that can make a stream usable again. */
  function ReplayConfirmed(s: Stream, now: int): Stream {
    var t := s.(lastReplayAt := Some(now));
    match s.reason
    case ReplayNotConfirmed => t.(reason := NoReason)
    case SequenceReset => t.(reason := NoReason)
    case SequenceGap =>
      if s.hasSeq && s.lastSeq >= s.gapUntil then t.(reason := NoReason, gapUntil := 0) else t
    case _ => t
  }

  function MarkClosed(s: Stream): Stream {
    if s.closed then s
    else s.(closed := true,
            reason := if s.reason.NoReason? || s.reason.ReplayNotConfirmed? then StreamClosed else s.reason)
  }

  function Freshness(s: Stream, now: int): nat {
    if s.lastReplayAt.Some? && now > s.lastReplayAt.value then now - s.lastReplayAt.value else 0
  }

  /** The Valid field of the snapshot taken at `now`. */
  predicate SnapshotValid(c: Config, s: Stream, now: int) {
    !s.closed && s.reason == NoReason && s.lastReplayAt.Some? && Freshness(s, now) <= c.freshnessTTL
  }

  // ---------------------------------------------------------------- the threads

  datatype LiveThread = Following | FollowReturned | LiveExited
  datatype ReplayThread = ReplayIdle | Replaying(count: nat) | ReplayReturned | ReplayExited

  datatype System = System(stream: Stream, live: LiveThread, replay: ReplayThread)

  function NewSystem(): System { System(NewStream(), Following, ReplayIdle) }

  datatype Op =
    | LiveEvent(live: Event, liveEnv: Env)
    | LiveTransportError
    | LiveCheck
    | ReplayBegin
    | ReplayEvent(replayed: Event, replayEnv: Env)
    | ReplayTransportError
    | ReplayEnd(at: int)
    | ReplayCheck
    | LifecycleInvalidate(closing: bool)
    | CloseStream
    | CancelLive
    | CancelReplay

  /** One atomic step; an operation whose thread is not at that point changes nothing. */
  function Next(c: Config, y: System, op: Op): System {
    var s := y.stream;
    match op
    case LiveEvent(e, env) =>
      if !y.live.Following? then y
      else var (t, ok) := Accept(c, s, e, false, env);
           y.(stream := t, live := if ok then Following else FollowReturned)
    case LiveTransportError => if y.live.Following? then y.(live := FollowReturned) else y
    case LiveCheck =>
      if y.live.FollowReturned? then y.(live := if IsFatal(s.reason) then LiveExited else Following) else y
    case ReplayBegin =>
      if y.replay.ReplayIdle? then y.(replay := if IsFatal(s.reason) then ReplayReturned else Replaying(0)) else y
    case ReplayEvent(e, env) =>
      if !y.replay.Replaying? then y
      else
        var (t, ok) := TakeReplayed(c, s, e, env, y.replay.count);
        y.(stream := t, replay := if ok then Replaying(y.replay.count + 1) else ReplayReturned)
    case ReplayTransportError => if y.replay.Replaying? then y.(replay := ReplayReturned) else y
    case ReplayEnd(at) =>
      if y.replay.Replaying? then y.(stream := ReplayConfirmed(s, at), replay := ReplayReturned) else y
    case ReplayCheck =>
      if y.replay.ReplayReturned? then y.(replay := if IsFatal(s.reason) then ReplayExited else ReplayIdle) else y
    case LifecycleInvalidate(closing) =>
      y.(stream := s.(reason := if closing then StreamClosed else LifecycleChanging))
    case CloseStream => y.(stream := MarkClosed(s))
    case CancelLive => y.(live := LiveExited)
    case CancelReplay => y.(replay := ReplayExited)
  }

  /** One replayed event within the session's capacity. */
  function TakeReplayed(c: Config, s: Stream, e: Event, env: Env, count: nat): (Stream, bool) {
    if count >= c.maxReplayEvents then (InvalidateAndClear(s, ReplayCapacityExceeded, env.faultClear), false)
    else Accept(c, s, e, true, env)
  }

  function Run(c: Config, y: System, ops: seq<Op>): System
    decreases |ops|
  {
    if ops == [] then y else Run(c, Next(c, y, ops[0]), ops[1..])
  }

  // ---------------------------------------------------------------- every run

  ghost predicate Consecutive(batches: seq<Event>) {
    forall i :: 0 <= i < |batches| ==> batches[i].sequence == batches[0].sequence + i
  }

  /** Batch n of the current generation has been applied. */
  ghost predicate AppliedIn(s: Stream, n: U64) {
    exists i :: 0 <= i < |s.history| && s.history[i].sequence == n
  }

  ghost predicate Covered(s: Stream, n: U64) { s.hasSeq && n <= s.lastSeq }

  ghost predicate SequenceInv(s: Stream) {
    && Consecutive(s.history)
    && s.hasSeq == (s.history != [])
    && s.first <= RESET_MAX_NEAR_ZERO
    && (s.hasSeq ==> s.history[0].sequence == s.first && s.history[|s.history| - 1].sequence == s.lastSeq)
    && s.cleared <= |s.history|
    && (!s.residue ==> s.index == Contents(s.history[s.cleared..]))
  }

  ghost predicate GapInv(s: Stream) {
    && (forall n :: n in s.gaps ==> n >= 1 && (n <= s.gapUntil || Covered(s, n)))
    && (s.reason.NoReason? || s.reason.ReplayNotConfirmed? || s.reason.SequenceReset? ==>
          forall n :: n in s.gaps ==> Covered(s, n))
    && (s.gapUntil == 0 || s.gapUntil in s.gaps)
    && (s.reason.SequenceGap? ==> s.gapUntil in s.gaps)
  }

  ghost predicate Inv(s: Stream) { SequenceInv(s) && GapInv(s) && (!s.hasSeq ==> s.first == 0) }

  lemma ContentsSnoc(batches: seq<Event>, e: Event)
    ensures Contents(batches + [e]) == ApplyItems(Contents(batches), e.items)
  {
    assert (batches + [e])[..|batches + [e]| - 1] == batches;
  }

  lemma ClearKeepsInv(s: Stream, outcome: ClearOutcome)
    requires SequenceInv(s.(residue := true)) && GapInv(s)
    ensures SequenceInv(Clear(s, outcome)) && GapInv(Clear(s, outcome))
  {
    assert s.history[|s.history|..] == [];
  }

  lemma AppliedKeepsInv(s: Stream, e: Event, env: Env)
    requires SequenceInv(s) && GapInv(s) && env.apply.Applied?
    requires e.sequence == if s.hasSeq then s.lastSeq + 1 else s.first
    ensures Inv(Commit(s, e, env).0)
  {
    var t := Commit(s, e, env).0;
    AppliedKeepsOrder(s.history, e, s.first, s.hasSeq, s.lastSeq);
    assert t.history[t.cleared..] == s.history[s.cleared..] + [e];
    ContentsSnoc(s.history[s.cleared..], e);
    assert SequenceInv(t);
    AppliedKeepsGaps(s, t);
  }

  lemma AppliedKeepsOrder(batches: seq<Event>, e: Event, first: U64, has: bool, last: U64)
    requires Consecutive(batches) && has == (batches != [])
    requires has ==> batches[0].sequence == first && batches[|batches| - 1].sequence == last
    requires e.sequence == if has then last + 1 else first
    ensures Consecutive(batches + [e]) && (batches + [e])[0].sequence == first
  {
    if has { assert batches[|batches| - 1].sequence == batches[0].sequence + (|batches| - 1); }
  }

  lemma AppliedKeepsGaps(s: Stream, t: Stream)
    requires GapInv(s) && t.gaps == s.gaps && t.gapUntil == s.gapUntil && t.reason == s.reason
    requires t.hasSeq && (s.hasSeq ==> s.lastSeq <= t.lastSeq)
    ensures GapInv(t)
  {
    forall n | n in s.gaps && Covered(s, n) ensures Covered(t, n) {}
  }

  lemma FaultKeepsInv(s: Stream, e: Event, env: Env)
    requires SequenceInv(s) && GapInv(s) && env.apply.Failed?
    ensures Inv(Commit(s, e, env).0)
  {
    var u := s.(index := ApplyItems(s.index, e.items[..Min(env.apply.written, |e.items|)]),
                first := if s.hasSeq then s.first else 0, reason := Faulted(env.apply.fault));
    assert SequenceInv(u.(residue := true)) && GapInv(u);
    ClearKeepsInv(u, env.faultClear);
    assert Commit(s, e, env).0 == Clear(u, env.faultClear);
  }

  lemma CommitKeepsInv(s: Stream, e: Event, env: Env)
    requires SequenceInv(s) && GapInv(s)
    requires e.sequence == if s.hasSeq then s.lastSeq + 1 else s.first
    ensures Inv(Commit(s, e, env).0)
  {
    if env.apply.Applied? { AppliedKeepsInv(s, e, env); } else { FaultKeepsInv(s, e, env); }
  }

  lemma RestartKeepsInv(s: Stream, e: Event, env: Env)
    requires Inv(s) && !s.hasSeq && e.sequence <= RESET_MAX_NEAR_ZERO
    ensures Inv(Restart(s, e, env).0)
  {
    var t := Clear(s, env.resetClear);
    ClearKeepsInv(s, env.resetClear);
    if env.resetClear.ClearFailed? {
      SameBatches(t, t.(reason := Faulted(ApplyFailed)));
    } else {
      var u := t.(first := e.sequence);
      assert SequenceInv(u) && GapInv(u);
      CommitKeepsInv(u, e, env);
    }
  }

  lemma FailKeepsInv(s: Stream, reason: Reason, outcome: ClearOutcome)
    requires Inv(s) && IsFatal(reason)
    ensures Inv(InvalidateAndClear(s, reason, outcome))
  {
    FatalReasonKeepsInv(s, reason);
    ClearKeepsInv(s.(reason := reason), outcome);
  }

  /** The sequence discipline does not look at the published reason or times. */
  lemma SameBatches(s: Stream, t: Stream)
    requires SequenceInv(s)
    requires t.history == s.history && t.first == s.first && t.hasSeq == s.hasSeq && t.lastSeq == s.lastSeq
    requires t.cleared == s.cleared && t.residue == s.residue && t.index == s.index
    ensures SequenceInv(t)
  {
  }

  lemma NoteGapKeepsInv(s: Stream, sequence: U64, gapUntil: U64)
    requires Inv(s) && 1 <= sequence && gapUntil == if sequence > s.gapUntil then sequence else s.gapUntil
    ensures Inv(s.(reason := SequenceGap, gapUntil := gapUntil, gaps := s.gaps + {sequence}))
  {
    SameBatches(s, s.(reason := SequenceGap, gapUntil := gapUntil, gaps := s.gaps + {sequence}));
  }

  lemma ClassifyKeepsInv(s: Stream, sequence: U64, replayed: bool)
    requires Inv(s)
    ensures var (t, verdict) := Classify(s, sequence, replayed);
            && Inv(t)
            && (verdict.Reset? ==> !t.hasSeq && t.residue && sequence <= RESET_MAX_NEAR_ZERO)
            && (verdict.InOrder? ==> t == s && (if s.hasSeq then sequence == s.lastSeq + 1 else sequence == 0))
  {
    var (t, verdict) := Classify(s, sequence, replayed);
    if verdict.Reset? {
      assert SequenceInv(t) && GapInv(t);
    } else if sequence > Expected(s) && !replayed {
      NoteGapKeepsInv(s, sequence, t.gapUntil);
      assert t == s.(reason := SequenceGap, gapUntil := t.gapUntil, gaps := s.gaps + {sequence});
    } else {
      assert t == s;
    }
  }

  lemma AcceptKeepsInv(c: Config, s: Stream, e: Event, replayed: bool, env: Env)
    requires Inv(s)
    ensures Inv(Accept(c, s, e, replayed, env).0)
  {
    if e.bytes > c.maxEventBytes {
      FailKeepsInv(s, EventTooLarge, env.faultClear);
    } else if e.topic != c.topic {
      FailKeepsInv(s, Faulted(DecodeFailed), env.faultClear);
    } else {
      var (t, verdict) := Classify(s, e.sequence, replayed);
      ClassifyKeepsInv(s, e.sequence, replayed);
      match verdict
      case Duplicate =>
      case InOrder => CommitKeepsInv(s, e, env);
      case Gap => if replayed { FailKeepsInv(t, UnrecoverableGap, env.faultClear); }
      case Reset => RestartKeepsInv(t, e, env);
    }
  }

  lemma ConfirmKeepsInv(s: Stream, now: int)
    requires Inv(s)
    ensures Inv(ReplayConfirmed(s, now))
  {
    SameBatches(s, ReplayConfirmed(s, now));
    ConfirmKeepsGaps(s, now);
  }

  lemma ConfirmKeepsGaps(s: Stream, now: int)
    requires GapInv(s)
    ensures GapInv(ReplayConfirmed(s, now))
  {
    var t := ReplayConfirmed(s, now);
    assert forall n :: Covered(t, n) == Covered(s, n);
    if s.reason.SequenceGap? && t.reason.NoReason? {
      forall n | n in s.gaps ensures Covered(s, n) {
        assert n <= s.gapUntil || Covered(s, n);
      }
    }
  }

  lemma FatalReasonKeepsInv(s: Stream, reason: Reason)
    requires Inv(s) && IsFatal(reason)
    ensures Inv(s.(reason := reason)) && Inv(s.(reason := reason, closed := true))
  {
    SameBatches(s, s.(reason := reason));
    SameBatches(s, s.(reason := reason, closed := true));
  }

  lemma MarkClosedKeepsInv(s: Stream)
    requires Inv(s)
    ensures Inv(MarkClosed(s))
  {
    SameBatches(s, MarkClosed(s));
    assert forall n :: Covered(MarkClosed(s), n) == Covered(s, n);
  }

  lemma NextKeepsInv(c: Config, y: System, op: Op)
    requires Inv(y.stream)
    ensures Inv(Next(c, y, op).stream)
  {
    match op
    case LiveEvent(e, env) => AcceptKeepsInv(c, y.stream, e, false, env);
    case ReplayEvent(e, env) =>
      if y.replay.Replaying? && y.replay.count >= c.maxReplayEvents {
        FailKeepsInv(y.stream, ReplayCapacityExceeded, env.faultClear);
      } else {
        AcceptKeepsInv(c, y.stream, e, true, env);
      }
    case ReplayEnd(at) => ConfirmKeepsInv(y.stream, at);
    case LifecycleInvalidate(closing) =>
      FatalReasonKeepsInv(y.stream, if closing then StreamClosed else LifecycleChanging);
    case CloseStream => MarkClosedKeepsInv(y.stream);
    case _ =>
  }

  lemma {:induction false} RunKeepsInv(c: Config, y: System, ops: seq<Op>)
    requires Inv(y.stream)
    ensures Inv(Run(c, y, ops).stream)
    decreases |ops|
  {
    if ops != [] {
      NextKeepsInv(c, y, ops[0]);
      RunKeepsInv(c, Next(c, y, ops[0]), ops[1..]);
    }
  }

  /** In every interleaving, faults included, the batches applied since the last Clear
      are consecutive and end at lastSeq. */
  lemma AppliedSuffixIsConsecutive(c: Config, ops: seq<Op>)
    ensures var s := Run(c, NewSystem(), ops).stream;
            && s.cleared <= |s.history|
            && (var since := s.history[s.cleared..];
                && Consecutive(since)
                && (since != [] ==> s.hasSeq && since[|since| - 1].sequence == s.lastSeq)
                && (!s.residue ==> s.index == Contents(since)))
  {
    RunKeepsInv(c, NewSystem(), ops);
    SuffixIsConsecutive(Run(c, NewSystem(), ops).stream);
  }

  lemma SuffixIsConsecutive(s: Stream)
    requires SequenceInv(s)
    ensures Consecutive(s.history[s.cleared..])
    ensures s.cleared < |s.history| ==>
              s.hasSeq && s.history[s.cleared..][|s.history| - s.cleared - 1].sequence == s.lastSeq
  {
  }

  /** In every interleaving, once a live gap skipped to n the snapshot is not Valid until
      batch n itself has been applied in that generation (a reset forgets the gap). */
  lemma GapsAreClosedBeforeValid(c: Config, ops: seq<Op>, now: int, n: U64)
    requires var s := Run(c, NewSystem(), ops).stream; n in s.gaps && SnapshotValid(c, s, now)
    ensures AppliedIn(Run(c, NewSystem(), ops).stream, n)
  {
    RunKeepsInv(c, NewSystem(), ops);
    var s := Run(c, NewSystem(), ops).stream;
    assert Covered(s, n);
    assert s.history[n - s.history[0].sequence].sequence == n;
  }

  lemma AppliedIsCovered(s: Stream, n: U64)
    requires SequenceInv(s) && n >= s.first
    ensures AppliedIn(s, n) <==> Covered(s, n)
  {
    if AppliedIn(s, n) {
      var i :| 0 <= i < |s.history| && s.history[i].sequence == n;
      assert s.history[|s.history| - 1].sequence == s.history[0].sequence + (|s.history| - 1);
    }
    if Covered(s, n) { assert s.history[n - s.history[0].sequence].sequence == n; }
  }

  lemma GapsAppliedIff(s: Stream)
    requires Inv(s)
    ensures (forall n :: n in s.gaps ==> AppliedIn(s, n)) <==> forall n :: n in s.gaps ==> Covered(s, n)
  {
    forall n | n in s.gaps ensures AppliedIn(s, n) <==> Covered(s, n) { AppliedIsCovered(s, n); }
  }

  /** Exactly when a replay END makes a stream Valid, after any run: the stream is open, nothing fatal has
      happened, and every batch that a live gap skipped to in this generation has been applied; and it is
      Valid from then on until the freshness TTL is over. */
  lemma ReplayEndIsValidIff(c: Config, past: seq<Op>, at: int, now: int)
    requires Run(c, NewSystem(), past).replay.Replaying?
    ensures var y := Run(c, NewSystem(), past);
            var (s, r) := (y.stream, y.stream.reason);
            SnapshotValid(c, Next(c, y, ReplayEnd(at)).stream, now) <==>
            && !s.closed
            && (r.NoReason? || r.ReplayNotConfirmed? || r.SequenceGap? || r.SequenceReset?)
            && (forall n :: n in s.gaps ==> AppliedIn(s, n))
            && now - at <= c.freshnessTTL
  {
    RunKeepsInv(c, NewSystem(), past);
    var s := Run(c, NewSystem(), past).stream;
    GapsAppliedIff(s);
    EndResolves(s, at);
  }

  lemma EndResolves(s: Stream, at: int)
    requires GapInv(s)
    ensures var t := ReplayConfirmed(s, at);
            && t.closed == s.closed && t.lastReplayAt == Some(at)
            && (t.reason.NoReason? <==>
                  && (s.reason.NoReason? || s.reason.ReplayNotConfirmed? || s.reason.SequenceGap?
                      || s.reason.SequenceReset?)
                  && forall n :: n in s.gaps ==> Covered(s, n))
  {
    if s.reason.SequenceGap? { assert Covered(s, s.gapUntil) <==> s.hasSeq && s.lastSeq >= s.gapUntil; }
  }

  /** A fault stops both threads at their next check and lets no replay begin; a transport error or an END
      alone does not stop them. */
  lemma FaultStopsThreads(c: Config, y: System, at: int)
    ensures var r := y.stream.reason;
            var calm := r.NoReason? || r.ReplayNotConfirmed? || r.SequenceGap? || r.SequenceReset?;
            && (y.live.FollowReturned? ==> Next(c, y, LiveCheck).live == if calm then Following else LiveExited)
            && (y.replay.ReplayIdle? ==>
                  Next(c, y, ReplayBegin).replay == if calm then Replaying(0) else ReplayReturned)
            && (y.replay.ReplayReturned? ==>
                  Next(c, y, ReplayCheck).replay == if calm then ReplayIdle else ReplayExited)
            && (y.live.Following? ==>
                  Next(c, Next(c, y, LiveTransportError), LiveCheck)
                  == y.(live := if calm then Following else LiveExited))
            && (y.replay.Replaying? ==>
                  Next(c, Next(c, y, ReplayTransportError), ReplayCheck)
                  == y.(replay := if calm then ReplayIdle else ReplayExited)
                  && Next(c, Next(c, y, ReplayEnd(at)), ReplayCheck).replay
                     == if calm then ReplayIdle else ReplayExited)
  {
  }

  /** A cancelled thread never acts again: in no continuation does one of its events change anything. */
  lemma {:induction false} CancelledStaysSilent(c: Config, y: System, ops: seq<Op>, e: Event, env: Env, at: int)
    ensures var v := Run(c, Next(c, y, CancelLive), ops);
            v.live.LiveExited? && Next(c, v, LiveEvent(e, env)) == v
    ensures var v := Run(c, Next(c, y, CancelReplay), ops);
            v.replay.ReplayExited? && Next(c, v, ReplayEvent(e, env)) == v && Next(c, v, ReplayEnd(at)) == v
  {
    LiveStaysExited(c, Next(c, y, CancelLive), ops);
    ReplayStaysExited(c, Next(c, y, CancelReplay), ops);
  }

  lemma {:induction false} LiveStaysExited(c: Config, y: System, ops: seq<Op>)
    requires y.live.LiveExited?
    ensures Run(c, y, ops).live.LiveExited?
    decreases |ops|
  {
    if ops != [] { LiveStaysExited(c, Next(c, y, ops[0]), ops[1..]); }
  }

  lemma {:induction false} ReplayStaysExited(c: Config, y: System, ops: seq<Op>)
    requires y.replay.ReplayExited?
    ensures Run(c, y, ops).replay.ReplayExited?
    decreases |ops|
  {
    if ops != [] { ReplayStaysExited(c, Next(c, y, ops[0]), ops[1..]); }
  }

  lemma NextReplayTime(c: Config, y: System, op: Op)
    ensures var r := Next(c, y, op).stream.lastReplayAt;
            r.None? || r == y.stream.lastReplayAt || op == ReplayEnd(r.value)
  {
    match op
    case LiveEvent(e, env) => AcceptReplayTime(c, y.stream, e, false, env);
    case ReplayEvent(e, env) => AcceptReplayTime(c, y.stream, e, true, env);
    case _ =>
  }

  lemma AcceptReplayTime(c: Config, s: Stream, e: Event, replayed: bool, env: Env)
    ensures var r := Accept(c, s, e, replayed, env).0.lastReplayAt; r.None? || r == s.lastReplayAt
    ensures Accept(c, s, e, replayed, env).0.closed == s.closed
  {
    if e.bytes <= c.maxEventBytes && e.topic == c.topic {
      var (t, verdict) := Classify(s, e.sequence, replayed);
      if verdict.InOrder? {
        CommitReplayTime(s, e, env);
      } else if verdict.Reset? {
        CommitReplayTime(Clear(t, env.resetClear).(first := e.sequence), e, env);
      }
    }
  }

  lemma CommitReplayTime(s: Stream, e: Event, env: Env)
    ensures Commit(s, e, env).0.lastReplayAt == s.lastReplayAt && Commit(s, e, env).0.closed == s.closed
  {
  }

  lemma {:induction false} ReplayTimeIsFromAnEnd(c: Config, y: System, ops: seq<Op>)
    ensures var r := Run(c, y, ops).stream.lastReplayAt;
            r.None? || r == y.stream.lastReplayAt || ReplayEnd(r.value) in ops
    decreases |ops|
  {
    if ops != [] {
      NextReplayTime(c, y, ops[0]);
      ReplayTimeIsFromAnEnd(c, Next(c, y, ops[0]), ops[1..]);
      assert forall op :: op in ops[1..] ==> op in ops;
    }
  }

  /** In every run a Valid snapshot rests on a replay that reached END within the freshness TTL. */
  lemma ValidMeansFresh(c: Config, ops: seq<Op>, now: int)
    requires SnapshotValid(c, Run(c, NewSystem(), ops).stream, now)
    ensures exists at :: ReplayEnd(at) in ops && now - at <= c.freshnessTTL
  {
    ReplayTimeIsFromAnEnd(c, NewSystem(), ops);
    var r := Run(c, NewSystem(), ops).stream.lastReplayAt;
    assert ReplayEnd(r.value) in ops && now - r.value <= c.freshnessTTL;
  }

  lemma NextKeepsClosed(c: Config, y: System, op: Op)
    requires y.stream.closed
    ensures Next(c, y, op).stream.closed
  {
    match op
    case LiveEvent(e, env) => AcceptReplayTime(c, y.stream, e, false, env);
    case ReplayEvent(e, env) => AcceptReplayTime(c, y.stream, e, true, env);
    case _ =>
  }

  /** Closing is permanent: no continuation makes a closed stream Valid again. */
  lemma {:induction false} ClosedStaysInvalid(c: Config, y: System, ops: seq<Op>, now: int)
    requires y.stream.closed
    ensures Run(c, y, ops).stream.closed && !SnapshotValid(c, Run(c, y, ops).stream, now)
    decreases |ops|
  {
    if ops != [] {
      NextKeepsClosed(c, y, ops[0]);
      ClosedStaysInvalid(c, Next(c, y, ops[0]), ops[1..], now);
    }
  }

  // ---------------------------------------------------------------- what Valid promises

  /** Part of the generation has been cleared away, or a Clear failed. */
  predicate Broken(s: Stream) { s.cleared > 0 || s.residue }

  /** The index holds the whole generation: every batch from its first sequence through
      lastSeq applied exactly once and in order. */
  ghost predicate Complete(s: Stream) {
    && s.index == Contents(s.history)
    && Consecutive(s.history)
    && s.hasSeq == (s.history != [])
    && (s.hasSeq ==> s.history[0].sequence == s.first && s.history[|s.history| - 1].sequence == s.lastSeq)
  }

  /** Every exit check the replay thread makes over a broken index sees a fatal reason.
      (A live gap can overwrite the reason between the failed replay and the check.) */
  predicate ExitChecksSeeFault(c: Config, y: System, ops: seq<Op>)
    decreases |ops|
  {
    ops == [] ||
    ((ops[0].ReplayCheck? && y.replay.ReplayReturned? && Broken(y.stream) ==> IsFatal(y.stream.reason))
     && ExitChecksSeeFault(c, Next(c, y, ops[0]), ops[1..]))
  }

  /** A broken index is never announced: either the replay thread is past its last END,
      or the live thread failed and the fatal reason it left still stands. */
  predicate Guarded(y: System) {
    Broken(y.stream) ==>
      && y.stream.reason != NoReason
      && (y.replay.ReplayExited? || y.replay.ReplayReturned?
          || (IsFatal(y.stream.reason) && !y.live.Following?))
  }

  lemma CommitEffect(s: Stream, e: Event, env: Env)
    ensures var (t, ok) := Commit(s, e, env);
            if ok then t.reason == s.reason && Broken(t) == Broken(s) else IsFatal(t.reason)
  {
  }

  /** What one accepted event can do to the reason and to the index's completeness. */
  lemma AcceptEffect(c: Config, s: Stream, e: Event, replayed: bool, env: Env)
    ensures var (t, ok) := Accept(c, s, e, replayed, env);
            && (ok && Broken(t) ==> Broken(s) && t.reason == s.reason)
            && (!ok ==> IsFatal(t.reason) || (!replayed && t.reason == SequenceGap && Broken(t) == Broken(s)))
            && (t.reason == NoReason ==> s.reason == NoReason)
  {
    if e.bytes <= c.maxEventBytes && e.topic == c.topic {
      var (t, verdict) := Classify(s, e.sequence, replayed);
      if verdict.InOrder? {
        CommitEffect(s, e, env);
      } else if verdict.Reset? {
        var u := Clear(t, env.resetClear).(first := e.sequence);
        assert u.reason == SequenceReset && (env.resetClear.Cleared? ==> !Broken(u));
        CommitEffect(u, e, env);
      }
    }
  }

  lemma NextKeepsGuarded(c: Config, y: System, op: Op)
    requires Guarded(y)
    requires op.ReplayCheck? && y.replay.ReplayReturned? && Broken(y.stream) ==> IsFatal(y.stream.reason)
    ensures Guarded(Next(c, y, op))
  {
    match op
    case LiveEvent(e, env) => AcceptEffect(c, y.stream, e, false, env);
    case ReplayEvent(e, env) => AcceptEffect(c, y.stream, e, true, env);
    case _ =>
  }

  lemma {:induction false} RunKeepsGuarded(c: Config, y: System, ops: seq<Op>)
    requires Guarded(y) && ExitChecksSeeFault(c, y, ops)
    ensures Guarded(Run(c, y, ops))
    decreases |ops|
  {
    if ops != [] {
      NextKeepsGuarded(c, y, ops[0]);
      RunKeepsGuarded(c, Next(c, y, ops[0]), ops[1..]);
    }
  }

  /** Whatever the interleaving of live events, replays, resets, faults and failing clears,
      a Valid snapshot means the index is exactly the whole generation so far, from batch 0 unless
      a reset event with sequence 1 began the generation. */
  lemma ValidMeansComplete(c: Config, ops: seq<Op>, now: int)
    requires ExitChecksSeeFault(c, NewSystem(), ops)
    requires SnapshotValid(c, Run(c, NewSystem(), ops).stream, now)
    ensures var s := Run(c, NewSystem(), ops).stream;
            && Complete(s)
            && (s.hasSeq ==> s.history[0].sequence == if BegunAtOne(LastReset(c, NewSystem(), ops)) then 1 else 0)
  {
    RunKeepsInv(c, NewSystem(), ops);
    RunKeepsGuarded(c, NewSystem(), ops);
    RunFirst(c, NewSystem(), ops);
    var s := Run(c, NewSystem(), ops).stream;
    assert s.history[s.cleared..] == s.history;
  }

  // ---------------------------------------------------------------- what one event does

  /** Accept as a table, when Apply and Clear succeed: too large, foreign, first of a new generation, seen
      before, next in order, or beyond a gap. */
  lemma AcceptDecides(c: Config, s: Stream, e: Event, replayed: bool)
    requires Inv(s) && (s.hasSeq ==> s.lastSeq + 1 < U64_LIMIT)
    ensures var (t, ok) := Accept(c, s, e, replayed, QUIET);
            if e.bytes > c.maxEventBytes then
              !ok && t.reason == EventTooLarge && t.index == {} && t.history == s.history
            else if e.topic != c.topic then
              !ok && t.reason == Faulted(DecodeFailed) && t.index == {} && t.history == s.history
            else if s.hasSeq && e.sequence <= 1 && s.lastSeq >= 4 then
              ok && t.history == [e] && t.lastSeq == e.sequence && t.index == ApplyItems({}, e.items)
            else if s.hasSeq && e.sequence <= s.lastSeq then
              ok && t == s
            else if e.sequence == (if s.hasSeq then s.lastSeq + 1 else 0) then
              ok && t.history == s.history + [e] && t.lastSeq == e.sequence && t.index == ApplyItems(s.index, e.items)
              && t.reason == s.reason && t.gaps == s.gaps
            else
              !ok && t.history == s.history && t.lastSeq == s.lastSeq
              && if replayed then t.reason == UnrecoverableGap && t.index == {}
                 else t.reason == SequenceGap && t.index == s.index && e.sequence in t.gaps
  {
    if e.bytes <= c.maxEventBytes && e.topic == c.topic {
      ClassifyDecides(s, e.sequence, replayed);
    }
  }

  /** The same when the batch's Apply fails, or the Clear of a reset: the sequence does not move, the fault
      is the reason, and a successful Clear leaves nothing in the index. */
  lemma FaultDecides(c: Config, s: Stream, e: Event, replayed: bool, env: Env)
    requires Inv(s) && (s.hasSeq ==> s.lastSeq + 1 < U64_LIMIT) && e.bytes <= c.maxEventBytes && e.topic == c.topic
    ensures var (t, ok) := Accept(c, s, e, replayed, env);
            var restarts := s.hasSeq && e.sequence <= 1 && s.lastSeq >= 4;
            && (restarts && env.resetClear.ClearFailed? ==>
                  !ok && t.reason == Faulted(ApplyFailed) && !t.hasSeq && t.lastReplayAt.None?)
            && (env.apply.Failed? && (if restarts then env.resetClear.Cleared?
                                      else e.sequence == if s.hasSeq then s.lastSeq + 1 else 0) ==>
                  && !ok && t.reason == Faulted(env.apply.fault) && t.hasSeq == (s.hasSeq && !restarts)
                  && t.history == (if restarts then [] else s.history)
                  && (env.faultClear.Cleared? ==> t.index == {}))
  {
    ClassifyDecides(s, e.sequence, replayed);
  }

  lemma ClassifyDecides(s: Stream, n: U64, replayed: bool)
    requires s.hasSeq ==> s.lastSeq + 1 < U64_LIMIT
    ensures Classify(s, n, replayed).1
         == if s.hasSeq && n <= 1 && s.lastSeq >= 4 then Reset
            else if s.hasSeq && n <= s.lastSeq then Duplicate
            else if n == (if s.hasSeq then s.lastSeq + 1 else 0) then InOrder else Gap
  {
  }

  /** The item takes x out of the index. */
  predicate Drops(item: Item, x: BlockHash) { item.AllCleared? || (item.Removed? && x in item.blocks) }

  /** A block is in the index if and only if some item stored it and none after that dropped it. */
  lemma {:induction false} LastWriteWins(items: seq<Item>, x: BlockHash)
    ensures x in ApplyItems({}, items) <==>
            exists i :: 0 <= i < |items| && items[i].Stored? && x in items[i].blocks
                        && forall j :: i < j < |items| ==>
                             !items[j].AllCleared? && !(items[j].Removed? && x in items[j].blocks)
  {
    if items != [] {
      var n := |items| - 1;
      LastWriteWins(items[..n], x);
      assert items == items[..n] + [items[n]];
      if x in ApplyItems({}, items) && !(items[n].Stored? && x in items[n].blocks) {
        var i :| 0 <= i < n && items[..n][i].Stored? && x in items[..n][i].blocks
                 && forall j :: i < j < n ==> !Drops(items[..n][j], x);
        assert items[i].Stored? && forall j :: i < j < |items| ==> !Drops(items[j], x);
      }
      if i :| 0 <= i < |items| && items[i].Stored? && x in items[i].blocks
              && forall j :: i < j < |items| ==> !Drops(items[j], x) {
        if i < n { assert items[..n][i] == items[i] && forall j :: i < j < n ==> !Drops(items[..n][j], x); }
      }
    }
  }

  function ItemsOf(batches: seq<Event>): seq<Item> {
    if batches == [] then [] else ItemsOf(batches[..|batches| - 1]) + batches[|batches| - 1].items
  }

  lemma {:induction false} ApplyAppends(l: Locality, a: seq<Item>, b: seq<Item>)
    ensures ApplyItems(l, a + b) == ApplyItems(ApplyItems(l, a), b)
    decreases |b|
  {
    if b == [] {
      assert a + b == a;
    } else {
      var n := |b| - 1;
      ApplyAppends(l, a, b[..n]);
      assert (a + b)[..|a + b| - 1] == a + b[..n] && (a + b)[|a + b| - 1] == b[n];
    }
  }

  /** Applying batch by batch is applying all their items in order. */
  lemma {:induction false} ContentsAreItems(batches: seq<Event>)
    ensures Contents(batches) == ApplyItems({}, ItemsOf(batches))
  {
    if batches != [] {
      var n := |batches| - 1;
      ContentsAreItems(batches[..n]);
      ApplyAppends({}, ItemsOf(batches[..n]), batches[n].items);
    }
  }

  // ---------------------------------------------------------------- where a generation begins

  /** The engine has restarted: accept takes this event as the first of a new generation. */
  predicate Restarts(c: Config, s: Stream, e: Event) {
    e.bytes <= c.maxEventBytes && e.topic == c.topic && s.hasSeq && IsSequenceReset(e.sequence, s.lastSeq)
  }

  /** The event with which this step restarts the generation. */
  function ResetOf(c: Config, y: System, op: Op): Option<(Event, Env)> {
    match op
    case LiveEvent(e, env) => if y.live.Following? && Restarts(c, y.stream, e) then Some((e, env)) else None
    case ReplayEvent(e, env) =>
      if y.replay.Replaying? && y.replay.count < c.maxReplayEvents && Restarts(c, y.stream, e)
      then Some((e, env))
      else None
    case _ => None
  }

  /** The last such event of a run. */
  function LastReset(c: Config, y: System, ops: seq<Op>): Option<(Event, Env)>
    decreases |ops|
  {
    if ops == [] then None
    else
      var later := LastReset(c, Next(c, y, ops[0]), ops[1..]);
      if later.Some? then later else ResetOf(c, y, ops[0])
  }

  /** A reset event at sequence 1 whose Clear and Apply succeeded. */
  predicate BegunAtOne(reset: Option<(Event, Env)>) {
    reset.Some? && reset.value.0.sequence == 1 && reset.value.1.apply.Applied? && reset.value.1.resetClear.Cleared?
  }

  function FirstAfter(reset: Option<(Event, Env)>, before: U64): U64 {
    if reset.None? then before else if BegunAtOne(reset) then 1 else 0
  }

  lemma AcceptFirst(c: Config, s: Stream, e: Event, replayed: bool, env: Env)
    requires !s.hasSeq ==> s.first == 0
    ensures Accept(c, s, e, replayed, env).0.first
         == FirstAfter(if Restarts(c, s, e) then Some((e, env)) else None, s.first)
  {
    if e.bytes <= c.maxEventBytes && e.topic == c.topic {
      var (t, verdict) := Classify(s, e.sequence, replayed);
      if verdict.Reset? {
        assert Restarts(c, s, e) && !t.hasSeq && t.first == 0;
      } else {
        assert !Restarts(c, s, e) && t.first == s.first;
      }
    }
  }

  /** A reset withdraws validity: right after it no snapshot is Valid, however the batch was applied. */
  lemma ResetIsInvalid(c: Config, s: Stream, e: Event, replayed: bool, env: Env, now: int)
    requires Restarts(c, s, e)
    ensures !SnapshotValid(c, Accept(c, s, e, replayed, env).0, now)
  {
    var (t, verdict) := Classify(s, e.sequence, replayed);
    assert verdict.Reset? && t.lastReplayAt.None?;
    if env.resetClear.Cleared? { CommitReplayTime(Clear(t, env.resetClear).(first := e.sequence), e, env); }
  }

  lemma NextFirst(c: Config, y: System, op: Op)
    requires Inv(y.stream)
    ensures Next(c, y, op).stream.first == FirstAfter(ResetOf(c, y, op), y.stream.first)
  {
    match op
    case LiveEvent(e, env) => LiveFirst(c, y, e, env);
    case ReplayEvent(e, env) => ReplayFirst(c, y, e, env);
    case _ =>
  }

  lemma LiveFirst(c: Config, y: System, e: Event, env: Env)
    requires Inv(y.stream)
    ensures Next(c, y, LiveEvent(e, env)).stream.first
         == FirstAfter(ResetOf(c, y, LiveEvent(e, env)), y.stream.first)
  {
    AcceptFirst(c, y.stream, e, false, env);
  }

  lemma ReplayFirst(c: Config, y: System, e: Event, env: Env)
    requires Inv(y.stream)
    ensures Next(c, y, ReplayEvent(e, env)).stream.first
         == FirstAfter(ResetOf(c, y, ReplayEvent(e, env)), y.stream.first)
  {
    AcceptFirst(c, y.stream, e, true, env);
  }

  lemma {:induction false} RunFirst(c: Config, y: System, ops: seq<Op>)
    requires Inv(y.stream)
    ensures Run(c, y, ops).stream.first == FirstAfter(LastReset(c, y, ops), y.stream.first)
    decreases |ops|
  {
    if ops != [] {
      NextKeepsInv(c, y, ops[0]);
      NextFirst(c, y, ops[0]);
      RunFirst(c, Next(c, y, ops[0]), ops[1..]);
    }
  }

  /** In every run the applied batches of the generation start at sequence 0 if and only if the
      generation was not begun by a reset event with sequence 1; otherwise they start at 1. */
  lemma StartsAtZeroIff(c: Config, ops: seq<Op>)
    requires Run(c, NewSystem(), ops).stream.hasSeq
    ensures var s := Run(c, NewSystem(), ops).stream;
            && s.history != []
            && (s.history[0].sequence == 0 <==> !BegunAtOne(LastReset(c, NewSystem(), ops)))
            && s.history[0].sequence == s.first <= 1
  {
    RunKeepsInv(c, NewSystem(), ops);
    RunFirst(c, NewSystem(), ops);
  }

  const LATE_RUN: seq<Op> :=
    [LiveEvent(HoleBatch(0), QUIET), LiveEvent(HoleBatch(1), QUIET),
     LiveEvent(HoleBatch(2), QUIET), LiveEvent(HoleBatch(3), QUIET)]
    + [LiveEvent(HoleBatch(4), QUIET), LiveEvent(HoleBatch(1), QUIET), ReplayBegin, ReplayEnd(0)]

  /** That start exists: the engine restarts, its batch 0 is lost, its batch 1 is taken for the first of
      the new generation, and a Valid snapshot covers an index without batch 0. */
  lemma ResetAtOneSkipsZero()
    ensures var s := Run(HOLE_CONFIG, NewSystem(), LATE_RUN).stream;
            SnapshotValid(HOLE_CONFIG, s, 0) && s.history == [HoleBatch(1)] && s.index == {1}
  {
    var c, y0 := HOLE_CONFIG, NewSystem();
    var head := [LiveEvent(HoleBatch(0), QUIET), LiveEvent(HoleBatch(1), QUIET),
                 LiveEvent(HoleBatch(2), QUIET), LiveEvent(HoleBatch(3), QUIET)];
    var tail := [LiveEvent(HoleBatch(4), QUIET), LiveEvent(HoleBatch(1), QUIET), ReplayBegin, ReplayEnd(0)];
    FourSteps(c, y0, head[0], head[1], head[2], head[3]);
    RunAppend(c, y0, head, tail);
    LateHead();
    LateTail(Run(c, y0, head));
    FourSteps(c, Run(c, y0, head), tail[0], tail[1], tail[2], tail[3]);
  }

  lemma LateHead()
    ensures var y := Next(HOLE_CONFIG, Next(HOLE_CONFIG, Next(HOLE_CONFIG, Next(HOLE_CONFIG, NewSystem(),
                       LiveEvent(HoleBatch(0), QUIET)), LiveEvent(HoleBatch(1), QUIET)),
                       LiveEvent(HoleBatch(2), QUIET)), LiveEvent(HoleBatch(3), QUIET));
            y.live.Following? && y.replay.ReplayIdle? && y.stream.hasSeq && y.stream.lastSeq == 3
            && y.stream.reason == ReplayNotConfirmed && !y.stream.closed
  {
  }

  lemma LateTail(y: System)
    requires y.live.Following? && y.replay.ReplayIdle? && y.stream.hasSeq && y.stream.lastSeq == 3
    requires y.stream.reason == ReplayNotConfirmed && !y.stream.closed
    ensures var z := Next(HOLE_CONFIG, Next(HOLE_CONFIG, y, LiveEvent(HoleBatch(4), QUIET)),
                          LiveEvent(HoleBatch(1), QUIET));
            var s := Next(HOLE_CONFIG, Next(HOLE_CONFIG, z, ReplayBegin), ReplayEnd(0)).stream;
            SnapshotValid(HOLE_CONFIG, s, 0) && s.history == [HoleBatch(1)] && s.index == {1}
  {
    var y5 := Next(HOLE_CONFIG, y, LiveEvent(HoleBatch(4), QUIET));
    assert y5.live.Following? && y5.stream.lastSeq == 4 && y5.stream.hasSeq;
    var y6 := Next(HOLE_CONFIG, y5, LiveEvent(HoleBatch(1), QUIET));
    assert y6.stream.index == ApplyItems({}, [Stored({1})]) == {1};
    assert y6.stream.history == [HoleBatch(1)] && y6.stream.reason == SequenceReset;
  }

  // ---------------------------------------------------------------- the exact condition

  lemma {:induction false} RunAppend(c: Config, y: System, a: seq<Op>, b: seq<Op>)
    ensures Run(c, y, a + b) == Run(c, Run(c, y, a), b)
    decreases |a|
  {
    if a == [] {
      assert a + b == b;
    } else {
      assert (a + b)[1..] == a[1..] + b;
      RunAppend(c, Next(c, y, a[0]), a[1..], b);
    }
  }

  lemma NextKeepsExited(c: Config, y: System, op: Op)
    requires y.replay.ReplayExited? && y.stream.reason != NoReason
    ensures Next(c, y, op).replay.ReplayExited? && Next(c, y, op).stream.reason != NoReason
  {
    if op.LiveEvent? { AcceptEffect(c, y.stream, op.live, false, op.liveEnv); }
  }

  lemma {:induction false} ExitedStaysInvalid(c: Config, y: System, ops: seq<Op>)
    requires y.replay.ReplayExited? && y.stream.reason != NoReason
    ensures Run(c, y, ops).stream.reason != NoReason
    decreases |ops|
  {
    if ops != [] {
      NextKeepsExited(c, y, ops[0]);
      ExitedStaysInvalid(c, Next(c, y, ops[0]), ops[1..]);
    }
  }

  const QUIET := Env(Applied, Cleared, Cleared)

  /** A replay thread that goes on over a broken index announces it once the gap is closed. */
  lemma {:induction false} Revive(c: Config, y: System) returns (ops: seq<Op>)
    requires ValidConfig(c) && SequenceInv(y.stream) && (!y.stream.hasSeq ==> y.stream.first == 0)
    requires Broken(y.stream) && !y.stream.closed && y.replay.ReplayIdle? && y.stream.reason == SequenceGap
    ensures var t := Run(c, y, ops).stream; SnapshotValid(c, t, 0) && Broken(t)
    decreases if y.stream.hasSeq then y.stream.gapUntil - y.stream.lastSeq else U64_LIMIT
  {
    var s := y.stream;
    var y1 := Next(c, y, ReplayBegin);
    if s.hasSeq && s.lastSeq >= s.gapUntil {
      ops := [ReplayBegin, ReplayEnd(0)];
      assert ops[1..] == [ReplayEnd(0)] && ops[1..][1..] == [];
      assert Run(c, y1, ops[1..]) == Next(c, y1, ReplayEnd(0));
    } else {
      var e := Event(c.topic, Expected(s), 0, []);
      var head := [ReplayBegin, ReplayEvent(e, QUIET), ReplayTransportError, ReplayCheck];
      ReplayOneMore(c, y, e);
      CommitKeepsSequence(s, e);
      var rest := Revive(c, Run(c, y, head));
      RunAppend(c, y, head, rest);
      ops := head + rest;
    }
  }

  /** A replay that delivers the next batch and then loses its connection. */
  lemma ReplayOneMore(c: Config, y: System, e: Event)
    requires ValidConfig(c) && y.replay.ReplayIdle? && y.stream.reason == SequenceGap
    requires e == Event(c.topic, Expected(y.stream), 0, [])
    requires !(y.stream.hasSeq && IsSequenceReset(e.sequence, y.stream.lastSeq))
    ensures var z := Run(c, y, [ReplayBegin, ReplayEvent(e, QUIET), ReplayTransportError, ReplayCheck]);
            z.stream == Commit(y.stream, e, QUIET).0 && z.replay.ReplayIdle?
  {
    var y2 := Next(c, Next(c, y, ReplayBegin), ReplayEvent(e, QUIET));
    assert y2.stream == Commit(y.stream, e, QUIET).0 && y2.replay == Replaying(1);
    FourSteps(c, y, ReplayBegin, ReplayEvent(e, QUIET), ReplayTransportError, ReplayCheck);
  }

  lemma CommitKeepsSequence(s: Stream, e: Event)
    requires SequenceInv(s) && e.sequence == if s.hasSeq then s.lastSeq + 1 else s.first
    ensures SequenceInv(Commit(s, e, QUIET).0)
  {
    var calm := s.(gaps := {}, gapUntil := 0, reason := NoReason);
    CommitKeepsInv(calm, e, QUIET);
    assert Commit(s, e, QUIET).0
        == Commit(calm, e, QUIET).0.(gaps := s.gaps, gapUntil := s.gapUntil, reason := s.reason);
  }

  lemma FourSteps(c: Config, y: System, a: Op, b: Op, d: Op, e: Op)
    ensures Run(c, y, [a, b, d, e]) == Next(c, Next(c, Next(c, Next(c, y, a), b), d), e)
  {
    RunAppend(c, y, [a], [b, d, e]);
    RunAppend(c, Next(c, y, a), [b], [d, e]);
    RunAppend(c, Next(c, Next(c, y, a), b), [d], [e]);
    assert [a] + [b, d, e] == [a, b, d, e] && [b] + [d, e] == [b, d, e] && [d] + [e] == [d, e];
  }

  /** The condition of ValidMeansComplete is exact. When the replay thread makes its exit
      check over a broken index, some continuation announces that index as Valid if and only
      if the guard of the check, hasFatalReason, is false at that moment. */
  lemma ExitCheckIsExact(c: Config, past: seq<Op>)
    requires ValidConfig(c) && ExitChecksSeeFault(c, NewSystem(), past)
    requires var y := Run(c, NewSystem(), past);
             y.replay.ReplayReturned? && Broken(y.stream) && !y.stream.closed
    ensures var y := Run(c, NewSystem(), past);
            var z := Next(c, y, ReplayCheck);
            !IsFatal(y.stream.reason) <==>
            exists more: seq<Op>, now: int ::
              SnapshotValid(c, Run(c, z, more).stream, now) && Broken(Run(c, z, more).stream)
  {
    var y := Run(c, NewSystem(), past);
    var z := Next(c, y, ReplayCheck);
    RunKeepsInv(c, NewSystem(), past);
    RunKeepsGuarded(c, NewSystem(), past);
    RunKeepsBrokenReason(c, NewSystem(), past);
    if IsFatal(y.stream.reason) {
      forall more: seq<Op> ensures Run(c, z, more).stream.reason != NoReason {
        ExitedStaysInvalid(c, z, more);
      }
    } else {
      var more := Revive(c, z);
      assert SnapshotValid(c, Run(c, z, more).stream, 0);
    }
  }

  /** Over a broken index the reason is fatal unless a live gap has overwritten it. */
  predicate BrokenReason(y: System) {
    Broken(y.stream) ==> IsFatal(y.stream.reason) || y.stream.reason == SequenceGap || y.stream.reason == NoReason
  }

  lemma NextKeepsBrokenReason(c: Config, y: System, op: Op)
    requires BrokenReason(y)
    ensures BrokenReason(Next(c, y, op))
  {
    match op
    case LiveEvent(e, env) => AcceptEffect(c, y.stream, e, false, env);
    case ReplayEvent(e, env) => AcceptEffect(c, y.stream, e, true, env);
    case _ =>
  }

  lemma {:induction false} RunKeepsBrokenReason(c: Config, y: System, ops: seq<Op>)
    requires BrokenReason(y)
    ensures BrokenReason(Run(c, y, ops))
    decreases |ops|
  {
    if ops != [] {
      NextKeepsBrokenReason(c, y, ops[0]);
      RunKeepsBrokenReason(c, Next(c, y, ops[0]), ops[1..]);
    }
  }

  const HOLE_CONFIG := Config("kv@pod@model", 64, 64, 64)

  function HoleBatch(n: U64): Event { Event("kv@pod@model", n, 0, [Stored({n})]) }

  /** One apply that fails before it has written anything; the clear that follows succeeds. */
  const FAULTY := Env(Failed(ApplyFailed, 0), Cleared, Cleared)

  const HOLE_RUN: seq<Op> :=
    [LiveEvent(HoleBatch(0), QUIET), ReplayBegin, ReplayEvent(HoleBatch(1), FAULTY), LiveEvent(HoleBatch(2), QUIET)]
    + [ReplayCheck, ReplayBegin, ReplayEvent(HoleBatch(1), QUIET), ReplayEvent(HoleBatch(2), QUIET)]
    + [ReplayEnd(0)]

  /** The overwritten reason is reachable: batch 0 is applied, applying the replayed batch 1 fails once
      and the index is cleared, a live gap replaces the fatal reason before the exit check, and the next
      replay announces an index that has lost batch 0. */
  lemma OverwrittenReasonAnnouncesHole()
    ensures var s := Run(HOLE_CONFIG, NewSystem(), HOLE_RUN).stream;
            SnapshotValid(HOLE_CONFIG, s, 0) && s.index == {1, 2} && Contents(s.history) == {0, 1, 2}
  {
    var c := HOLE_CONFIG;
    HoleOpens();
    HoleReplayed();
    RunOne(c, System(HoleAt8(), FollowReturned, Replaying(2)), ReplayEnd(0));
    RunAppend(c, NewSystem(), HOLE_RUN[..4], HOLE_RUN[4..8]);
    RunAppend(c, NewSystem(), HOLE_RUN[..8], HOLE_RUN[8..]);
    assert HOLE_RUN == HOLE_RUN[..8] + HOLE_RUN[8..] && HOLE_RUN[..8] == HOLE_RUN[..4] + HOLE_RUN[4..8];
    assert HOLE_RUN[8..] == [ReplayEnd(0)];
    HoleContents();
  }

  function HoleAt4(): Stream { Stream(true, 0, 2, SequenceGap, None, false, {}, [HoleBatch(0)], 0, 1, false, {2}) }

  function HoleAt8(): Stream {
    HoleAt4().(lastSeq := 2, index := {1, 2}, history := [HoleBatch(0)] + [HoleBatch(1)] + [HoleBatch(2)])
  }

  lemma HoleOpens()
    ensures Run(HOLE_CONFIG, NewSystem(), HOLE_RUN[..4]) == System(HoleAt4(), FollowReturned, ReplayReturned)
  {
    var c, y0, b0 := HOLE_CONFIG, NewSystem(), HoleBatch(0);
    var y1 := Next(c, y0, LiveEvent(b0, QUIET));
    var y3 := Next(c, Next(c, y1, ReplayBegin), ReplayEvent(HoleBatch(1), FAULTY));
    assert y3.stream == Stream(true, 0, 0, Faulted(ApplyFailed), None, false, {}, [b0], 0, 1, false, {});
    assert y3.stream.gaps + {2} == {2};
    assert HOLE_RUN[..4]
        == [LiveEvent(b0, QUIET), ReplayBegin, ReplayEvent(HoleBatch(1), FAULTY), LiveEvent(HoleBatch(2), QUIET)];
    FourSteps(c, y0, LiveEvent(b0, QUIET), ReplayBegin, ReplayEvent(HoleBatch(1), FAULTY),
              LiveEvent(HoleBatch(2), QUIET));
  }

  lemma HoleReplayed()
    ensures Run(HOLE_CONFIG, System(HoleAt4(), FollowReturned, ReplayReturned), HOLE_RUN[4..8])
         == System(HoleAt8(), FollowReturned, Replaying(2))
  {
    var c, y4 := HOLE_CONFIG, System(HoleAt4(), FollowReturned, ReplayReturned);
    var b1, b2 := HoleBatch(1), HoleBatch(2);
    var y6 := Next(c, Next(c, y4, ReplayCheck), ReplayBegin);
    var y7 := Next(c, y6, ReplayEvent(b1, QUIET));
    assert y7.stream.index == ApplyItems({}, [Stored({1})]) == {1};
    assert Next(c, y7, ReplayEvent(b2, QUIET)).stream.index == ApplyItems({1}, [Stored({2})]) == {1, 2};
    assert HOLE_RUN[4..8] == [ReplayCheck, ReplayBegin, ReplayEvent(b1, QUIET), ReplayEvent(b2, QUIET)];
    FourSteps(c, y4, ReplayCheck, ReplayBegin, ReplayEvent(b1, QUIET), ReplayEvent(b2, QUIET));
  }

  lemma HoleContents()
    ensures Contents([HoleBatch(0)] + [HoleBatch(1)] + [HoleBatch(2)]) == {0, 1, 2}
  {
    var b0, b1, b2 := HoleBatch(0), HoleBatch(1), HoleBatch(2);
    ContentsSnoc([], b0);
    ContentsSnoc([b0], b1);
    ContentsSnoc([b0] + [b1], b2);
    assert [] + [b0] == [b0];
  }

  // ---------------------------------------------------------------- the object

  class EventStream {
    const config: Config
    var hasSeq: bool
    var lastSeq: U64
    var gapUntil: U64
    var reason: Reason
    var lastReplayAt: Option<int>
    var closed: bool
    var index: Locality
    ghost var history: seq<Event>
    ghost var first: U64
    ghost var cleared: nat
    ghost var residue: bool
    ghost var gaps: set<U64>

    ghost function View(): Stream
      reads this
    {
      Stream(hasSeq, lastSeq, gapUntil, reason, lastReplayAt, closed, index, history, first, cleared, residue, gaps)
    }

    constructor (config: Config)
      ensures this.config == config && View() == NewStream() && Inv(View())
    {
      this.config := config;
      hasSeq, lastSeq, gapUntil, reason := false, 0, 0, ReplayNotConfirmed;
      lastReplayAt, closed, index := None, false, {};
      history, first, cleared, residue, gaps := [], 0, 0, false, {};
    }

    method Invalidate(why: Reason)
      modifies this`reason
      ensures View() == old(View()).(reason := why)
    {
      reason := why;
    }

    method ClearIndex(outcome: ClearOutcome)
      modifies this`index, this`cleared, this`residue
      ensures View() == Clear(old(View()), outcome)
    {
      match outcome {
        case Cleared => index := {}; residue := false;
        case ClearFailed(left) => index := left; residue := true;
      }
      cleared := |history|;
    }

    method FailAndClear(why: Reason, outcome: ClearOutcome)
      modifies this`reason, this`index, this`cleared, this`residue
      ensures View() == InvalidateAndClear(old(View()), why, outcome)
    {
      Invalidate(why);
      ClearIndex(outcome);
    }

    method ClassifySequence(sequence: U64, replayed: bool) returns (verdict: Verdict)
      modifies this
      ensures (View(), verdict) == Classify(old(View()), sequence, replayed)
    {
      var expected: U64 := 0;
      if hasSeq {
        expected := (lastSeq + 1) % U64_LIMIT;
      }
      if hasSeq && IsSequenceReset(sequence, lastSeq) {
        ForgetGeneration();
        return Reset;
      }
      if sequence < expected {
        return Duplicate;
      }
      if sequence == expected {
        return InOrder;
      }
      if replayed {
        return Gap;
      }
      reason := SequenceGap;
      if sequence > gapUntil {
        gapUntil := sequence;
      }
      gaps := gaps + {sequence};
      return Gap;
    }

    method ForgetGeneration()
      modifies this
      ensures View() == old(View()).(hasSeq := false, lastSeq := 0, gapUntil := 0, lastReplayAt := None,
                                     reason := SequenceReset, history := [], first := 0, cleared := 0,
                                     residue := true, gaps := {})
    {
      hasSeq, lastSeq, gapUntil := false, 0, 0;
      lastReplayAt := None;
      reason := SequenceReset;
      history, first, cleared, residue, gaps := [], 0, 0, true, {};
    }

    method ApplyBatch(e: Event, env: Env) returns (ok: bool)
      modifies this
      ensures (View(), ok) == Commit(old(View()), e, env)
    {
      match env.apply {
        case Applied =>
          index := ApplyItems(index, e.items);
          hasSeq, lastSeq := true, e.sequence;
          history := history + [e];
          ok := true;
        case Failed(fault, written) =>
          index := ApplyItems(index, e.items[..Min(written, |e.items|)]);
          if !hasSeq { first := 0; }
          FailAndClear(Faulted(fault), env.faultClear);
          ok := false;
      }
    }

    method AcceptEvent(e: Event, replayed: bool, env: Env) returns (ok: bool)
      requires Inv(View())
      modifies this
      ensures (View(), ok) == Accept(config, old(View()), e, replayed, env)
      ensures Inv(View())
    {
      AcceptKeepsInv(config, View(), e, replayed, env);
      if e.bytes > config.maxEventBytes {
        FailAndClear(EventTooLarge, env.faultClear);
        return false;
      }
      if e.topic != config.topic {
        FailAndClear(Faulted(DecodeFailed), env.faultClear);
        return false;
      }
      var verdict := ClassifySequence(e.sequence, replayed);
      if verdict.Duplicate? {
        return true;
      }
      if verdict.Gap? {
        if replayed {
          FailAndClear(UnrecoverableGap, env.faultClear);
        }
        return false;
      }
      if verdict.Reset? {
        ok := RestartWith(e, env);
      } else {
        ok := ApplyBatch(e, env);
      }
    }

    method RestartWith(e: Event, env: Env) returns (ok: bool)
      modifies this
      ensures (View(), ok) == Restart(old(View()), e, env)
    {
      ClearIndex(env.resetClear);
      if env.resetClear.ClearFailed? {
        Invalidate(Faulted(ApplyFailed));
        return false;
      }
      first := e.sequence;
      ok := ApplyBatch(e, env);
    }

    /** The callback of a replay: at most maxReplayEvents batches are taken. */
    method OnReplayEvent(e: Event, env: Env, count: nat) returns (ok: bool)
      requires Inv(View())
      modifies this
      ensures Inv(View())
      ensures (View(), ok) == TakeReplayed(config, old(View()), e, env, count)
      ensures count >= config.maxReplayEvents ==> !ok && reason == ReplayCapacityExceeded && history == old(history)
      ensures count < config.maxReplayEvents ==> (View(), ok) == Accept(config, old(View()), e, true, env)
    {
      if count >= config.maxReplayEvents {
        FailKeepsInv(View(), ReplayCapacityExceeded, env.faultClear);
        FailAndClear(ReplayCapacityExceeded, env.faultClear);
        return false;
      }
      ok := AcceptEvent(e, true, env);
    }

    method ConfirmReplay(now: int)
      requires Inv(View())
      modifies this
      ensures View() == ReplayConfirmed(old(View()), now) && Inv(View())
    {
      ConfirmKeepsInv(View(), now);
      lastReplayAt := Some(now);
      match reason {
        case ReplayNotConfirmed => reason := NoReason;
        case SequenceReset => reason := NoReason;
        case SequenceGap =>
          if hasSeq && lastSeq >= gapUntil {
            reason := NoReason;
            gapUntil := 0;
          }
        case _ =>
      }
    }

    /** A whole replay: the events the source delivers, then its END marker unless the
        transport failed. Live events may run between any two of these; this is the thread's
        own program order. */
    method ReplayOnce(events: seq<(Event, Env)>, reachesEnd: bool, now: int)
      requires Inv(View())
      modifies this
      ensures Inv(View())
      ensures View() == Run(config, System(old(View()), LiveExited, ReplayIdle),
                            ReplayOps(events, reachesEnd, now)).stream
    {
      ghost var y0, end := System(View(), LiveExited, ReplayIdle), EndOp(reachesEnd, now);
      var failed := IsFatal(reason);
      var count := 0;
      assert events[0..] == events;
      for i := 0 to |events|
        invariant Inv(View())
        invariant Run(config, y0, ReplayOps(events, reachesEnd, now))
               == Run(config, Session(View(), failed, count), EventOps(events[i..]) + [end])
      {
        var (e, env) := events[i];
        EventOpsStep(config, Session(View(), failed, count), events, i, end);
        if !failed {
          ReplayedStep(config, View(), e, env, count);
          var ok := OnReplayEvent(e, env, count);
          count := if ok then count + 1 else count;
          failed := !ok;
        }
      }
      assert EventOps(events[|events|..]) + [end] == [end];
      FinishReplay(failed, count, reachesEnd, now);
    }

    method FinishReplay(failed: bool, ghost count: nat, reachesEnd: bool, now: int)
      requires Inv(View())
      modifies this
      ensures Inv(View())
      ensures View() == Run(config, Session(old(View()), failed, count), [EndOp(reachesEnd, now)]).stream
    {
      RunOne(config, Session(View(), failed, count), EndOp(reachesEnd, now));
      if !failed && reachesEnd {
        ConfirmReplay(now);
      }
    }

    /** One step of either thread or of the owner, as the methods make it. */
    method Perform(op: Op, live: LiveThread, replay: ReplayThread) returns (live': LiveThread, replay': ReplayThread)
      requires Inv(View())
      modifies this
      ensures Inv(View())
      ensures System(View(), live', replay') == Next(config, System(old(View()), live, replay), op)
    {
      live', replay' := live, replay;
      if op.LiveEvent? || op.LiveTransportError? || op.LiveCheck? || op.CancelLive? {
        live' := PerformLive(op, live, replay);
      } else if op.LifecycleInvalidate? {
        OwnerInvalidates(op.closing);
      } else if op.CloseStream? {
        Close();
      } else {
        replay' := PerformReplay(op, live, replay);
      }
    }

    method PerformLive(op: Op, live: LiveThread, ghost replay: ReplayThread) returns (live': LiveThread)
      requires Inv(View()) && (op.LiveEvent? || op.LiveTransportError? || op.LiveCheck? || op.CancelLive?)
      modifies this
      ensures Inv(View())
      ensures System(View(), live', replay) == Next(config, System(old(View()), live, replay), op)
    {
      live' := live;
      match op {
        case LiveEvent(e, env) =>
          if live.Following? {
            var ok := AcceptEvent(e, false, env);
            live' := if ok then Following else FollowReturned;
          }
        case LiveTransportError => live' := if live.Following? then FollowReturned else live;
        case LiveCheck =>
          if live.FollowReturned? { live' := if IsFatal(reason) then LiveExited else Following; }
        case CancelLive => live' := LiveExited;
      }
    }

    method PerformReplay(op: Op, ghost live: LiveThread, replay: ReplayThread) returns (replay': ReplayThread)
      requires Inv(View())
      requires op.ReplayBegin? || op.ReplayEvent? || op.ReplayTransportError? || op.ReplayEnd? || op.ReplayCheck?
               || op.CancelReplay?
      modifies this
      ensures Inv(View())
      ensures System(View(), live, replay') == Next(config, System(old(View()), live, replay), op)
    {
      replay' := replay;
      match op {
        case ReplayBegin =>
          if replay.ReplayIdle? { replay' := if IsFatal(reason) then ReplayReturned else Replaying(0); }
        case ReplayEvent(e, env) => replay' := PerformReplayEvent(e, env, live, replay);
        case ReplayTransportError => replay' := if replay.Replaying? then ReplayReturned else replay;
        case ReplayEnd(at) =>
          if replay.Replaying? {
            ConfirmReplay(at);
            replay' := ReplayReturned;
          }
        case ReplayCheck =>
          if replay.ReplayReturned? { replay' := if IsFatal(reason) then ReplayExited else ReplayIdle; }
        case CancelReplay => replay' := ReplayExited;
      }
    }

    method PerformReplayEvent(e: Event, env: Env, ghost live: LiveThread, replay: ReplayThread)
      returns (replay': ReplayThread)
      requires Inv(View())
      modifies this
      ensures Inv(View())
      ensures System(View(), live, replay') == Next(config, System(old(View()), live, replay), ReplayEvent(e, env))
    {
      replay' := replay;
      if replay.Replaying? {
        var ok := OnReplayEvent(e, env, replay.count);
        replay' := if ok then Replaying(replay.count + 1) else ReplayReturned;
      }
    }

    method OwnerInvalidates(closing: bool)
      requires Inv(View())
      modifies this
      ensures View() == old(View()).(reason := if closing then StreamClosed else LifecycleChanging) && Inv(View())
    {
      FatalReasonKeepsInv(View(), if closing then StreamClosed else LifecycleChanging);
      Invalidate(if closing then StreamClosed else LifecycleChanging);
    }

    /** Any interleaving of the two threads and the owner on one stream. */
    method Interleave(ops: seq<Op>) returns (live: LiveThread, replay: ReplayThread)
      requires Inv(View())
      modifies this
      ensures Inv(View())
      ensures System(View(), live, replay) == Run(config, System(old(View()), Following, ReplayIdle), ops)
    {
      live, replay := Following, ReplayIdle;
      ghost var whole := Run(config, System(View(), live, replay), ops);
      assert ops[0..] == ops;
      for i := 0 to |ops|
        invariant Inv(View()) && whole == Run(config, System(View(), live, replay), ops[i..])
      {
        assert ops[i..][1..] == ops[i + 1..];
        live, replay := Perform(ops[i], live, replay);
      }
    }

    method Snapshot(now: int) returns (valid: bool, why: Reason)
      ensures valid <==>
              && !closed && reason == NoReason
              && lastReplayAt.Some? && now - lastReplayAt.value <= config.freshnessTTL
      ensures valid == SnapshotValid(config, View(), now)
      ensures why == if !valid && reason == NoReason then HeartbeatStale else reason
      ensures valid <==> why == NoReason
    {
      why := reason;
      var freshness := 0;
      if lastReplayAt.Some? {
        freshness := now - lastReplayAt.value;
        if freshness < 0 {
          freshness := 0;
        }
      }
      valid := !closed && why == NoReason && lastReplayAt.Some? && freshness <= config.freshnessTTL;
      if !valid && why == NoReason {
        why := HeartbeatStale;
      }
    }

    method Close()
      requires Inv(View())
      modifies this
      ensures View() == MarkClosed(old(View())) && closed && Inv(View())
      ensures old(!closed && (reason.NoReason? || reason.ReplayNotConfirmed?)) ==> reason == StreamClosed
      ensures old(closed || !(reason.NoReason? || reason.ReplayNotConfirmed?)) ==> reason == old(reason)
      ensures forall now :: !SnapshotValid(config, View(), now)
    {
      MarkClosedKeepsInv(View());
      if !closed {
        closed := true;
        if reason == NoReason || reason == ReplayNotConfirmed {
          reason := StreamClosed;
        }
      }
    }
  }

  function EventOps(events: seq<(Event, Env)>): seq<Op> {
    if events == [] then [] else [ReplayEvent(events[0].0, events[0].1)] + EventOps(events[1..])
  }

  function EndOp(reachesEnd: bool, now: int): Op { if reachesEnd then ReplayEnd(now) else ReplayTransportError }

  function ReplayOps(events: seq<(Event, Env)>, reachesEnd: bool, now: int): seq<Op> {
    [ReplayBegin] + (EventOps(events) + [EndOp(reachesEnd, now)])
  }

  /** The system inside a replay that nobody else interleaves with. */
  function Session(s: Stream, failed: bool, count: nat): System {
    System(s, LiveExited, if failed then ReplayReturned else Replaying(count))
  }

  lemma EventOpsStep(c: Config, y: System, events: seq<(Event, Env)>, i: nat, end: Op)
    requires i < |events|
    ensures Run(c, y, EventOps(events[i..]) + [end])
         == Run(c, Next(c, y, ReplayEvent(events[i].0, events[i].1)), EventOps(events[i + 1..]) + [end])
  {
    var rest := EventOps(events[i + 1..]) + [end];
    assert events[i..][1..] == events[i + 1..];
    assert EventOps(events[i..]) + [end] == [ReplayEvent(events[i].0, events[i].1)] + rest;
    RunAppend(c, y, [ReplayEvent(events[i].0, events[i].1)], rest);
  }

  lemma ReplayedStep(c: Config, s: Stream, e: Event, env: Env, count: nat)
    ensures Next(c, Session(s, false, count), ReplayEvent(e, env))
         == var (t, ok) := TakeReplayed(c, s, e, env, count);
            Session(t, !ok, if ok then count + 1 else count)
  {
  }

  lemma RunOne(c: Config, y: System, op: Op)
    ensures Run(c, y, [op]) == Next(c, y, op)
  {
  }
}
