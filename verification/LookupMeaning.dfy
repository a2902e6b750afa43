/**
 What a match means end to end: the stream's event protocol, the ownership of the index and the
 lookup's walk, joined.
 */
module LookupMeaning {
  import Events = EventStreams
  import Life = StreamLifecycle
  import Prefix = PrefixLookup

  /** How many leading keys are among the blocks. */
  function PrefixIn(keys: seq<nat>, blocks: set<nat>): (n: nat)
    ensures n <= |keys|
    ensures forall i :: 0 <= i < n ==> keys[i] in blocks
    ensures n < |keys| ==> keys[n] !in blocks
  {
    if keys == [] || keys[0] !in blocks then 0 else 1 + PrefixIn(keys[1..], blocks)
  }

  /** The leading runs of the first n prompts of a query, added up. */
  function QueryPrefixIn(h: Prefix.Hasher, q: Prefix.Query, size: nat, blocks: set<nat>, n: nat): nat
    requires size > 0 && n <= |q.groups|
  {
    if n == 0 then 0
    else QueryPrefixIn(h, q, size, blocks, n - 1)
         + PrefixIn(Prefix.RequestKeys(h, Prefix.RequestOf(q, size, n - 1)), blocks)
  }

  /** The Pod's part of every index read is `blocks`; the parts of other Pods may change. */
  ghost predicate PartStands(views: Prefix.QueryReads, pod: string, blocks: set<nat>) {
    forall i, j, k :: k in blocks <==> k in views(i, j) && pod in views(i, j)[k]
  }

  /** One prompt: whatever other Pods do meanwhile, the walk scores the leading run over the Pod's part. */
  lemma PromptScore(all: seq<nat>, views: Prefix.Reads, allowed: set<string>, pod: string, blocks: set<nat>)
    requires pod in allowed && forall j, k :: Prefix.HeldAt(views, j, k, pod) <==> k in blocks
    ensures Prefix.WalkScore(all, views, allowed, pod) == PrefixIn(all, blocks)
  {
    Prefix.ScoreBetween(all, views, allowed, pod, PrefixIn(all, blocks));
  }

  lemma {:induction false} QueryScoreOverPart(h: Prefix.Hasher, q: Prefix.Query, size: nat, views: Prefix.QueryReads,
                                              allowed: set<string>, pod: string, blocks: set<nat>, n: nat)
    requires size > 0 && n <= |q.groups| && pod in allowed && PartStands(views, pod, blocks)
    ensures Prefix.QueryScore(h, q, size, views, allowed, pod, n) == QueryPrefixIn(h, q, size, blocks, n)
  {
    if n > 0 {
      QueryScoreOverPart(h, q, size, views, allowed, pod, blocks, n - 1);
      OnePrompt(h, q, size, views, allowed, pod, blocks, n - 1);
    }
  }

  lemma OnePrompt(h: Prefix.Hasher, q: Prefix.Query, size: nat, views: Prefix.QueryReads,
                  allowed: set<string>, pod: string, blocks: set<nat>, n: nat)
    requires size > 0 && n < |q.groups| && pod in allowed && PartStands(views, pod, blocks)
    requires Prefix.QueryScore(h, q, size, views, allowed, pod, n) == QueryPrefixIn(h, q, size, blocks, n)
    ensures Prefix.QueryScore(h, q, size, views, allowed, pod, n + 1) == QueryPrefixIn(h, q, size, blocks, n + 1)
  {
    var all := Prefix.RequestKeys(h, Prefix.RequestOf(q, size, n));
    PartSeen(views, pod, blocks, n);
    PromptScore(all, Prefix.ReadsOf(views, n), allowed, pod, blocks);
    Prefix.QueryScoreNext(h, q, size, views, allowed, pod, n);
    QueryPrefixNext(h, q, size, blocks, n);
  }

  lemma PartSeen(views: Prefix.QueryReads, pod: string, blocks: set<nat>, n: nat)
    requires PartStands(views, pod, blocks)
    ensures forall j, k :: Prefix.HeldAt(Prefix.ReadsOf(views, n), j, k, pod) <==> k in blocks
  {
    forall j, k ensures Prefix.HeldAt(Prefix.ReadsOf(views, n), j, k, pod) <==> k in blocks {
      assert Prefix.ReadsOf(views, n)(j) == views(n, j);
    }
  }

  lemma QueryPrefixNext(h: Prefix.Hasher, q: Prefix.Query, size: nat, blocks: set<nat>, n: nat)
    requires size > 0 && n < |q.groups|
    ensures QueryPrefixIn(h, q, size, blocks, n + 1)
         == QueryPrefixIn(h, q, size, blocks, n)
            + PrefixIn(Prefix.RequestKeys(h, Prefix.RequestOf(q, size, n)), blocks)
  {
  }

  /** The blocks a stream has in the index, and the blocks stored for a Pod. */
  ghost function WrittenBy(w: Life.World, h: Life.Handle): set<nat> { set e | e in w.index && e.writer == h :: e.block }
  ghost function StoredFor(w: Life.World, pod: string): set<nat> { set e | e in w.index && e.pod == pod :: e.block }

  /** All a Pod has in the index is what its published stream wrote, in every run of the service. */
  lemma PartIsOwn(ops: seq<Life.Op>, b: string)
    requires b in Life.Run(Life.NEW_WORLD, ops).published
    ensures var w := Life.Run(Life.NEW_WORLD, ops);
            var h := w.published[b];
            h < |w.records| && StoredFor(w, w.records[h].instance.pod) == WrittenBy(w, h)
  {
    Life.RunKeepsInv(Life.NEW_WORLD, ops);
    var w := Life.Run(Life.NEW_WORLD, ops);
    var h := w.published[b];
    var pod := w.records[h].instance.pod;
    forall e | e in w.index ensures e.pod == pod <==> e.writer == h {
      if e.pod == pod { Life.OwnedByPublished(w, b, e); }
    }
  }

  /** End to end: in any run of the service in which the published stream of b has what its own protocol
      run applied, if that stream's snapshot is Valid and its Pod's part of the index stands still during the
      lookup, the matched blocks of b are the leading runs of the request keys over the in-order application
      of the stream's whole generation. */
  lemma ValidMatchMeansGeneration(service: seq<Life.Op>, b: string, c: Events.Config, protocol: seq<Events.Op>,
                                  now: int, h: Prefix.Hasher, q: Prefix.Query, size: nat, views: Prefix.QueryReads,
                                  allowed: set<string>)
    requires var w := Life.Run(Life.NEW_WORLD, service);
             var s := Events.Run(c, Events.NewSystem(), protocol).stream;
             && b in w.published && WrittenBy(w, w.published[b]) == s.index
             && Events.ExitChecksSeeFault(c, Events.NewSystem(), protocol) && Events.SnapshotValid(c, s, now)
    requires var w := Life.Run(Life.NEW_WORLD, service);
             && w.published[b] < |w.records| && size > 0
             && (var pod := w.records[w.published[b]].instance.pod;
                 pod in allowed && PartStands(views, pod, StoredFor(w, pod)))
    ensures var w := Life.Run(Life.NEW_WORLD, service);
            var pod := w.records[w.published[b]].instance.pod;
            var s := Events.Run(c, Events.NewSystem(), protocol).stream;
            && Events.Complete(s)
            && Prefix.QueryScore(h, q, size, views, allowed, pod, |q.groups|)
               == QueryPrefixIn(h, q, size, Events.Contents(s.history), |q.groups|)
  {
    var w := Life.Run(Life.NEW_WORLD, service);
    var pod := w.records[w.published[b]].instance.pod;
    PartIsOwn(service, b);
    Events.ValidMeansComplete(c, protocol, now);
    QueryScoreOverPart(h, q, size, views, allowed, pod, StoredFor(w, pod), |q.groups|);
  }
}
