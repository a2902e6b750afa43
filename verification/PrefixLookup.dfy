/**
 Locality lookup over the block index: request keys form a hash chain, a Pod's score is
 its leading run of keys, and the lookup stops hashing at the first key nobody holds.

 The upstream hash, index and scorer are foreign: a chained hash over a seed, a map from
 key to the Pods holding it, and the length of each Pod's leading run.
 */
module PrefixLookup {
  import opened Int64
  import opened Text
  import Routing

  type Key = nat
  type Token = nat

  const EMPTY_KEY: Key := 0

  datatype Hasher = Hasher(seed: string -> Key, chain: (Key, seq<Token>, string) -> Key)

  /** The upstream hash never yields the key that means "no parent". */
  ghost predicate NeverEmpty(h: Hasher) {
    forall state, block, salt :: h.chain(state, block, salt) != EMPTY_KEY
  }

  // ---------------------------------------------------------------- request keys

  function Block(tokens: seq<Token>, size: nat, i: nat): seq<Token>
    requires size > 0 && (i + 1) * size <= |tokens|
  {
    assert i * size <= (i + 1) * size;
    tokens[i * size..(i + 1) * size]
  }

  /** The tail that does not fill a block is not counted. */
  function BlockCount(tokens: seq<Token>, size: nat): (n: nat)
    requires size > 0
    ensures n * size <= |tokens| < n * size + size
  {
    var n := |tokens| / size;
    assert |tokens| == size * n + |tokens| % size;
    n
  }

  lemma BlockFits(tokens: seq<Token>, size: nat, i: nat)
    requires size > 0 && i < |tokens| / size
    ensures (i + 1) * size <= |tokens|
  {
    var q := |tokens| / size;
    assert |tokens| == size * q + |tokens| % size;
    MulAtMost(i + 1, q, size);
  }

  /** The cache salt is folded into the first block only. */
  function SaltOf(salt: string, i: nat): string { if i == 0 then salt else "" }

  /** Where a chain continues: after a parent key, or from the model's seed. */
  function ChainState(h: Hasher, parent: Key, model: string): Key {
    if parent == EMPTY_KEY then h.seed(model) else parent
  }

  datatype Request = Request(tokens: seq<Token>, model: string, salt: string, size: nat)

  function FullBlocks(r: Request): nat
    requires r.size > 0
  {
    BlockCount(r.tokens, r.size)
  }

  /** Key i of the chain computed in one pass over all full blocks. */
  function RequestKey(h: Hasher, r: Request, i: nat): Key
    requires r.size > 0 && i < FullBlocks(r)
  {
    BlockFits(r.tokens, r.size, i);
    var state := if i == 0 then ChainState(h, EMPTY_KEY, r.model) else RequestKey(h, r, i - 1);
    h.chain(state, Block(r.tokens, r.size, i), SaltOf(r.salt, i))
  }

  /** The keys of the whole prompt. */
  function RequestKeys(h: Hasher, r: Request): (keys: seq<Key>)
    requires r.size > 0
    ensures |keys| == FullBlocks(r)
  {
    seq(FullBlocks(r), i requires 0 <= i < FullBlocks(r) => RequestKey(h, r, i))
  }

  lemma BlockBounds(r: Request, i: nat)
    requires r.size > 0 && i < FullBlocks(r)
    ensures i * r.size <= (i + 1) * r.size <= |r.tokens|
  {
    BlockFits(r.tokens, r.size, i);
    assert (i + 1) * r.size == i * r.size + r.size;
  }

  /** The chain spelled out: the first key hashes the model's seed, the first block and the cache salt;
      every later one its predecessor and its own block, without the salt. */
  lemma ChainIs(h: Hasher, r: Request, i: nat)
    requires r.size > 0 && i < FullBlocks(r)
    ensures i * r.size <= (i + 1) * r.size <= |r.tokens|
    ensures RequestKey(h, r, i)
         == if i == 0 then h.chain(h.seed(r.model), r.tokens[..r.size], r.salt)
            else h.chain(RequestKey(h, r, i - 1), r.tokens[i * r.size..(i + 1) * r.size], "")
  {
    BlockBounds(r, i);
    if i == 0 { assert r.tokens[0..r.size] == r.tokens[..r.size] && (0 + 1) * r.size == r.size; }
  }

  /** The hash tells apart what it hashes. */
  ghost predicate Injective(h: Hasher) {
    forall s, t, a, b, x, y :: h.chain(s, a, x) == h.chain(t, b, y) ==> s == t && a == b && x == y
  }

  lemma PrefixSplits(a: seq<Token>, b: seq<Token>, n: nat, m: nat)
    requires n <= m <= |a| && m <= |b|
    ensures a[..m] == b[..m] <==> a[..n] == b[..n] && a[n..m] == b[n..m]
  {
    assert a[..m] == a[..n] + a[n..m] && b[..m] == b[..n] + b[n..m];
    if a[..m] == b[..m] {
      assert a[..n] == a[..m][..n] && a[n..m] == a[..m][n..];
    }
  }

  /** With a hash that tells its inputs apart, key i of two requests coincides if and only if their models'
      seeds, their first i + 1 blocks and their cache salts do: no key is shared across salts. */
  lemma {:induction false} KeysAgreeIff(h: Hasher, a: Request, b: Request, i: nat)
    requires Injective(h) && a.size == b.size > 0 && i < FullBlocks(a) && i < FullBlocks(b)
    ensures (i + 1) * a.size <= |a.tokens| && (i + 1) * a.size <= |b.tokens|
    ensures RequestKey(h, a, i) == RequestKey(h, b, i) <==>
            h.seed(a.model) == h.seed(b.model) && a.tokens[..(i + 1) * a.size] == b.tokens[..(i + 1) * a.size]
            && a.salt == b.salt
  {
    ChainIs(h, a, i);
    ChainIs(h, b, i);
    if i == 0 {
      assert (0 + 1) * a.size == a.size;
    } else {
      KeysAgreeIff(h, a, b, i - 1);
      PrefixSplits(a.tokens, b.tokens, i * a.size, (i + 1) * a.size);
    }
  }

  // ---------------------------------------------------------------- index and score

  type Index = map<Key, set<string>>

  function Holders(index: Index, allowed: set<string>, key: Key): set<string> {
    if key in index then index[key] * allowed else {}
  }

  /** How many leading keys the Pod holds. */
  function LeadingRun(keys: seq<Key>, index: Index, pod: string): (n: nat)
    ensures n <= |keys|
    ensures forall i :: 0 <= i < n ==> keys[i] in index && pod in index[keys[i]]
    ensures n < |keys| ==> keys[n] !in index || pod !in index[keys[n]]
  {
    if keys == [] || keys[0] !in index || pod !in index[keys[0]] then 0
    else 1 + LeadingRun(keys[1..], index, pod)
  }

  /** The three clauses of LeadingRun determine it. */
  lemma RunIsUnique(keys: seq<Key>, index: Index, pod: string, n: nat)
    requires n <= |keys| && forall i :: 0 <= i < n ==> keys[i] in index && pod in index[keys[i]]
    requires n < |keys| ==> keys[n] !in index || pod !in index[keys[n]]
    ensures LeadingRun(keys, index, pod) == n
  {
  }

  /** The index as each block read of one prompt finds it: events may be applied between two reads. */
  type Reads = nat -> Index

  /** The first read at or after i that finds nobody. */
  function HitsFrom(keys: seq<Key>, views: Reads, allowed: set<string>, i: nat): (n: nat)
    requires i <= |keys|
    ensures i <= n <= |keys|
    ensures forall j :: i <= j < n ==> Holders(views(j), allowed, keys[j]) != {}
    ensures n < |keys| ==> Holders(views(n), allowed, keys[n]) == {}
    decreases |keys| - i
  {
    if i == |keys| || Holders(views(i), allowed, keys[i]) == {} then i else HitsFrom(keys, views, allowed, i + 1)
  }

  /** How many leading reads find somebody allowed. */
  function Hits(keys: seq<Key>, views: Reads, allowed: set<string>): (n: nat)
    ensures n <= |keys|
    ensures forall j :: 0 <= j < n ==> Holders(views(j), allowed, keys[j]) != {}
    ensures n < |keys| ==> Holders(views(n), allowed, keys[n]) == {}
  {
    HitsFrom(keys, views, allowed, 0)
  }

  /** What the first n reads have collected; a repeated key keeps its last read. */
  function Found(keys: seq<Key>, views: Reads, allowed: set<string>, n: nat): Index
    requires n <= |keys|
  {
    if n == 0 then map[]
    else Found(keys, views, allowed, n - 1)[keys[n - 1] := Holders(views(n - 1), allowed, keys[n - 1])]
  }

  /** One block hashed on its own, after a parent key. */
  function BlockKey(h: Hasher, r: Request, parent: Key, i: nat): Key
    requires r.size > 0 && i < FullBlocks(r)
  {
    BlockFits(r.tokens, r.size, i);
    h.chain(ChainState(h, parent, r.model), Block(r.tokens, r.size, i), SaltOf(r.salt, i))
  }

  /** Hashing one more block after the previous key gives the next key of the whole-prompt chain. */
  lemma ChainStep(h: Hasher, r: Request, i: nat, parent: Key)
    requires r.size > 0 && NeverEmpty(h) && i < FullBlocks(r)
    requires parent == if i == 0 then EMPTY_KEY else RequestKeys(h, r)[i - 1]
    ensures BlockKey(h, r, parent, i) == RequestKeys(h, r)[i]
  {
    assert RequestKeys(h, r)[i] == RequestKey(h, r, i);
    if i > 0 { assert parent == RequestKey(h, r, i - 1); }
  }

  /** Block by block: hash, look up, stop at the first miss. */
  method LookupUntilMiss(h: Hasher, r: Request, views: Reads, allowed: set<string>)
    returns (keys: seq<Key>, found: Index)
    requires r.size > 0 && NeverEmpty(h)
    ensures var all := RequestKeys(h, r);
            var hits := Hits(all, views, allowed);
            keys == all[..hits] && found == Found(all, views, allowed, hits)
    ensures |keys| <= FullBlocks(r)
    ensures forall i :: 0 <= i < |keys| ==> exists p :: p in allowed && HeldAt(views, i, RequestKeys(h, r)[i], p)
    ensures |keys| < FullBlocks(r) ==> forall p :: p in allowed ==> !HeldAt(views, |keys|, RequestKeys(h, r)[|keys|], p)
    ensures forall k :: k in found <==> k in keys
    ensures forall k :: k in found ==> found[k] <= allowed
  {
    keys, found := WalkBlocks(h, r, views, allowed);
    WalkMeans(RequestKeys(h, r), views, allowed);
  }

  /** The walk has read i blocks, each with a holder. */
  predicate WalkedTo(all: seq<Key>, views: Reads, allowed: set<string>, i: nat, keys: seq<Key>, found: Index) {
    i <= |all| && keys == all[..i] && found == Found(all, views, allowed, i)
  }

  predicate StopsAt(all: seq<Key>, views: Reads, allowed: set<string>, i: nat, hits: nat) {
    i <= |all| && hits == HitsFrom(all, views, allowed, i)
  }

  lemma WalkOn(all: seq<Key>, views: Reads, allowed: set<string>, i: nat, keys: seq<Key>, found: Index)
    requires WalkedTo(all, views, allowed, i, keys, found) && i < |all|
    ensures WalkedTo(all, views, allowed, i + 1, keys + [all[i]],
                     found[all[i] := Holders(views(i), allowed, all[i])])
  {
  }

  lemma StopOn(all: seq<Key>, views: Reads, allowed: set<string>, i: nat, hits: nat)
    requires StopsAt(all, views, allowed, i, hits) && i < |all|
    ensures if Holders(views(i), allowed, all[i]) == {} then hits == i else StopsAt(all, views, allowed, i + 1, hits)
  {
  }

  method WalkBlocks(h: Hasher, r: Request, views: Reads, allowed: set<string>)
    returns (keys: seq<Key>, found: Index)
    requires r.size > 0 && NeverEmpty(h)
    ensures WalkedTo(RequestKeys(h, r), views, allowed, Hits(RequestKeys(h, r), views, allowed), keys, found)
  {
    ghost var all := RequestKeys(h, r);
    ghost var hits := Hits(all, views, allowed);
    keys, found := [], map[];
    var parent := EMPTY_KEY;
    for i := 0 to FullBlocks(r)
      invariant WalkedTo(all, views, allowed, i, keys, found) && StopsAt(all, views, allowed, i, hits)
      invariant parent == if i == 0 then EMPTY_KEY else all[i - 1]
    {
      ChainStep(h, r, i, parent);
      var key := BlockKey(h, r, parent, i);
      var pods := Holders(views(i), allowed, key);
      WalkOn(all, views, allowed, i, keys, found);
      StopOn(all, views, allowed, i, hits);
      if pods == {} {
        break;
      }
      keys, found, parent := keys + [key], found[key := pods], key;
    }
  }

  /** Where the walk stops, in terms of who holds what when it is read. */
  lemma WalkMeans(all: seq<Key>, views: Reads, allowed: set<string>)
    ensures var hits := Hits(all, views, allowed);
            var found := Found(all, views, allowed, hits);
            && (forall i :: 0 <= i < hits ==> exists p :: p in allowed && HeldAt(views, i, all[i], p))
            && (hits < |all| ==> forall p :: p in allowed ==> !HeldAt(views, hits, all[hits], p))
            && (forall k :: k in found <==> k in all[..hits])
            && (forall k :: k in found ==> found[k] <= allowed)
  {
    var hits := Hits(all, views, allowed);
    forall i | 0 <= i < hits ensures exists p :: p in allowed && HeldAt(views, i, all[i], p) {
      var p :| p in Holders(views(i), allowed, all[i]);
      assert HeldAt(views, i, all[i], p);
    }
    if hits < |all| {
      forall p | p in allowed ensures !HeldAt(views, hits, all[hits], p) {
        assert p !in Holders(views(hits), allowed, all[hits]);
      }
    }
    FoundHasKeys(all, views, allowed, hits);
    FoundAllowed(all, views, allowed, hits);
  }

  lemma {:induction false} FoundAllowed(keys: seq<Key>, views: Reads, allowed: set<string>, n: nat)
    requires n <= |keys|
    ensures forall k :: k in Found(keys, views, allowed, n) ==> Found(keys, views, allowed, n)[k] <= allowed
  {
    if n > 0 { FoundAllowed(keys, views, allowed, n - 1); }
  }

  /** A Pod's score over one prompt: its leading run in what the stopped walk has collected. */
  function WalkScore(all: seq<Key>, views: Reads, allowed: set<string>, pod: string): (n: nat)
    ensures n <= |all|
  {
    var hits := Hits(all, views, allowed);
    LeadingRun(all[..hits], Found(all, views, allowed, hits), pod)
  }

  predicate HeldAt(views: Reads, j: nat, key: Key, pod: string) { key in views(j) && pod in views(j)[key] }

  /** The reference: read every key of the whole prompt, count how many leading reads show the Pod. */
  function FullRun(all: seq<Key>, views: Reads, pod: string, i: nat): (n: nat)
    requires i <= |all|
    ensures i <= n <= |all|
    ensures forall j :: i <= j < n ==> HeldAt(views, j, all[j], pod)
    ensures n < |all| ==> !HeldAt(views, n, all[n], pod)
    decreases |all| - i
  {
    if i == |all| || !HeldAt(views, i, all[i], pod) then i else FullRun(all, views, pod, i + 1)
  }

  lemma {:induction false} FoundHasKeys(keys: seq<Key>, views: Reads, allowed: set<string>, n: nat)
    requires n <= |keys|
    ensures forall k :: k in Found(keys, views, allowed, n) <==> k in keys[..n]
  {
    if n > 0 {
      FoundHasKeys(keys, views, allowed, n - 1);
      assert keys[..n] == keys[..n - 1] + [keys[n - 1]];
    }
  }

  /** The collected holders of key i are those of its last read. */
  lemma {:induction false} FoundIsLastRead(keys: seq<Key>, views: Reads, allowed: set<string>, n: nat, i: nat)
    returns (j: nat)
    requires i < n <= |keys|
    ensures i <= j < n && keys[j] == keys[i]
    ensures keys[i] in Found(keys, views, allowed, n)
    ensures Found(keys, views, allowed, n)[keys[i]] == Holders(views(j), allowed, keys[j])
  {
    if keys[n - 1] == keys[i] {
      j := n - 1;
    } else {
      j := FoundIsLastRead(keys, views, allowed, n - 1, i);
    }
  }

  lemma HeldMeansHit(all: seq<Key>, views: Reads, allowed: set<string>, pod: string, n: nat)
    requires n <= |all| && pod in allowed && forall i :: 0 <= i < n ==> HeldAt(views, i, all[i], pod)
    ensures n <= Hits(all, views, allowed)
  {
    assert forall i :: 0 <= i < n ==> pod in Holders(views(i), allowed, all[i]);
  }

  /** Whatever is applied between the reads: a Pod that holds the first n keys throughout scores at
      least n, and one that never holds key n scores at most n. */
  lemma ScoreBetween(all: seq<Key>, views: Reads, allowed: set<string>, pod: string, n: nat)
    requires n <= |all| && pod in allowed
    ensures (forall i, j :: 0 <= i < n && 0 <= j < |all| ==> HeldAt(views, j, all[i], pod)) ==>
              WalkScore(all, views, allowed, pod) >= n
    ensures n < |all| && (forall j :: 0 <= j < |all| ==> !HeldAt(views, j, all[n], pod)) ==>
              WalkScore(all, views, allowed, pod) <= n
  {
    var hits := Hits(all, views, allowed);
    var keys, found := all[..hits], Found(all, views, allowed, hits);
    if forall i, j :: 0 <= i < n && 0 <= j < |all| ==> HeldAt(views, j, all[i], pod) {
      HeldMeansHit(all, views, allowed, pod, n);
      forall i | 0 <= i < n ensures keys[i] in found && pod in found[keys[i]] {
        var j := FoundIsLastRead(all, views, allowed, hits, i);
        assert HeldAt(views, j, all[i], pod);
      }
    }
    if n < hits && forall j :: 0 <= j < |all| ==> !HeldAt(views, j, all[n], pod) {
      var j := FoundIsLastRead(all, views, allowed, hits, n);
      assert !HeldAt(views, j, all[n], pod) && keys[n] == all[n];
    }
  }

  /** Reads of one key agree; so they do when keys are distinct, or when the index stands still. */
  ghost predicate Repeatable(all: seq<Key>, views: Reads, allowed: set<string>) {
    forall i, j :: 0 <= i < j < |all| && all[i] == all[j] ==>
      Holders(views(i), allowed, all[i]) == Holders(views(j), allowed, all[j])
  }

  lemma RepeatableFound(all: seq<Key>, views: Reads, allowed: set<string>, n: nat)
    requires n <= |all| && Repeatable(all, views, allowed)
    ensures forall i :: 0 <= i < n ==>
              all[i] in Found(all, views, allowed, n)
              && Found(all, views, allowed, n)[all[i]] == Holders(views(i), allowed, all[i])
  {
    forall i | 0 <= i < n
      ensures all[i] in Found(all, views, allowed, n)
      ensures Found(all, views, allowed, n)[all[i]] == Holders(views(i), allowed, all[i])
    {
      var j := FoundIsLastRead(all, views, allowed, n, i);
    }
  }

  /** Stopping at the first miss loses nothing: every allowed Pod scores what it scores when every
      key of the whole prompt is hashed and read. */
  lemma EarlyStopAgrees(all: seq<Key>, views: Reads, allowed: set<string>, pod: string)
    requires pod in allowed && Repeatable(all, views, allowed)
    ensures WalkScore(all, views, allowed, pod) == FullRun(all, views, pod, 0)
  {
    var n, hits := FullRun(all, views, pod, 0), Hits(all, views, allowed);
    var keys, found := all[..hits], Found(all, views, allowed, hits);
    assert forall i :: 0 <= i < n ==> HeldAt(views, i, all[i], pod);
    HeldMeansHit(all, views, allowed, pod, n);
    RepeatableFound(all, views, allowed, hits);
    assert forall i :: 0 <= i < hits ==> keys[i] == all[i];
    RunIsUnique(keys, found, pod, n);
  }

  /** The condition matters: a hash may give two blocks one key, and the key may pass from one Pod to
      another between their reads. The walk keeps the second read only, and the first Pod loses the block
      it was seen to hold. */
  lemma RepeatedKeyLosesRead(r: Request, x: Key, p: string, q: string)
    requires p != q && r.size > 0 && FullBlocks(r) == 2 && x != EMPTY_KEY
    ensures var views: Reads := i => if i == 0 then map[x := {p}] else map[x := {q}];
            var all := RequestKeys(ConstantHasher(x), r);
            WalkScore(all, views, {p, q}, p) == 0 && FullRun(all, views, p, 0) == 1
  {
    var views: Reads := i => if i == 0 then map[x := {p}] else map[x := {q}];
    var h := ConstantHasher(x);
    var all := RequestKeys(h, r);
    assert all[0] == RequestKey(h, r, 0) == x && all[1] == RequestKey(h, r, 1) == x;
    assert all == [x, x];
    TwoReads(x, p, q, views);
  }

  lemma TwoReads(x: Key, p: string, q: string, views: Reads)
    requires p != q && views(0) == map[x := {p}] && views(1) == map[x := {q}]
    ensures WalkScore([x, x], views, {p, q}, p) == 0 && FullRun([x, x], views, p, 0) == 1
  {
    var keys, allowed := [x, x], {p, q};
    assert Holders(views(0), allowed, x) == {p} && Holders(views(1), allowed, x) == {q};
    assert Hits(keys, views, allowed) == 2;
    assert HeldAt(views, 0, x, p) && !HeldAt(views, 1, x, p);
    var j := FoundIsLastRead(keys, views, allowed, 2, 0);
    assert j == 1 by { assert Found(keys, views, allowed, 2)[x] == Holders(views(1), allowed, x); }
    assert keys[..2] == keys;
  }

  /** A hash that gives every block the same key. */
  function ConstantHasher(x: Key): (h: Hasher)
    requires x != EMPTY_KEY
    ensures NeverEmpty(h) && forall state, block, salt :: h.chain(state, block, salt) == x
  {
    Hasher(_ => x, (_, _, _) => x)
  }

  /** With an index that stands still the reference is the leading run over that index. */
  lemma FixedIndexAgrees(all: seq<Key>, views: Reads, index: Index, allowed: set<string>, pod: string)
    requires pod in allowed && forall j :: 0 <= j < |all| ==> views(j) == index
    ensures WalkScore(all, views, allowed, pod) == LeadingRun(all, index, pod)
  {
    EarlyStopAgrees(all, views, allowed, pod);
    var n := FullRun(all, views, pod, 0);
    assert forall i :: 0 <= i < n ==> HeldAt(views, i, all[i], pod);
    RunIsUnique(all, index, pod, n);
  }

  // ---------------------------------------------------------------- several prompts

  datatype Query = Query(groups: seq<seq<Token>>, model: string, salt: string)

  function RequestOf(q: Query, size: nat, i: nat): Request
    requires i < |q.groups|
  {
    Request(q.groups[i], q.model, q.salt, size)
  }

  function TotalTokens(groups: seq<seq<Token>>): nat {
    if groups == [] then 0 else TotalTokens(groups[..|groups| - 1]) + |groups[|groups| - 1]|
  }

  function TotalBlocks(groups: seq<seq<Token>>, size: nat): nat
    requires size > 0
  {
    if groups == [] then 0 else TotalBlocks(groups[..|groups| - 1], size) + BlockCount(groups[|groups| - 1], size)
  }

  lemma TotalTokensNext(groups: seq<seq<Token>>, i: nat)
    requires i < |groups|
    ensures TotalTokens(groups[..i + 1]) == TotalTokens(groups[..i]) + |groups[i]|
  {
    assert groups[..i + 1][..i] == groups[..i] && groups[..i + 1][i] == groups[i];
  }

  lemma TotalBlocksNext(groups: seq<seq<Token>>, size: nat, i: nat)
    requires size > 0 && i < |groups|
    ensures TotalBlocks(groups[..i + 1], size) == TotalBlocks(groups[..i], size) + BlockCount(groups[i], size)
  {
    assert groups[..i + 1][..i] == groups[..i] && groups[..i + 1][i] == groups[i];
  }

  /** The reference answer for the first n prompts over one index: hash everything, score every key. */
  function FullScore(h: Hasher, q: Query, size: nat, index: Index, pod: string, n: nat): nat
    requires size > 0 && n <= |q.groups|
  {
    if n == 0 then 0
    else FullScore(h, q, size, index, pod, n - 1) + LeadingRun(RequestKeys(h, RequestOf(q, size, n - 1)), index, pod)
  }

  /** The index as block read (prompt, block) finds it. */
  type QueryReads = (nat, nat) -> Index

  function ReadsOf(views: QueryReads, prompt: nat): Reads { j => views(prompt, j) }

  /** The sum of the walk's scores over the first n prompts. */
  function QueryScore(h: Hasher, q: Query, size: nat, views: QueryReads, allowed: set<string>, pod: string, n: nat): nat
    requires size > 0 && n <= |q.groups|
  {
    if n == 0 then 0
    else QueryScore(h, q, size, views, allowed, pod, n - 1)
         + WalkScore(RequestKeys(h, RequestOf(q, size, n - 1)), ReadsOf(views, n - 1), allowed, pod)
  }

  /** With an index that stands still during the lookup, every backend scores the reference answer. */
  lemma {:induction false} QueryScoreIsFull(h: Hasher, q: Query, size: nat, views: QueryReads, index: Index,
                                            allowed: set<string>, pod: string, n: nat)
    requires size > 0 && n <= |q.groups| && pod in allowed && forall i, j :: views(i, j) == index
    ensures QueryScore(h, q, size, views, allowed, pod, n) == FullScore(h, q, size, index, pod, n)
  {
    if n > 0 {
      QueryScoreIsFull(h, q, size, views, index, allowed, pod, n - 1);
      var all := RequestKeys(h, RequestOf(q, size, n - 1));
      assert WalkScore(all, ReadsOf(views, n - 1), allowed, pod) == LeadingRun(all, index, pod) by {
        FixedIndexAgrees(all, ReadsOf(views, n - 1), index, allowed, pod);
      }
    }
  }

  function Get(m: map<string, nat>, b: string): nat { if b in m then m[b] else 0 }

  /** The scorer's answer: every Pod that holds the first key, with its leading run. */
  function Scores(keys: seq<Key>, found: Index): (scores: map<string, nat>)
    requires keys != [] && keys[0] in found
    ensures forall p :: p in scores ==> scores[p] == LeadingRun(keys, found, p)
    ensures forall p :: p !in scores ==> LeadingRun(keys, found, p) == 0
  {
    map p | p in found[keys[0]] :: LeadingRun(keys, found, p)
  }

  /** No two backends share a Pod. */
  ghost predicate OwnPods(pods: map<string, string>) {
    forall b, d :: b in pods && d in pods && b != d ==> pods[b] != pods[d]
  }

  /** Add each scored Pod to its backend. */
  method AddScores(matched: map<string, nat>, scores: map<string, nat>, pods: map<string, string>)
    returns (result: map<string, nat>)
    requires OwnPods(pods)
    ensures forall b :: b in pods ==> Get(result, b) == Get(matched, b) + Get(scores, pods[b])
    ensures forall b :: b !in pods ==> Get(result, b) == Get(matched, b)
  {
    result := matched;
    var backendByPod: map<string, string> := map b | b in pods :: pods[b] := b;
    var todo := scores.Keys;
    while todo != {}
      invariant todo <= scores.Keys
      invariant forall b :: b !in pods ==> Get(result, b) == Get(matched, b)
      invariant forall b :: b in pods ==>
                  Get(result, b) == Get(matched, b)
                    + if pods[b] in scores && pods[b] !in todo then scores[pods[b]] else 0
      decreases todo
    {
      var p :| p in todo;
      todo := todo - {p};
      if p in backendByPod {
        var b := backendByPod[p];
        result := result[b := Get(result, b) + scores[p]];
      }
    }
  }

  /** One prompt: the backends' scores added to what they have. */
  method AddPrompt(h: Hasher, r: Request, views: Reads, pods: map<string, string>, matched: map<string, nat>)
    returns (result: map<string, nat>)
    requires r.size > 0 && NeverEmpty(h)
    requires OwnPods(pods)
    ensures forall b :: b in pods ==>
              Get(result, b) == Get(matched, b) + WalkScore(RequestKeys(h, r), views, pods.Values, pods[b])
    ensures forall b :: b !in pods ==> Get(result, b) == Get(matched, b)
  {
    var keys, found := LookupUntilMiss(h, r, views, pods.Values);
    assert keys != [] ==> keys[0] in keys;
    result := AddFound(keys, found, pods, matched);
  }

  /** Nothing is scored without a key. */
  method AddFound(keys: seq<Key>, found: Index, pods: map<string, string>, matched: map<string, nat>)
    returns (result: map<string, nat>)
    requires OwnPods(pods) && (keys != [] ==> keys[0] in found)
    ensures forall b :: b in pods ==> Get(result, b) == Get(matched, b) + LeadingRun(keys, found, pods[b])
    ensures forall b :: b !in pods ==> Get(result, b) == Get(matched, b)
  {
    result := matched;
    if keys != [] {
      result := AddScores(matched, Scores(keys, found), pods);
    }
  }

  ghost predicate Scored(h: Hasher, q: Query, size: nat, views: QueryReads, pods: map<string, string>,
                         matched: map<string, nat>, n: nat)
    requires size > 0 && n <= |q.groups|
  {
    && (forall b :: b in pods ==> Get(matched, b) == QueryScore(h, q, size, views, pods.Values, pods[b], n))
    && (forall b :: b !in pods ==> Get(matched, b) == 0)
  }

  lemma ScoredNext(h: Hasher, q: Query, size: nat, views: QueryReads, pods: map<string, string>,
                   before: map<string, nat>, after: map<string, nat>, n: nat)
    requires size > 0 && n < |q.groups| && Scored(h, q, size, views, pods, before, n)
    requires var keys := RequestKeys(h, RequestOf(q, size, n));
             forall b :: b in pods ==>
               Get(after, b) == Get(before, b) + WalkScore(keys, ReadsOf(views, n), pods.Values, pods[b])
    requires forall b :: b !in pods ==> Get(after, b) == Get(before, b)
    ensures Scored(h, q, size, views, pods, after, n + 1)
  {
  }

  method AddPromptOf(h: Hasher, q: Query, size: nat, views: QueryReads, pods: map<string, string>,
                     matched: map<string, nat>, i: nat) returns (result: map<string, nat>)
    requires size > 0 && NeverEmpty(h) && OwnPods(pods)
    requires i < |q.groups| && Scored(h, q, size, views, pods, matched, i)
    ensures Scored(h, q, size, views, pods, result, i + 1)
  {
    result := AddPrompt(h, RequestOf(q, size, i), ReadsOf(views, i), pods, matched);
    ScoredNext(h, q, size, views, pods, matched, result, i);
  }

  /** The store's lookup over all prompts of a query; `pods` maps each backend to its own Pod. */
  method Lookup(h: Hasher, q: Query, size: nat, views: QueryReads, pods: map<string, string>)
    returns (matched: map<string, nat>, totalBlocks: nat)
    requires size > 0 && NeverEmpty(h)
    requires OwnPods(pods)
    ensures forall b :: b in pods ==> Get(matched, b) == QueryScore(h, q, size, views, pods.Values, pods[b], |q.groups|)
    ensures forall b :: b !in pods ==> Get(matched, b) == 0
    ensures totalBlocks == TotalBlocks(q.groups, size)
  {
    matched, totalBlocks := map[], 0;
    for i := 0 to |q.groups|
      invariant Scored(h, q, size, views, pods, matched, i)
      invariant totalBlocks == TotalBlocks(q.groups[..i], size)
    {
      matched := AddPromptOf(h, q, size, views, pods, matched, i);
      totalBlocks := totalBlocks + BlockCount(q.groups[i], size);
      TotalBlocksNext(q.groups, size, i);
    }
    assert q.groups[..|q.groups|] == q.groups;
  }

  // ---------------------------------------------------------------- matches in range

  lemma {:induction false} ScoreWithinBlocks(h: Hasher, q: Query, size: nat, views: QueryReads, allowed: set<string>,
                                             pod: string, n: nat)
    requires size > 0 && n <= |q.groups|
    ensures QueryScore(h, q, size, views, allowed, pod, n) <= TotalBlocks(q.groups[..n], size)
  {
    if n > 0 {
      ScoreWithinBlocks(h, q, size, views, allowed, pod, n - 1);
      ScoreWithinNext(h, q, size, views, allowed, pod, n - 1);
    }
  }

  lemma ScoreWithinNext(h: Hasher, q: Query, size: nat, views: QueryReads, allowed: set<string>, pod: string, n: nat)
    requires size > 0 && n < |q.groups|
    ensures QueryScore(h, q, size, views, allowed, pod, n) <= TotalBlocks(q.groups[..n], size) ==>
            QueryScore(h, q, size, views, allowed, pod, n + 1) <= TotalBlocks(q.groups[..n + 1], size)
  {
    TotalBlocksNext(q.groups, size, n);
    QueryScoreNext(h, q, size, views, allowed, pod, n);
    PromptWithinBlocks(h, RequestOf(q, size, n), ReadsOf(views, n), allowed, pod);
  }

  lemma QueryScoreNext(h: Hasher, q: Query, size: nat, views: QueryReads, allowed: set<string>, pod: string, n: nat)
    requires size > 0 && n < |q.groups|
    ensures QueryScore(h, q, size, views, allowed, pod, n + 1)
         == QueryScore(h, q, size, views, allowed, pod, n)
            + WalkScore(RequestKeys(h, RequestOf(q, size, n)), ReadsOf(views, n), allowed, pod)
  {
  }

  lemma PromptWithinBlocks(h: Hasher, r: Request, views: Reads, allowed: set<string>, pod: string)
    requires r.size > 0
    ensures WalkScore(RequestKeys(h, r), views, allowed, pod) <= BlockCount(r.tokens, r.size)
  {
  }

  /** The service's use of the store: a prompt without a full block, or no valid instance, is not
      looked up at all, and nobody loses blocks by that. */
  method MatchedBlocks(h: Hasher, q: Query, size: nat, views: QueryReads, pods: map<string, string>)
    returns (matched: map<string, nat>, totalBlocks: nat)
    requires size > 0 && NeverEmpty(h)
    requires OwnPods(pods)
    ensures forall b :: b in pods ==> Get(matched, b) == QueryScore(h, q, size, views, pods.Values, pods[b], |q.groups|)
    ensures totalBlocks == TotalBlocks(q.groups, size)
  {
    matched, totalBlocks := map[], TotalBlocks(q.groups, size);
    if |pods| > 0 && totalBlocks > 0 {
      matched, totalBlocks := Lookup(h, q, size, views, pods);
      return;
    }
    forall b | b in pods ensures QueryScore(h, q, size, views, pods.Values, pods[b], |q.groups|) == 0 {
      ScoreWithinBlocks(h, q, size, views, pods.Values, pods[b], |q.groups|);
      assert q.groups[..|q.groups|] == q.groups;
      assert pods != map[];
    }
  }

  /** The tokens and blocks of a query are those of its prompts put end to end, prompt by prompt. */
  function Joined(groups: seq<seq<Token>>): seq<Token> {
    if groups == [] then [] else Joined(groups[..|groups| - 1]) + groups[|groups| - 1]
  }

  lemma {:induction false} TotalsMean(groups: seq<seq<Token>>, size: nat)
    requires size > 0
    ensures TotalTokens(groups) == |Joined(groups)|
    ensures TotalBlocks(groups, size) * size <= TotalTokens(groups)
    ensures TotalTokens(groups) <= TotalBlocks(groups, size) * size + |groups| * (size - 1)
  {
    if groups != [] {
      var n := |groups| - 1;
      TotalsMean(groups[..n], size);
      var a, b := TotalBlocks(groups[..n], size), BlockCount(groups[n], size);
      SumTimes(a, b, size);
      SumTimes(n, 1, size - 1);
    }
  }

  lemma SumTimes(a: nat, b: nat, size: int)
    ensures (a + b) * size == a * size + b * size
  {
  }

  /** What a Valid match reports as cached tokens: whole blocks, all of the matched ones and no others. */
  function MatchedTokens(blocks: nat, size: nat): (tokens: nat)
    ensures size > 0 ==> tokens / size == blocks && tokens % size == 0
  {
    if size > 0 then WholeBlocks(blocks, size); blocks * size else 0
  }

  lemma WholeBlocks(blocks: nat, size: nat)
    requires size > 0
    ensures (blocks * size) / size == blocks && (blocks * size) % size == 0
  {
    DivUnique(blocks * size, size, blocks);
    assert blocks * size == size * ((blocks * size) / size) + (blocks * size) % size;
  }

  /** For every tokenized request, whatever is applied to the index meanwhile, a Valid match reports
      at most its tokens, summed over prompts whose tails do not fill a block; so the KV cost of a
      backend starts non-negative. */
  lemma MatchWithinPrompt(h: Hasher, q: Query, size: nat, views: QueryReads, allowed: set<string>, pod: string)
    requires size > 0
    ensures MatchedTokens(QueryScore(h, q, size, views, allowed, pod, |q.groups|), size) <= TotalTokens(q.groups)
  {
    var n := QueryScore(h, q, size, views, allowed, pod, |q.groups|);
    ScoreWithinBlocks(h, q, size, views, allowed, pod, |q.groups|);
    TotalsMean(q.groups, size);
    assert q.groups[..|q.groups|] == q.groups;
    MulAtMost(n, TotalBlocks(q.groups, size), size);
  }

  /** With matches produced by a lookup, the routing gate's range test never fails: only an empty
      prompt, an empty candidate list or an invalid match can close it. */
  lemma GateDependsOnValidityOnly(h: Hasher, q: Query, size: nat, views: QueryReads, pods: map<string, string>,
                                  s: Routing.Snapshot, candidates: seq<string>)
    requires size > 0 && s.promptTokens == TotalTokens(q.groups)
    requires forall c :: c in s.matches && s.matches[c].valid ==>
               (c in pods && s.matches[c].matchedTokens
                  == MatchedTokens(QueryScore(h, q, size, views, pods.Values, pods[c], |q.groups|), size))
    ensures Routing.UsableFor(s, candidates) <==>
            s.promptTokens > 0 && |candidates| > 0
            && forall c :: c in candidates ==> c in s.matches && s.matches[c].valid
  {
    forall c | c in candidates && c in s.matches && s.matches[c].valid
      ensures 0 <= s.matches[c].matchedTokens <= s.promptTokens
    {
      MatchWithinPrompt(h, q, size, views, pods.Values, pods[c]);
    }
  }

  lemma {:induction false} PrefixTokens(groups: seq<seq<Token>>, i: nat)
    requires i <= |groups|
    ensures TotalTokens(groups[..i]) <= TotalTokens(groups)
    decreases |groups|
  {
    if i < |groups| {
      PrefixTokens(groups[..|groups| - 1], i);
      assert groups[..|groups| - 1][..i] == groups[..i];
    } else {
      assert groups[..i] == groups;
    }
  }

  datatype Verdict = Accepted | Invalid | OverCapacity

  ghost predicate WellFormedQuery(q: Query, backends: seq<string>) {
    && TrimSpace(q.model) != "" && q.groups != [] && backends != []
    && (forall i :: 0 <= i < |backends| ==> backends[i] != "")
    && (forall i, j :: 0 <= i < j < |backends| ==> backends[i] != backends[j])
  }

  method ValidateBackends(backends: seq<string>) returns (ok: bool)
    ensures ok <==> (forall i :: 0 <= i < |backends| ==> backends[i] != "")
                    && (forall i, j :: 0 <= i < j < |backends| ==> backends[i] != backends[j])
  {
    var named := {};
    for i := 0 to |backends|
      invariant named == set k | 0 <= k < i :: backends[k]
      invariant forall k :: 0 <= k < i ==> backends[k] != ""
      invariant forall j, k :: 0 <= j < k < i ==> backends[j] != backends[k]
    {
      if backends[i] == "" || backends[i] in named {
        return false;
      }
      named := named + {backends[i]};
    }
    return true;
  }

  /** A malformed query is invalid; a well-formed one is refused exactly when its salt or all its
      prompts together are too long; otherwise its size is measured. */
  method ValidateQuery(q: Query, backends: seq<string>, size: nat, maxSalt: nat, maxTokens: nat)
    returns (verdict: Verdict, totalTokens: nat, totalBlocks: nat)
    requires size > 0
    ensures verdict == if !WellFormedQuery(q, backends) then Invalid
                       else if |q.salt| > maxSalt || TotalTokens(q.groups) > maxTokens then OverCapacity else Accepted
    ensures verdict.Accepted? ==> totalTokens == TotalTokens(q.groups) && totalBlocks == TotalBlocks(q.groups, size)
    ensures !verdict.Accepted? ==> totalTokens == 0 && totalBlocks == 0
  {
    var named := ValidateBackends(backends);
    if TrimSpace(q.model) == "" || q.groups == [] || backends == [] || !named {
      return Invalid, 0, 0;
    }
    if |q.salt| > maxSalt {
      return OverCapacity, 0, 0;
    }
    var ok, tokens, blocks := MeasureQuery(q.groups, size, maxTokens);
    return if ok then Accepted else OverCapacity, tokens, blocks;
  }

  /** The size part of validateQuery: refused exactly when all prompts together exceed the limit. */
  method MeasureQuery(groups: seq<seq<Token>>, size: nat, maxTokens: nat)
    returns (ok: bool, totalTokens: nat, totalBlocks: nat)
    requires size > 0
    ensures ok <==> TotalTokens(groups) <= maxTokens
    ensures ok ==> totalTokens == TotalTokens(groups) && totalBlocks == TotalBlocks(groups, size)
    ensures !ok ==> totalTokens == 0 && totalBlocks == 0
  {
    totalTokens, totalBlocks := 0, 0;
    for i := 0 to |groups|
      invariant totalTokens == TotalTokens(groups[..i]) <= maxTokens
      invariant totalBlocks == TotalBlocks(groups[..i], size)
    {
      TotalBlocksNext(groups, size, i);
      TotalTokensNext(groups, i);
      totalTokens := totalTokens + |groups[i]|;
      if totalTokens > maxTokens {
        PrefixTokens(groups, i + 1);
        return false, 0, 0;
      }
      totalBlocks := totalBlocks + BlockCount(groups[i], size);
    }
    assert groups[..|groups|] == groups;
    ok := true;
  }
}
