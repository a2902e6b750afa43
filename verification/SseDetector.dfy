/**
 First-event detection on a server-sent event stream that arrives in arbitrary chunks.
 Bytes are kept as bytes; whitespace is what Unicode calls white space, in UTF-8.
 */
module SseDetector {

  type Byte = b: nat | b < 256

  const NEWLINE: Byte := 10
  const DATA_PREFIX: seq<Byte> := [100, 97, 116, 97, 58]   // data:
  const DONE: seq<Byte> := [91, 68, 79, 78, 69, 93]        // [DONE]

  // ---------------------------------------------------------------- lines

  predicate AsciiSpace(b: Byte) { 9 <= b <= 13 || b == 32 }

  /** U+0085 and U+00A0. */
  predicate TwoByteSpace(a: Byte, b: Byte) { a == 0xC2 && (b == 0x85 || b == 0xA0) }

  /** U+1680, U+2000 to U+200A, U+2028, U+2029, U+202F, U+205F and U+3000. */
  predicate ThreeByteSpace(a: Byte, b: Byte, c: Byte) {
    || (a == 0xE1 && b == 0x9A && c == 0x80)
    || (a == 0xE2 && b == 0x80 && (0x80 <= c <= 0x8A || c == 0xA8 || c == 0xA9 || c == 0xAF))
    || (a == 0xE2 && b == 0x81 && c == 0x9F)
    || (a == 0xE3 && b == 0x80 && c == 0x80)
  }

  /** Length of the white-space character that starts the bytes, 0 if there is none. */
  function LeadingSpace(s: seq<Byte>): (n: nat)
    ensures n <= |s|
  {
    if |s| >= 1 && AsciiSpace(s[0]) then 1
    else if |s| >= 2 && TwoByteSpace(s[0], s[1]) then 2
    else if |s| >= 3 && ThreeByteSpace(s[0], s[1], s[2]) then 3
    else 0
  }

  function TrailingSpace(s: seq<Byte>): (n: nat)
    ensures n <= |s|
  {
    var k := |s|;
    if k >= 1 && AsciiSpace(s[k - 1]) then 1
    else if k >= 2 && TwoByteSpace(s[k - 2], s[k - 1]) then 2
    else if k >= 3 && ThreeByteSpace(s[k - 3], s[k - 2], s[k - 1]) then 3
    else 0
  }

  function TrimLeft(s: seq<Byte>): seq<Byte>
    decreases |s|
  {
    if LeadingSpace(s) == 0 then s else TrimLeft(s[LeadingSpace(s)..])
  }

  function TrimRight(s: seq<Byte>): seq<Byte>
    decreases |s|
  {
    if TrailingSpace(s) == 0 then s else TrimRight(s[..|s| - TrailingSpace(s)])
  }

  function Trim(s: seq<Byte>): seq<Byte> { TrimRight(TrimLeft(s)) }

  /** A data line that is not the terminal marker. */
  predicate IsEventLine(line: seq<Byte>) {
    var text := Trim(line);
    DATA_PREFIX <= text && Trim(text[|DATA_PREFIX|..]) != DONE
  }

  /** The bytes are white-space characters, one after the other. */
  predicate Spaces(s: seq<Byte>)
    decreases |s|
  {
    s == [] || (LeadingSpace(s) > 0 && Spaces(s[LeadingSpace(s)..]))
  }

  predicate SpacesBack(s: seq<Byte>)
    decreases |s|
  {
    s == [] || (TrailingSpace(s) > 0 && SpacesBack(s[..|s| - TrailingSpace(s)]))
  }

  lemma {:induction false} TrimLeftIs(s: seq<Byte>) returns (before: seq<Byte>)
    ensures Spaces(before) && s == before + TrimLeft(s) && LeadingSpace(TrimLeft(s)) == 0
    decreases |s|
  {
    var n := LeadingSpace(s);
    if n == 0 {
      before := [];
    } else {
      var more := TrimLeftIs(s[n..]);
      before := s[..n] + more;
      assert s == s[..n] + s[n..];
      Associates(s[..n], more, TrimLeft(s));
      SpacesCons(s[..n], s[n..], more);
    }
  }

  lemma {:induction false} TrimRightIs(s: seq<Byte>) returns (after: seq<Byte>)
    ensures SpacesBack(after) && s == TrimRight(s) + after && TrailingSpace(TrimRight(s)) == 0
    decreases |s|
  {
    var n := TrailingSpace(s);
    if n == 0 {
      after := [];
    } else {
      var cut := |s| - n;
      var more := TrimRightIs(s[..cut]);
      after := more + s[cut..];
      assert s == s[..cut] + s[cut..];
      Associates(TrimRight(s), more, s[cut..]);
      SpacesSnoc(s[..cut], more, s[cut..]);
    }
  }

  lemma Associates(a: seq<Byte>, b: seq<Byte>, c: seq<Byte>)
    ensures (a + b) + c == a + (b + c)
  {
  }

  /** Which white space begins or ends a string depends on its first or last bytes only. */
  lemma SpacesCons(head: seq<Byte>, a: seq<Byte>, b: seq<Byte>)
    requires LeadingSpace(head + a) == |head| > 0 && Spaces(b)
    ensures Spaces(head + b)
  {
    assert LeadingSpace(head + b) == |head|;
    assert (head + b)[|head|..] == b;
  }

  lemma SpacesSnoc(a: seq<Byte>, b: seq<Byte>, tail: seq<Byte>)
    requires TrailingSpace(a + tail) == |tail| > 0 && SpacesBack(b)
    ensures SpacesBack(b + tail)
  {
    assert TrailingSpace(b + tail) == |tail|;
    assert (b + tail)[..|b + tail| - |tail|] == b;
  }

  /** Trimming takes whole white-space characters from both ends and nothing else, and leaves none there. */
  lemma TrimIs(s: seq<Byte>) returns (before: seq<Byte>, after: seq<Byte>)
    ensures Spaces(before) && SpacesBack(after) && s == before + (Trim(s) + after) && TrailingSpace(Trim(s)) == 0
  {
    before := TrimLeftIs(s);
    after := TrimRightIs(TrimLeft(s));
  }

  /** An event line in bytes: trimmed, it begins with "data:", and what follows, trimmed, is not "[DONE]". */
  lemma EventLineIs(line: seq<Byte>)
    ensures IsEventLine(line) <==>
            |Trim(line)| >= 5 && Trim(line)[..5] == [100, 97, 116, 97, 58]
            && Trim(Trim(line)[5..]) != [91, 68, 79, 78, 69, 93]
  {
  }

  // ---------------------------------------------------------------- white space in UTF-8

  /** The code points that are white space. */
  predicate WhiteSpace(c: nat) {
    9 <= c <= 13 || c == 0x20 || c == 0x85 || c == 0xA0 || c == 0x1680 || 0x2000 <= c <= 0x200A
    || c == 0x2028 || c == 0x2029 || c == 0x202F || c == 0x205F || c == 0x3000
  }

  function Utf8(c: nat): seq<Byte>
    requires c < 0x10000
  {
    if c < 0x80 then [c]
    else if c < 0x800 then [0xC0 + c / 64, 0x80 + c % 64]
    else [0xE0 + c / 4096, 0x80 + c / 64 % 64, 0x80 + c % 64]
  }

  /** The last n bytes are taken as a white-space character exactly if they are one by themselves. */
  lemma TrailingIsLeading(s: seq<Byte>, n: nat)
    requires 0 < n <= |s|
    ensures TrailingSpace(s) == n <==> LeadingSpace(s[|s| - n..]) == n
  {
    var t := s[|s| - n..];
    assert |t| == n && t[0] == s[|s| - n] && t[n - 1] == s[|s| - 1];
    if n >= 2 { assert t[1] == s[|s| - n + 1]; }
  }

  /** The byte tests recognise exactly the encoded white-space characters. */
  lemma SpacesAreUtf8(s: seq<Byte>)
    ensures LeadingSpace(s) > 0 <==>
            exists c :: WhiteSpace(c) && c < 0x10000 && Utf8(c) <= s && LeadingSpace(s) == |Utf8(c)|
    ensures forall c :: WhiteSpace(c) && c < 0x10000 && Utf8(c) <= s ==> LeadingSpace(s) == |Utf8(c)|
  {
    if LeadingSpace(s) == 1 {
      assert WhiteSpace(s[0]) && Utf8(s[0]) <= s;
    } else if LeadingSpace(s) == 2 {
      assert Utf8(s[1]) <= s && WhiteSpace(s[1]);
    } else if LeadingSpace(s) == 3 {
      ThreeBytes(s);
    }
    forall c | WhiteSpace(c) && c < 0x10000 && Utf8(c) <= s ensures LeadingSpace(s) == |Utf8(c)| {
      assert Utf8(c)[0] == s[0];
      if c >= 0x80 { assert Utf8(c)[1] == s[1]; }
      if c >= 0x800 { assert Utf8(c)[2] == s[2]; }
    }
  }

  lemma ThreeBytes(s: seq<Byte>)
    requires |s| >= 3 && ThreeByteSpace(s[0], s[1], s[2])
    ensures exists c :: WhiteSpace(c) && c < 0x10000 && Utf8(c) <= s && |Utf8(c)| == 3
  {
    var x: int, y: int, z: int := s[0], s[1], s[2];
    var c: nat := (x - 0xE0) * 4096 + (y - 0x80) * 64 + (z - 0x80);
    assert WhiteSpace(c) && Utf8(c) == s[..3];
  }

  // ---------------------------------------------------------------- the detector

  datatype Detector = Detector(line: seq<Byte>, emitted: bool)

  function FeedByte(d: Detector, b: Byte): (Detector, bool) {
    if d.emitted then (d, false)
    else if b != NEWLINE then (d.(line := d.line + [b]), false)
    else (Detector([], IsEventLine(d.line)), IsEventLine(d.line))
  }

  function Feed(d: Detector, chunk: seq<Byte>): (Detector, bool)
    decreases |chunk|
  {
    if d.emitted || chunk == [] then (d, false)
    else
      var (e, hit) := FeedByte(d, chunk[0]);
      if hit then (e, true) else Feed(e, chunk[1..])
  }

  // ---------------------------------------------------------------- the reference: whole lines

  /** Where the line that contains position n starts. */
  function LineStart(stream: seq<Byte>, n: nat): (start: nat)
    requires n <= |stream|
    ensures start <= n
    ensures forall j :: start <= j < n ==> stream[j] != NEWLINE
    ensures start > 0 ==> stream[start - 1] == NEWLINE
  {
    if n == 0 || stream[n - 1] == NEWLINE then n else LineStart(stream, n - 1)
  }

  /** Position i holds the newline that ends an event line. */
  predicate EndsEvent(stream: seq<Byte>, i: nat) {
    i < |stream| && stream[i] == NEWLINE && IsEventLine(stream[LineStart(stream, i)..i])
  }

  /** A line runs from after the last line feed, byte 10, to the next one. */
  lemma LineIs(stream: seq<Byte>, i: nat)
    requires i < |stream|
    ensures EndsEvent(stream, i) <==> stream[i] == 10 && IsEventLine(stream[LineStart(stream, i)..i])
    ensures var start := LineStart(stream, i);
            start <= i && (start > 0 ==> stream[start - 1] == 10) && forall j :: start <= j < i ==> stream[j] != 10
  {
  }

  /** An event line has ended before position n. */
  ghost predicate Seen(stream: seq<Byte>, n: nat) { exists i :: 0 <= i < n && EndsEvent(stream, i) }

  /** The detector has consumed exactly the first n bytes of the stream. */
  ghost predicate Consumed(stream: seq<Byte>, n: nat, d: Detector)
    requires n <= |stream|
  {
    if Seen(stream, n) then d.emitted else d == Detector(stream[LineStart(stream, n)..n], false)
  }

  lemma FeedByteConsumes(stream: seq<Byte>, n: nat, d: Detector)
    requires n < |stream| && Consumed(stream, n, d)
    ensures Consumed(stream, n + 1, FeedByte(d, stream[n]).0)
    ensures FeedByte(d, stream[n]).1 <==> !Seen(stream, n) && Seen(stream, n + 1)
  {
    if Seen(stream, n) {
      var i :| 0 <= i < n && EndsEvent(stream, i);
      assert 0 <= i < n + 1;
    } else {
      assert Seen(stream, n + 1) <==> EndsEvent(stream, n);
      if stream[n] != NEWLINE {
        assert stream[LineStart(stream, n + 1)..n + 1] == stream[LineStart(stream, n)..n] + [stream[n]];
      }
    }
  }

  lemma SeenLater(stream: seq<Byte>, n: nat, m: nat)
    requires Seen(stream, n) && n <= m
    ensures Seen(stream, m)
  {
    var i :| 0 <= i < n && EndsEvent(stream, i);
    assert 0 <= i < m;
  }

  /** Feeding any slice reports a hit exactly when the first event line ends inside it. */
  lemma {:induction false} FeedConsumes(stream: seq<Byte>, n: nat, m: nat, d: Detector)
    requires n <= m <= |stream| && Consumed(stream, n, d)
    ensures Consumed(stream, m, Feed(d, stream[n..m]).0)
    ensures Feed(d, stream[n..m]).1 <==> !Seen(stream, n) && Seen(stream, m)
    decreases m - n
  {
    if d.emitted {
      SeenLater(stream, n, m);
    } else if n < m {
      var chunk := stream[n..m];
      var (e, hit) := FeedByte(d, chunk[0]);
      FeedByteConsumes(stream, n, d);
      if hit {
        SeenLater(stream, n + 1, m);
      } else {
        assert chunk[1..] == stream[n + 1..m];
        FeedConsumes(stream, n + 1, m, e);
      }
    }
  }

  // ---------------------------------------------------------------- any chunking

  function Concat(chunks: seq<seq<Byte>>): seq<Byte> {
    if chunks == [] then [] else Concat(chunks[..|chunks| - 1]) + chunks[|chunks| - 1]
  }

  function After(chunks: seq<seq<Byte>>): Detector {
    if chunks == [] then Detector([], false) else Feed(After(chunks[..|chunks| - 1]), chunks[|chunks| - 1]).0
  }

  /** What Feed returns for chunk k when the chunks arrive one after another. */
  function Result(chunks: seq<seq<Byte>>, k: nat): bool
    requires k < |chunks|
  {
    Feed(After(chunks[..k]), chunks[k]).1
  }

  lemma {:induction false} PrefixOfConcat(chunks: seq<seq<Byte>>, k: nat)
    requires k <= |chunks|
    ensures Concat(chunks[..k]) <= Concat(chunks)
    decreases |chunks|
  {
    if k == |chunks| {
      assert chunks[..k] == chunks;
    } else {
      var shorter := chunks[..|chunks| - 1];
      PrefixOfConcat(shorter, k);
      assert shorter[..k] == chunks[..k];
    }
  }

  lemma {:induction false} AfterConsumes(chunks: seq<seq<Byte>>, k: nat)
    requires k <= |chunks|
    ensures Concat(chunks[..k]) <= Concat(chunks)
    ensures Consumed(Concat(chunks), |Concat(chunks[..k])|, After(chunks[..k]))
    ensures k > 0 ==> (Result(chunks, k - 1) <==>
              !Seen(Concat(chunks), |Concat(chunks[..k - 1])|) && Seen(Concat(chunks), |Concat(chunks[..k])|))
  {
    PrefixOfConcat(chunks, k);
    if k > 0 {
      AfterConsumes(chunks, k - 1);
      PrefixOfConcat(chunks, k - 1);
      var stream, before := Concat(chunks), Concat(chunks[..k - 1]);
      assert chunks[..k][..k - 1] == chunks[..k - 1];
      var n, m := |before|, |Concat(chunks[..k])|;
      assert stream[..m] == before + chunks[k - 1];
      assert stream[n..m] == chunks[k - 1];
      FeedConsumes(stream, n, m, After(chunks[..k - 1]));
    }
  }

  lemma ResultMeans(chunks: seq<seq<Byte>>, k: nat)
    requires k < |chunks|
    ensures Result(chunks, k) <==>
            !Seen(Concat(chunks), |Concat(chunks[..k])|) && Seen(Concat(chunks), |Concat(chunks[..k + 1])|)
  {
    AfterConsumes(chunks, k + 1);
  }

  lemma OffsetsGrow(chunks: seq<seq<Byte>>, j: nat, k: nat)
    requires j <= k <= |chunks|
    ensures |Concat(chunks[..j])| <= |Concat(chunks[..k])|
  {
    PrefixOfConcat(chunks[..k], j);
    assert chunks[..k][..j] == chunks[..j];
  }

  /** For any split of any byte stream, Feed returns true for chunk k if and only if the newline that
      ends the first event line of the concatenated stream lies in chunk k. */
  lemma DetectionIgnoresChunking(chunks: seq<seq<Byte>>, k: nat)
    requires k < |chunks|
    ensures Result(chunks, k) <==>
            exists i :: |Concat(chunks[..k])| <= i < |Concat(chunks[..k + 1])| && EndsEvent(Concat(chunks), i)
                        && !Seen(Concat(chunks), i)
  {
    var stream, n, m := Concat(chunks), |Concat(chunks[..k])|, |Concat(chunks[..k + 1])|;
    ResultMeans(chunks, k);
    if Result(chunks, k) {
      var i := FirstEnd(stream, m);
      assert n <= i;
    } else {
      forall i | n <= i < m && EndsEvent(stream, i) ensures Seen(stream, i) {
        assert Seen(stream, m);
        SeenLater(stream, n, i);
      }
    }
  }

  lemma {:induction false} FirstEnd(stream: seq<Byte>, m: nat) returns (i: nat)
    requires Seen(stream, m)
    ensures i < m && EndsEvent(stream, i) && !Seen(stream, i)
  {
    i :| 0 <= i < m && EndsEvent(stream, i);
    if Seen(stream, i) { i := FirstEnd(stream, i); }
  }

  /** At most one chunk is ever reported. */
  lemma DetectedAtMostOnce(chunks: seq<seq<Byte>>, j: nat, k: nat)
    requires j < k < |chunks| && Result(chunks, j)
    ensures !Result(chunks, k)
  {
    ResultMeans(chunks, j);
    ResultMeans(chunks, k);
    OffsetsGrow(chunks, j + 1, k);
    SeenLater(Concat(chunks), |Concat(chunks[..j + 1])|, |Concat(chunks[..k])|);
  }

  // ---------------------------------------------------------------- the object

  class StreamDetector {
    var line: seq<Byte>
    var emitted: bool

    ghost function View(): Detector
      reads this
    {
      Detector(line, emitted)
    }

    constructor ()
      ensures View() == After([])
    {
      line, emitted := [], false;
    }

    method FeedChunk(chunk: seq<Byte>) returns (hit: bool)
      modifies this
      ensures (View(), hit) == Feed(old(View()), chunk)
    {
      if emitted {
        return false;
      }
      for i := 0 to |chunk|
        invariant !emitted && Feed(old(View()), chunk) == Feed(View(), chunk[i..])
      {
        assert chunk[i..][1..] == chunk[i + 1..];
        if chunk[i] != NEWLINE {
          line := line + [chunk[i]];
          continue;
        }
        var text := Trim(line);
        ghost var complete := line;
        line := [];
        if DATA_PREFIX <= text && Trim(text[|DATA_PREFIX|..]) != DONE {
          assert IsEventLine(complete);
          emitted := true;
          return true;
        }
      }
      return false;
    }
  }
}
