/** Trimming of white space at both ends of a string. */
module Text {

  /** White space as Unicode defines it. */
  predicate IsSpace(c: char) {
    var n := c as int;
    9 <= n <= 13 || n == 0x20 || n == 0x85 || n == 0xA0 || n == 0x1680 || 0x2000 <= n <= 0x200A
    || n == 0x2028 || n == 0x2029 || n == 0x202F || n == 0x205F || n == 0x3000
  }

  predicate Blank(s: string) { forall c :: c in s ==> IsSpace(c) }

  /** How many leading characters are white space. */
  function Leading(s: string): (n: nat)
    ensures n <= |s| && Blank(s[..n]) && (n < |s| ==> !IsSpace(s[n]))
  {
    if s == "" || !IsSpace(s[0]) then 0
    else
      var n := Leading(s[1..]);
      assert s[..n + 1] == [s[0]] + s[1..][..n];
      n + 1
  }

  function Trailing(s: string): (n: nat)
    ensures n <= |s| && Blank(s[|s| - n..]) && (n < |s| ==> !IsSpace(s[|s| - n - 1]))
  {
    if s == "" || !IsSpace(s[|s| - 1]) then 0
    else
      var rest := s[..|s| - 1];
      var n := Trailing(rest);
      assert s == rest + [s[|s| - 1]];
      BlankSnoc(rest, s[|s| - 1], |rest| - n);
      n + 1
  }

  lemma BlankSnoc(s: string, c: char, i: nat)
    requires i <= |s| && Blank(s[i..]) && IsSpace(c)
    ensures Blank((s + [c])[i..])
  {
    assert (s + [c])[i..] == s[i..] + [c];
  }

  /** The string without the white space at its ends. */
  function TrimSpace(s: string): (t: string)
    ensures t != "" ==> !IsSpace(t[0]) && !IsSpace(t[|t| - 1])
  {
    var rest := s[Leading(s)..];
    rest[..|rest| - Trailing(rest)]
  }

  /** Nothing but white space is taken away. */
  lemma TrimIsExact(s: string) returns (before: string, after: string)
    ensures Blank(before) && Blank(after) && s == before + (TrimSpace(s) + after)
  {
    var n := Leading(s);
    var rest := s[n..];
    var m := |rest| - Trailing(rest);
    before, after := s[..n], rest[m..];
    assert Blank(before) && Blank(after);
    CutTwice(s, n, m);
  }

  lemma CutTwice(s: string, n: nat, m: nat)
    requires n <= |s| && m <= |s| - n
    ensures s == s[..n] + (s[n..][..m] + s[n..][m..])
  {
    assert s[n..] == s[n..][..m] + s[n..][m..];
  }

  /** Trimming again changes nothing. */
  lemma TrimTwice(s: string)
    ensures TrimSpace(TrimSpace(s)) == TrimSpace(s)
  {
    var t := TrimSpace(s);
    if t != "" {
      assert Leading(t) == 0;
      assert t[0..] == t;
      assert Trailing(t) == 0;
    }
  }
}
