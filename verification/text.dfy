/** String helpers with the meaning of the Python built-ins the agents use:
    `str.strip()`, `str.lower()`, `str.startswith`, the `in` substring test and
    `str.join`. */
module Text {

  /** The code points for which Python's `str.isspace()` holds, i.e. what a
      bare `str.strip()` removes. */
  predicate IsSpace(c: char)
  {
    || ('\t' <= c <= '\r')
    || ('\U{1C}' <= c <= '\U{1F}')
    || c == ' '
    || c == '\U{85}'
    || c == '\U{A0}'
    || c == '\U{1680}'
    || ('\U{2000}' <= c <= '\U{200A}')
    || c == '\U{2028}'
    || c == '\U{2029}'
    || c == '\U{202F}'
    || c == '\U{205F}'
    || c == '\U{3000}'
  }

  /** A string with neither leading nor trailing whitespace. */
  predicate IsStripped(s: string)
  {
    s == [] || (!IsSpace(s[0]) && !IsSpace(s[|s| - 1]))
  }

  /** `s.strip()`: whitespace is dropped from the front, then from the back,
      one character at a time, until neither end is whitespace. */
  function Strip(s: string): (r: string)
    ensures IsStripped(r)
    ensures |r| <= |s|
    decreases |s|
  {
    if s != [] && IsSpace(s[0]) then Strip(s[1..])
    else if s != [] && IsSpace(s[|s| - 1]) then Strip(s[..|s| - 1])
    else s
  }

  /** `s[i..i + n]` is an infix of `s` with only whitespace around it. */
  ghost predicate SpaceAround(s: string, i: nat, n: nat)
  {
    && i + n <= |s|
    && (forall k :: 0 <= k < i ==> IsSpace(s[k]))
    && (forall k :: i + n <= k < |s| ==> IsSpace(s[k]))
  }

  /** An infix with whitespace around it in `s[1..]` has whitespace around
      it in `s` when `s` starts with whitespace. */
  lemma SpaceAroundFront(s: string, j: nat, n: nat)
    requires s != [] && IsSpace(s[0]) && SpaceAround(s[1..], j, n)
    ensures SpaceAround(s, j + 1, n) && s[1..][j..j + n] == s[j + 1..j + 1 + n]
  {
    var t := s[1..];
    forall k | 0 < k < j + 1
      ensures IsSpace(s[k])
    {
      assert s[k] == t[k - 1];
    }
    forall k | j + 1 + n <= k < |s|
      ensures IsSpace(s[k])
    {
      assert s[k] == t[k - 1];
    }
  }

  /** Likewise at the back. */
  lemma SpaceAroundBack(s: string, i: nat, n: nat)
    requires s != [] && IsSpace(s[|s| - 1]) && SpaceAround(s[..|s| - 1], i, n)
    ensures SpaceAround(s, i, n) && s[..|s| - 1][i..i + n] == s[i..i + n]
  {
    var t := s[..|s| - 1];
    forall k | 0 <= k < i
      ensures IsSpace(s[k])
    {
      assert s[k] == t[k];
    }
    forall k | i + n <= k < |s| - 1
      ensures IsSpace(s[k])
    {
      assert s[k] == t[k];
    }
  }

  /** What `Strip` cuts off is whitespace on either side of the infix it
      keeps. */
  lemma {:induction false} StripInfix(s: string) returns (i: nat)
    ensures SpaceAround(s, i, |Strip(s)|) && Strip(s) == s[i..i + |Strip(s)|]
    decreases |s|
  {
    if s != [] && IsSpace(s[0]) {
      var j := StripInfix(s[1..]);
      SpaceAroundFront(s, j, |Strip(s)|);
      i := j + 1;
    } else if s != [] && IsSpace(s[|s| - 1]) {
      i := StripInfix(s[..|s| - 1]);
      SpaceAroundBack(s, i, |Strip(s)|);
    } else {
      i := 0;
    }
  }

  /** Stripping text that is already stripped changes nothing; hence
      stripping is idempotent. */
  lemma StripFixesStripped(s: string)
    requires IsStripped(s)
    ensures Strip(s) == s
  {
  }

  lemma StripIdempotent(s: string)
    ensures Strip(Strip(s)) == Strip(s)
  {
    StripFixesStripped(Strip(s));
  }

  /** `c.lower()` for the ASCII letters; every other character is kept. */
  function LowerChar(c: char): (d: char)
    ensures 'A' <= c <= 'Z' ==> d as int == c as int + 32
    ensures !('A' <= c <= 'Z') ==> d == c
  {
    if 'A' <= c <= 'Z' then (c as int + 32) as char else c
  }

  /** `s.lower()`, character by character. */
  function Lower(s: string): (r: string)
    ensures |r| == |s|
    ensures forall k :: 0 <= k < |s| ==> r[k] == LowerChar(s[k])
  {
    seq(|s|, k requires 0 <= k < |s| => LowerChar(s[k]))
  }

  /** Lower-casing leaves no ASCII capital behind, so doing it twice is
      doing it once; every other character is kept. */
  lemma LowerIdempotent(s: string)
    ensures forall k :: 0 <= k < |s| ==> !('A' <= Lower(s)[k] <= 'Z')
    ensures forall k :: 0 <= k < |s| && !('A' <= s[k] <= 'Z') ==> Lower(s)[k] == s[k]
    ensures Lower(Lower(s)) == Lower(s)
  {
    assert forall k :: 0 <= k < |s| ==> Lower(Lower(s))[k] == Lower(s)[k];
  }

  /** Lowering commutes with taking an infix. */
  lemma LowerSlice(s: string, i: nat, j: nat)
    requires i <= j <= |s|
    ensures Lower(s)[i..j] == Lower(s[i..j])
  {
    assert forall k :: 0 <= k < j - i ==> Lower(s)[i..j][k] == Lower(s[i..j])[k];
  }

  predicate StartsWith(s: string, prefix: string)
  {
    |prefix| <= |s| && s[..|prefix|] == prefix
  }

  /** `w` occurs in `s` starting at index `i`. */
  predicate OccursAt(s: string, w: string, i: int)
  {
    0 <= i && i + |w| <= |s| && s[i..i + |w|] == w
  }

  /** Python's `w in s` on strings. */
  predicate Contains(s: string, w: string)
  {
    exists i | 0 <= i <= |s| - |w| :: OccursAt(s, w, i)
  }

  /** An occurrence of `w` in `s` is an occurrence of `w.lower()` in `s.lower()`. */
  lemma ContainsLower(s: string, w: string)
    requires Contains(s, w)
    ensures Contains(Lower(s), Lower(w))
  {
    var i :| 0 <= i <= |s| - |w| && OccursAt(s, w, i);
    LowerSlice(s, i, i + |w|);
    assert OccursAt(Lower(s), Lower(w), i);
  }

  /** `sep.join(xs)`. */
  function Join(xs: seq<string>, sep: string): (r: string)
    ensures xs == [] ==> r == []
    ensures |xs| == 1 ==> r == xs[0]
  {
    if |xs| == 0 then []
    else if |xs| == 1 then xs[0]
    else xs[0] + sep + Join(xs[1..], sep)
  }

  /** Joining one more item puts exactly one separator before it. */
  lemma {:induction false} JoinSnoc(xs: seq<string>, x: string, sep: string)
    requires xs != []
    ensures Join(xs + [x], sep) == Join(xs, sep) + sep + x
  {
    if |xs| == 1 {
      assert (xs + [x])[1..] == [x];
    } else {
      assert (xs + [x])[1..] == xs[1..] + [x];
      JoinSnoc(xs[1..], x, sep);
    }
  }
}
