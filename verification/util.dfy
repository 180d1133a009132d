/** The small helpers every backend uses: `min`, `max`, `clamp`, the
    length-aware string comparison and the string duplicator.

    C strings are modelled as `seq<char>`; a C string's content is the part
    before its first NUL character.
 */
module Util {

  const NUL: char := '\0'

  /** `min(a, b)`: the smaller argument (the first one on a tie). */
  function Min(a: int, b: int): (r: int)
    ensures r <= a && r <= b
    ensures r == a || r == b
  {
    if a <= b then a else b
  }

  /** `max(a, b)`: the larger argument (the first one on a tie). */
  function Max(a: int, b: int): (r: int)
    ensures r >= a && r >= b
    ensures r == a || r == b
  {
    if a >= b then a else b
  }

  /** `clamp(lo, v, hi)`, computed as `max(min(v, hi), lo)`. The lower bound
      wins when the bounds are crossed. */
  function Clamp(lo: int, v: int, hi: int): (r: int)
    ensures lo <= hi ==> lo <= r <= hi
    ensures lo <= v <= hi ==> r == v
    ensures v < lo ==> r == lo
    ensures lo <= hi < v ==> r == hi
    ensures hi < lo ==> r == lo
  {
    Max(Min(v, hi), lo)
  }

  /** The content of a NUL-terminated buffer: everything before the first NUL
      (the whole buffer when there is none). */
  function CString(buf: seq<char>): (s: seq<char>)
    ensures NUL !in s
    ensures s <= buf
    ensures |s| < |buf| ==> buf[|s|] == NUL
  {
    if |buf| == 0 || buf[0] == NUL then [] else [buf[0]] + CString(buf[1..])
  }

  /** `soundio_streql`: two counted strings are equal when their lengths are
      equal and their first `len` characters agree (`memcmp`). */
  method StrEql(s1: seq<char>, len1: int, s2: seq<char>, len2: int) returns (eq: bool)
    requires 0 <= len1 <= |s1| && 0 <= len2 <= |s2|
    ensures eq <==> len1 == len2 && s1[..len1] == s2[..len2]
  {
    if len1 != len2 {
      return false;
    }
    var i := 0;
    while i < len1
      invariant 0 <= i <= len1
      invariant s1[..i] == s2[..i]
    {
      if s1[i] != s2[i] {
        assert s1[..len1][i] != s2[..len2][i];
        return false;
      }
      i := i + 1;
    }
    assert s1[..len1] == s1[..i];
    return true;
  }

  /** `soundio_str_dupe`: a fresh buffer holding the first `len` characters
      followed by one NUL. */
  function StrDupe(s: seq<char>, len: int): (r: seq<char>)
    requires 0 <= len <= |s|
    ensures |r| == len + 1
    ensures r[..len] == s[..len]
    ensures r[len] == NUL
  {
    s[..len] + [NUL]
  }

  /** Reading the duplicate back as a C string gives the copied characters,
      provided they hold no NUL of their own. */
  lemma {:induction false} StrDupeRoundTrip(s: seq<char>, len: int)
    requires 0 <= len <= |s|
    requires NUL !in s[..len]
    ensures CString(StrDupe(s, len)) == s[..len]
  {
    CStringOfTerminated(s[..len]);
  }

  lemma {:induction false} CStringOfTerminated(t: seq<char>)
    requires NUL !in t
    ensures CString(t + [NUL]) == t
  {
    if |t| == 0 {
    } else {
      assert (t + [NUL])[1..] == t[1..] + [NUL];
      CStringOfTerminated(t[1..]);
    }
  }

  /** `strncmp(s, prefix, strlen(prefix)) == 0`: `s` starts with `prefix`. */
  predicate StartsWith(s: seq<char>, prefix: seq<char>)
  {
    |prefix| <= |s| && s[..|prefix|] == prefix
  }

  /** `sub` occurs in `s` starting at index `i`. */
  predicate OccursAt(s: seq<char>, sub: seq<char>, i: int)
  {
    0 <= i <= |s| - |sub| && s[i..i + |sub|] == sub
  }

  /** `strstr(s, sub) != NULL`: `sub` occurs somewhere in `s`. */
  predicate Contains(s: seq<char>, sub: seq<char>)
  {
    exists i :: 0 <= i <= |s| - |sub| && OccursAt(s, sub, i)
  }

  /** Euclidean division is determined by any quotient / remainder pair with
      the remainder in range. */
  lemma DivModUnique(x: int, c: int, q: int, r: int)
    requires c > 0 && 0 <= r < c && x == q * c + r
    ensures x / c == q && x % c == r
  {
    var d := x / c;
    assert x == d * c + x % c;
    if q > d {
      MulAtLeast(q - d, c);
      assert false;
    } else if q < d {
      MulAtLeast(d - q, c);
      assert false;
    }
  }

  lemma MulAtLeast(a: int, c: int)
    requires a >= 1 && c > 0
    ensures a * c >= c
  {
  }
}
