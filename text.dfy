/**
 * The pieces of Python's string behaviour that the service relies on:
 * str() of a non-negative int, concatenation of a list of strings,
 * str.strip() with its default whitespace set, str.lower() and str.endswith().
 */
module Text {

  /** The decimal digit for d. */
  function DigitChar(d: nat): (c: char)
    requires d < 10
    ensures '0' <= c <= '9'
    ensures c as int - '0' as int == d
  {
    ('0' as int + d) as char
  }

  /** str(n) for a non-negative int n: its decimal digits, most significant first, without leading zeros. */
  function NatToString(n: nat): (s: string)
    ensures 1 <= |s|
    ensures forall i :: 0 <= i < |s| ==> '0' <= s[i] <= '9'
    ensures n < 10 <==> |s| == 1
    ensures s[0] == '0' ==> n == 0
    decreases n
  {
    if n < 10 then [DigitChar(n)] else NatToString(n / 10) + [DigitChar(n % 10)]
  }

  /** Different numbers are written differently. */
  lemma {:induction false} NatToStringInjective(a: nat, b: nat)
    requires NatToString(a) == NatToString(b)
    ensures a == b
    decreases a
  {
    var s := NatToString(a);
    if a >= 10 && b >= 10 {
      assert s[|s| - 1] == DigitChar(a % 10) && s[|s| - 1] == DigitChar(b % 10);
      assert NatToString(a / 10) == s[..|s| - 1] == NatToString(b / 10);
      NatToStringInjective(a / 10, b / 10);
    } else {
      assert s[0] == DigitChar(a) && s[0] == DigitChar(b);
    }
  }

  /** The concatenation of a list of sequences, in order (Python's ''.join, or a loop of `+=`). */
  function Concat<T>(parts: seq<seq<T>>): seq<T>
  {
    if parts == [] then [] else Concat(parts[..|parts| - 1]) + parts[|parts| - 1]
  }

  /** Concatenation distributes over appending lists. */
  lemma {:induction false} ConcatAppend<T>(a: seq<seq<T>>, b: seq<seq<T>>)
    ensures Concat(a + b) == Concat(a) + Concat(b)
    decreases |b|
  {
    if b == [] {
      assert a + b == a;
    } else {
      var last := b[|b| - 1];
      assert (a + b)[..|a + b| - 1] == a + b[..|b| - 1];
      ConcatAppend(a, b[..|b| - 1]);
    }
  }

  /** Concatenating one more part at the front. */
  lemma ConcatPrepend<T>(x: seq<T>, rest: seq<seq<T>>)
    ensures Concat([x] + rest) == x + Concat(rest)
  {
    ConcatAppend([x], rest);
    assert [x][..0] == [];
  }

  /** The characters Python's str.isspace() accepts, which str.strip() removes by default. */
  predicate IsSpace(c: char)
  {
    var n := c as int;
    || 0x09 <= n <= 0x0D || 0x1C <= n <= 0x20 || n == 0x85 || n == 0xA0 || n == 0x1680
    || 0x2000 <= n <= 0x200A || n == 0x2028 || n == 0x2029 || n == 0x202F || n == 0x205F || n == 0x3000
  }

  /** Every character of s is whitespace (true of the empty string). */
  predicate AllSpace(s: string)
  {
    forall i :: 0 <= i < |s| ==> IsSpace(s[i])
  }

  /** s without its leading whitespace. */
  function StripLeft(s: string): (r: string)
    ensures |r| <= |s| && r == s[|s| - |r|..]
    ensures r != [] ==> !IsSpace(r[0])
  {
    if s != [] && IsSpace(s[0]) then StripLeft(s[1..]) else s
  }

  /** s without its trailing whitespace. */
  function StripRight(s: string): (r: string)
    ensures |r| <= |s| && r == s[..|r|]
    ensures r != [] ==> !IsSpace(r[|r| - 1])
  {
    if s != [] && IsSpace(s[|s| - 1]) then StripRight(s[..|s| - 1]) else s
  }

  /** Python's s.strip(): both ends' whitespace removed. */
  function Strip(s: string): string
  {
    StripRight(StripLeft(s))
  }

  lemma {:induction false} StripLeftEmpty(s: string)
    ensures StripLeft(s) == [] <==> AllSpace(s)
    decreases |s|
  {
    if s != [] && IsSpace(s[0]) {
      StripLeftEmpty(s[1..]);
      assert AllSpace(s) <==> AllSpace(s[1..]) by {
        assert forall i :: 0 < i < |s| ==> s[i] == s[1..][i - 1];
      }
    }
  }

  lemma {:induction false} StripRightKeepsHead(s: string)
    requires s != [] && !IsSpace(s[0])
    ensures StripRight(s) != []
    decreases |s|
  {
    if IsSpace(s[|s| - 1]) {
      StripRightKeepsHead(s[..|s| - 1]);
    }
  }

  /** `not s.strip()` holds exactly when s is empty or all whitespace. */
  lemma StripEmptyIffAllSpace(s: string)
    ensures Strip(s) == [] <==> AllSpace(s)
  {
    StripLeftEmpty(s);
    var t := StripLeft(s);
    if t != [] {
      StripRightKeepsHead(t);
    }
  }

  /** Whitespace-only is preserved by, and splits over, concatenation. */
  lemma AllSpaceAppend(a: string, b: string)
    ensures AllSpace(a + b) <==> AllSpace(a) && AllSpace(b)
  {
    assert forall i :: 0 <= i < |a| ==> a[i] == (a + b)[i];
    assert forall i :: 0 <= i < |b| ==> b[i] == (a + b)[|a| + i];
  }

  /** str.lower() on one character, for the letters A to Z. */
  function LowerChar(c: char): char
  {
    if 'A' <= c <= 'Z' then (c as int + ('a' as int - 'A' as int)) as char else c
  }

  /** s.lower(): each character lowered. */
  function Lower(s: string): string
  {
    seq(|s|, i requires 0 <= i < |s| => LowerChar(s[i]))
  }

  /** s.endswith(suffix). */
  predicate EndsWith(s: string, suffix: string)
  {
    |suffix| <= |s| && s[|s| - |suffix|..] == suffix
  }
}
