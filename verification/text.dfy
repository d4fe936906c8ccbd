/** The two string operations applied to a generated statement
    (twitter_bot.py:126-130): Python's `str.strip()` with no argument, and
    the cut to the platform's 280-character limit. Characters are Unicode
    scalar values, which is what Python's `len` counts. */
module Text {

  /** The platform's character limit checked by `len(statement) > 280`. */
  const MaxTweetLength: nat := 280

  /** The marker appended to a cut statement. */
  const Ellipsis: string := "..."

  /** How much of a too-long statement survives: the source writes `277`,
      which is exactly the limit minus the marker. */
  const KeptLength: nat := MaxTweetLength - |Ellipsis|

  /** Python's `str.isspace` for one character, i.e. the set that `strip()`
      removes: the ASCII controls TAB..CR and FS..US, SPACE, NEL, NBSP, and the
      Unicode space separators and line/paragraph separators. */
  predicate IsSpace(c: char)
  {
    var n := c as int;
    || (0x09 <= n <= 0x0D)
    || (0x1C <= n <= 0x20)
    || n == 0x85
    || n == 0xA0
    || n == 0x1680
    || (0x2000 <= n <= 0x200A)
    || n == 0x2028
    || n == 0x2029
    || n == 0x202F
    || n == 0x205F
    || n == 0x3000
  }

  /** Every character of `t` is whitespace (vacuously true of ""). */
  predicate AllSpace(t: string)
  {
    forall k :: 0 <= k < |t| ==> IsSpace(t[k])
  }

  /** `t` has nothing for `strip()` to remove: it is empty, or it starts and
      ends with a non-whitespace character. */
  predicate IsStripped(t: string)
  {
    |t| == 0 || (!IsSpace(t[0]) && !IsSpace(t[|t| - 1]))
  }

  /** `str.lstrip()`: the longest suffix of `s` that does not start with
      whitespace, so everything dropped is whitespace. */
  function StripLeft(s: string): (r: string)
    ensures |r| <= |s| && r == s[|s| - |r|..]
    ensures AllSpace(s[..|s| - |r|])
    ensures |r| > 0 ==> !IsSpace(r[0])
  {
    if |s| > 0 && IsSpace(s[0]) then StripLeft(s[1..]) else s
  }

  /** `str.rstrip()`: the longest prefix of `s` that does not end with
      whitespace, so everything dropped is whitespace. */
  function StripRight(s: string): (r: string)
    ensures |r| <= |s| && r == s[..|r|]
    ensures AllSpace(s[|r|..])
    ensures |r| > 0 ==> !IsSpace(r[|r| - 1])
  {
    if |s| > 0 && IsSpace(s[|s| - 1]) then StripRight(s[..|s| - 1]) else s
  }

  /** `str.strip()`: `s` with its leading and trailing whitespace removed.
      The result is a stripped slice of `s` with only whitespace around it. */
  function Strip(s: string): (r: string)
    ensures IsStripped(r)
    ensures exists i :: 0 <= i <= |s| - |r| && r == s[i..i + |r|]
                        && AllSpace(s[..i]) && AllSpace(s[i + |r|..])
  {
    var left := StripLeft(s);
    var r := StripRight(left);
    var i := |s| - |left|;
    assert r == s[i..i + |r|];
    assert s[i + |r|..] == left[|r|..];
    r
  }

  /** The cut of twitter_bot.py:129-130: a statement within the limit is
      kept as it is; a longer one keeps its first `KeptLength` characters and
      gets the ellipsis, landing exactly on the limit. */
  function Truncate(s: string): (r: string)
    ensures |r| <= MaxTweetLength
    ensures |s| <= MaxTweetLength ==> r == s
    ensures |s| > MaxTweetLength ==>
              |r| == MaxTweetLength && r[..KeptLength] == s[..KeptLength]
              && r[KeptLength..] == Ellipsis
  {
    if |s| <= MaxTweetLength then s else s[..KeptLength] + Ellipsis
  }

  /** `lstrip()` drops a whitespace prefix and stops at the first
      non-whitespace character. */
  lemma {:induction false} StripLeftSkipsSpace(a: string, t: string)
    requires AllSpace(a)
    requires |t| == 0 || !IsSpace(t[0])
    ensures StripLeft(a + t) == t
  {
    if |a| > 0 {
      assert (a + t)[1..] == a[1..] + t;
      StripLeftSkipsSpace(a[1..], t);
    } else {
      assert a + t == t;
    }
  }

  /** `rstrip()` drops a whitespace suffix and stops at the last
      non-whitespace character. */
  lemma {:induction false} StripRightSkipsSpace(t: string, b: string)
    requires AllSpace(b)
    requires |t| == 0 || !IsSpace(t[|t| - 1])
    ensures StripRight(t + b) == t
  {
    if |b| > 0 {
      assert (t + b)[..|t + b| - 1] == t + b[..|b| - 1];
      StripRightSkipsSpace(t, b[..|b| - 1]);
    } else {
      assert t + b == t;
    }
  }

  /** `strip()` removes exactly the surrounding whitespace: whenever `s` is a
      stripped core `m` with whitespace `a` before and `b` after, the result
      is `m`. Together with the contract of `Strip` this pins the result down
      uniquely. */
  lemma {:induction false} StripUnique(a: string, m: string, b: string)
    requires AllSpace(a) && AllSpace(b) && IsStripped(m)
    ensures Strip(a + m + b) == m
  {
    if |m| == 0 {
      assert a + m + b == (a + b) + [];
      assert AllSpace(a + b);
      StripLeftSkipsSpace(a + b, []);
      StripRightSkipsSpace([], []);
    } else {
      assert a + m + b == a + (m + b);
      StripLeftSkipsSpace(a, m + b);
      StripRightSkipsSpace(m, b);
    }
  }

  /** `strip()` is idempotent. */
  lemma StripIdempotent(s: string)
    ensures Strip(Strip(s)) == Strip(s)
  {
  }

  /** `strip()` yields "" exactly when the input is entirely whitespace. */
  lemma StripEmptyIff(s: string)
    ensures Strip(s) == [] <==> AllSpace(s)
  {
  }

  /** Truncation is idempotent: a cut statement is already within the
      limit. */
  lemma TruncateIdempotent(s: string)
    ensures Truncate(Truncate(s)) == Truncate(s)
  {
  }

  /** Truncation keeps a stripped statement stripped: the first character is
      kept and the last is either kept or the final '.' of the ellipsis. */
  lemma TruncatePreservesStripped(s: string)
    requires IsStripped(s)
    ensures IsStripped(Truncate(s))
  {
  }

  /** Truncation yields "" exactly for "" (longer inputs keep at least
      `KeptLength` characters and the marker). */
  lemma TruncateEmptyIff(s: string)
    ensures Truncate(s) == [] <==> s == []
  {
  }
}
