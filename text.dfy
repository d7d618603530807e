/**
 * The string operations the volume cleaner chains together:
 * `str.replace(",", "")`, `str.strip()` and `str.isdigit()`.
 */
module Text {

  /**
   * The characters Python's `str.strip()` (no argument) removes, those for
   * which `str.isspace()` holds: the ASCII whitespace and separator controls
   * and the Unicode spaces and line separators. None of them is a digit or
   * a comma, so trimming never eats into a volume or its separators.
   */
  function IsSpace(ch: char): (b: bool)
    ensures b ==> !IsDigit(ch) && ch != ','
  {
    if ch < '\U{85}' then
      ch == ' ' || ('\t' <= ch <= '\r') || ('\U{1c}' <= ch <= '\U{1f}')
    else
      || ch == '\U{85}' || ch == '\U{a0}' || ch == '\U{1680}'
      || ('\U{2000}' <= ch <= '\U{200a}')
      || ch == '\U{2028}' || ch == '\U{2029}' || ch == '\U{202f}' || ch == '\U{205f}'
      || ch == '\U{3000}'
  }

  /** An ASCII decimal digit. */
  predicate IsDigit(ch: char) {
    '0' <= ch <= '9'
  }

  predicate AllSpace(s: string) {
    forall k :: 0 <= k < |s| ==> IsSpace(s[k])
  }

  /**
   * `s.isdigit()`: false for the empty string, otherwise every character is
   * a digit. A digit string has no comma and no whitespace at either end, so
   * deleting commas and stripping leave it as it is.
   */
  function IsDigitString(s: string): (b: bool)
    ensures b ==> |s| > 0 && ',' !in s && !IsSpace(s[0]) && !IsSpace(s[|s| - 1])
  {
    |s| > 0 && forall k :: 0 <= k < |s| ==> IsDigit(s[k])
  }

  /** `s.replace(c, "")` for a one-character `c`: every occurrence of `c` is deleted. */
  function Remove(s: string, c: char): (r: string)
    ensures |r| <= |s|
    ensures c !in r
  {
    if s == [] then []
    else (if s[0] == c then [] else [s[0]]) + Remove(s[1..], c)
  }

  /** The digits of `s`, in order: a reference for what a cleaned volume keeps. */
  function KeepDigits(s: string): (r: string)
    ensures |r| <= |s|
    ensures forall k :: 0 <= k < |r| ==> IsDigit(r[k])
  {
    if s == [] then []
    else (if IsDigit(s[0]) then [s[0]] else []) + KeepDigits(s[1..])
  }

  /** Deleting `c` keeps every other character that occurs, and adds none. */
  lemma {:induction false} RemoveMembers(s: string, c: char)
    ensures forall x :: x in Remove(s, c) <==> x in s && x != c
  {
    if s != [] {
      assert s == [s[0]] + s[1..];
      RemoveMembers(s[1..], c);
    }
  }

  /** Keeping the digits keeps every digit that occurs, and nothing else. */
  lemma {:induction false} KeepDigitsMembers(s: string)
    ensures forall x :: x in KeepDigits(s) <==> x in s && IsDigit(x)
  {
    if s != [] {
      assert s == [s[0]] + s[1..];
      KeepDigitsMembers(s[1..]);
    }
  }

  /** `s.lstrip()`: the suffix of `s` left after its leading whitespace. */
  function LStrip(s: string): (r: string)
    ensures |r| <= |s| && r == s[|s| - |r|..]
    ensures AllSpace(s[..|s| - |r|])
    ensures r == [] || !IsSpace(r[0])
  {
    if s != [] && IsSpace(s[0]) then
      var r := LStrip(s[1..]);
      HeadAndTail(s, |s| - 1 - |r|);
      AllSpaceAppend([s[0]], s[1..][..|s| - 1 - |r|]);
      r
    else s
  }

  /** `s.rstrip()`: the prefix of `s` left before its trailing whitespace. */
  function RStrip(s: string): (r: string)
    ensures |r| <= |s| && r == s[..|r|]
    ensures AllSpace(s[|r|..])
    ensures r == [] || !IsSpace(r[|r| - 1])
  {
    if s != [] && IsSpace(s[|s| - 1]) then
      var r := RStrip(s[..|s| - 1]);
      InitAndLast(s, |r|);
      AllSpaceAppend(s[..|s| - 1][|r|..], [s[|s| - 1]]);
      r
    else s
  }

  /**
   * `s.strip()`: what `lstrip()` leaves, cut before its trailing whitespace;
   * it neither starts nor ends with whitespace.
   */
  function Strip(s: string): (r: string)
    ensures |r| <= |LStrip(s)| && r == LStrip(s)[..|r|]
    ensures AllSpace(LStrip(s)[|r|..])
    ensures r == [] || (!IsSpace(r[0]) && !IsSpace(r[|r| - 1]))
  {
    var t := LStrip(s);
    var r := RStrip(t);
    assert r == [] || r[0] == t[0];
    r
  }

  /** Slices of a suffix are slices of the whole. */
  lemma SlicesOfSuffix<T>(s: seq<T>, i: nat, j: nat)
    requires i + j <= |s|
    ensures s[i..][..j] == s[i..i + j]
    ensures s[i..][j..] == s[i + j..]
  {
  }

  /** Stripping leading whitespace twice is stripping it once. */
  lemma LStripIdempotent(s: string)
    ensures LStrip(LStrip(s)) == LStrip(s)
    ensures Strip(LStrip(s)) == Strip(s)
  {
    var t := LStrip(s);
    if t != [] {
      assert !IsSpace(t[0]);
    }
  }

  lemma {:induction false} RemoveAppend(a: string, b: string, c: char)
    ensures Remove(a + b, c) == Remove(a, c) + Remove(b, c)
  {
    if a == [] {
      assert a + b == b;
    } else {
      var head := if a[0] == c then [] else [a[0]];
      assert (a + b)[0] == a[0];
      assert (a + b)[1..] == a[1..] + b;
      assert Remove(a + b, c) == head + Remove(a[1..] + b, c);
      RemoveAppend(a[1..], b, c);
      assert head + (Remove(a[1..], c) + Remove(b, c)) == (head + Remove(a[1..], c)) + Remove(b, c);
    }
  }

  /** Deleting a character that does not occur changes nothing. */
  lemma {:induction false} RemoveAbsent(s: string, c: char)
    requires c !in s
    ensures Remove(s, c) == s
  {
    if s != [] {
      assert c !in s[1..] by {
        assert forall k :: 0 <= k < |s[1..]| ==> s[1..][k] == s[k + 1];
      }
      RemoveAbsent(s[1..], c);
    }
  }

  /**
   * Every split of `Remove(s, c)` comes from a split of `s`: the position
   * `k` in `s` whose two sides give the two parts.
   */
  lemma {:induction false} RemoveSplit(s: string, c: char, n: nat) returns (k: nat)
    requires n <= |Remove(s, c)|
    ensures k <= |s|
    ensures Remove(s[..k], c) == Remove(s, c)[..n]
    ensures Remove(s[k..], c) == Remove(s, c)[n..]
  {
    if n == 0 {
      k := 0;
      assert s[..0] == [];
      assert s[0..] == s;
    } else {
      var head := if s[0] == c then [] else [s[0]];
      var rest := Remove(s[1..], c);
      assert Remove(s, c) == head + rest;
      var m := n - |head|;
      var k' := RemoveSplit(s[1..], c, m);
      k := k' + 1;
      var pre := s[1..][..k'];
      HeadAndTail(s, k');
      RemoveAppend([s[0]], pre, c);
      assert Remove([s[0]], c) == head;
      assert Remove(s[..k], c) == head + rest[..m];
      CutConcat(head, rest, n);
    }
  }

  /** A prefix and a suffix of `s`, seen from `s` without its last element. */
  lemma InitAndLast<T>(s: seq<T>, k: nat)
    requires k < |s|
    ensures s[..k] == s[..|s| - 1][..k]
    ensures s[k..] == s[..|s| - 1][k..] + [s[|s| - 1]]
  {
  }

  lemma AllSpaceAppend(a: string, b: string)
    requires AllSpace(a) && AllSpace(b)
    ensures AllSpace(a + b)
  {
  }

  /** A prefix and a suffix of `s`, seen from its tail `s[1..]`. */
  lemma HeadAndTail<T>(s: seq<T>, k: nat)
    requires k < |s|
    ensures s[..k + 1] == [s[0]] + s[1..][..k]
    ensures s[k + 1..] == s[1..][k..]
  {
  }

  /** Cutting a concatenation inside its second part. */
  lemma CutConcat<T>(a: seq<T>, b: seq<T>, n: nat)
    requires |a| <= n <= |a| + |b|
    ensures (a + b)[..n] == a + b[..n - |a|]
    ensures (a + b)[n..] == b[n - |a|..]
  {
  }

  lemma {:induction false} KeepDigitsAppend(a: string, b: string)
    ensures KeepDigits(a + b) == KeepDigits(a) + KeepDigits(b)
  {
    if a == [] {
      assert a + b == b;
    } else {
      var head := if IsDigit(a[0]) then [a[0]] else [];
      assert (a + b)[0] == a[0];
      assert (a + b)[1..] == a[1..] + b;
      assert KeepDigits(a + b) == head + KeepDigits(a[1..] + b);
      KeepDigitsAppend(a[1..], b);
      assert head + (KeepDigits(a[1..]) + KeepDigits(b)) == (head + KeepDigits(a[1..])) + KeepDigits(b);
    }
  }

  /** On a string of digits and commas, keeping the digits is deleting the commas. */
  lemma {:induction false} KeepDigitsOfDigitsAndCommas(s: string)
    requires forall k :: 0 <= k < |s| ==> IsDigit(s[k]) || s[k] == ','
    ensures KeepDigits(s) == Remove(s, ',')
  {
    if s != [] {
      KeepDigitsOfDigitsAndCommas(s[1..]);
    }
  }

  /** Leading whitespace followed by text that does not start with it is stripped to that text. */
  lemma {:induction false} LStripAfterPadding(p: string, t: string)
    requires AllSpace(p)
    requires t == [] || !IsSpace(t[0])
    ensures LStrip(p + t) == t
  {
    if p == [] {
      assert p + t == t;
    } else {
      assert (p + t)[0] == p[0];
      assert (p + t)[1..] == p[1..] + t;
      LStripAfterPadding(p[1..], t);
    }
  }

  /** Text that does not end in whitespace followed by whitespace is stripped to that text. */
  lemma {:induction false} RStripBeforePadding(t: string, q: string)
    requires AllSpace(q)
    requires t == [] || !IsSpace(t[|t| - 1])
    ensures RStrip(t + q) == t
  {
    if q == [] {
      assert t + q == t;
    } else {
      var q' := q[..|q| - 1];
      assert (t + q)[|t + q| - 1] == q[|q| - 1];
      assert (t + q)[..|t + q| - 1] == t + q';
      RStripBeforePadding(t, q');
    }
  }

  /**
   * `strip()` is determined by what it keeps: text padded on both sides by
   * whitespace, and not itself starting or ending with whitespace, strips
   * back to exactly that text.
   */
  lemma StripOfPadded(p: string, m: string, q: string)
    requires AllSpace(p) && AllSpace(q)
    requires m == [] || (!IsSpace(m[0]) && !IsSpace(m[|m| - 1]))
    ensures Strip(p + m + q) == m
  {
    assert p + m + q == p + (m + q);
    if m == [] {
      assert m + q == q;
      assert AllSpace(p + q);
      LStripAfterPadding(p + q, []);
      assert p + q + [] == p + q;
    } else {
      LStripAfterPadding(p, m + q);
      RStripBeforePadding(m, q);
    }
  }
}
