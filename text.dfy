/**
 * Character-level helpers the chat client applies to what the user types and
 * to usernames: Python's whitespace test and `str.strip()`, the `/exit`
 * command test, and the sum of character codes that picks a username colour.
 */
module Text {

  /** Python's `str.isspace()` for one character: exactly the characters `str.strip()` removes. */
  predicate IsSpace(c: char) {
    var n := c as int;
    || 0x09 <= n <= 0x0D
    || 0x1C <= n <= 0x20
    || n == 0x85 || n == 0xA0 || n == 0x1680
    || 0x2000 <= n <= 0x200A
    || n == 0x2028 || n == 0x2029 || n == 0x202F || n == 0x205F || n == 0x3000
  }

  /** `not s.strip()` in Python: nothing but whitespace (the empty string included). */
  predicate IsBlank(s: string) {
    forall i :: 0 <= i < |s| ==> IsSpace(s[i])
  }

  /** `s.lstrip()`: the longest suffix of `s` that does not start with whitespace. */
  function TrimStart(s: string): (r: string)
    ensures |r| <= |s| && r == s[|s| - |r|..]
    ensures forall i :: 0 <= i < |s| - |r| ==> IsSpace(s[i])
    ensures r == [] || !IsSpace(r[0])
  {
    if s != [] && IsSpace(s[0]) then TrimStart(s[1..]) else s
  }

  /** `s.rstrip()`: the longest prefix of `s` that does not end with whitespace. */
  function TrimEnd(s: string): (r: string)
    ensures |r| <= |s| && r == s[..|r|]
    ensures forall i :: |r| <= i < |s| ==> IsSpace(s[i])
    ensures r == [] || !IsSpace(r[|r| - 1])
  {
    if s != [] && IsSpace(s[|s| - 1]) then TrimEnd(s[..|s| - 1]) else s
  }

  /**
   * `s.strip()`: `s` without its leading and trailing whitespace, that is,
   * a slice of `s` with nothing but whitespace before and after it. It is
   * empty exactly when `s` is blank, and otherwise starts and ends with a
   * non-whitespace character.
   */
  function Strip(s: string): (r: string)
    ensures r == [] <==> IsBlank(s)
    ensures r == [] || (!IsSpace(r[0]) && !IsSpace(r[|r| - 1]))
    ensures |r| <= |s|
    ensures exists i, j :: 0 <= i <= j <= |s| && r == s[i..j] && IsBlank(s[..i]) && IsBlank(s[j..])
  {
    var t := TrimStart(s);
    var i := |s| - |t|;
    TrimStartBlank(s);
    TrimEndBlank(s, i);
    if t == [] then
      assert s[i..i] == [];
      []
    else
      TrimEnd(t)
  }

  /** What `lstrip` cuts off is blank. */
  lemma TrimStartBlank(s: string)
    ensures IsBlank(s[..|s| - |TrimStart(s)|])
  {
    var n := |s| - |TrimStart(s)|;
    forall k | 0 <= k < n ensures IsSpace(s[..n][k]) {
      assert s[..n][k] == s[k];
    }
  }

  /** `rstrip` of the suffix from `i` is the slice of `s` from `i`, and what it cuts off is blank. */
  lemma TrimEndBlank(s: string, i: nat)
    requires i <= |s|
    ensures var r := TrimEnd(s[i..]);
      && i + |r| <= |s| && r == s[i..i + |r|] && IsBlank(s[i + |r|..])
  {
    var t := s[i..];
    var r := TrimEnd(t);
    var j := i + |r|;
    assert r == t[..|r|] == s[i..j];
    forall k | 0 <= k < |s| - j ensures IsSpace(s[j..][k]) {
      assert s[j..][k] == t[|r| + k];
    }
  }

  /** Stripping an already stripped string changes nothing. */
  lemma StripIdempotent(s: string)
    ensures Strip(Strip(s)) == Strip(s)
  {
    var r := Strip(s);
    if r != [] {
      assert TrimStart(r) == r;
      assert TrimEnd(r) == r;
    }
  }

  /** Lower-casing of the characters that can lower-case into `/exit`. */
  function AsciiLower(c: char): char {
    if 'A' <= c <= 'Z' then (c as int + 32) as char else c
  }

  /**
   * `s.lower() == "/exit"`. Only `/`, the four letters and their ASCII
   * capitals lower-case into the characters of `/exit` (no other character
   * lower-cases to one of them), so a character-wise ASCII test is exact.
   */
  predicate IsExitCommand(s: string)
    ensures IsExitCommand(s) <==>
      && |s| == 5 && s[0] == '/'
      && (s[1] == 'e' || s[1] == 'E') && (s[2] == 'x' || s[2] == 'X')
      && (s[3] == 'i' || s[3] == 'I') && (s[4] == 't' || s[4] == 'T')
  {
    |s| == 5 && forall i :: 0 <= i < 5 ==> AsciiLower(s[i]) == "/exit"[i]
  }

  /** `sum(ord(c) for c in s)`. */
  function CodeSum(s: string): nat {
    if s == [] then 0 else s[0] as int + CodeSum(s[1..])
  }

  /** The code sum of a concatenation is the sum of the code sums. */
  lemma {:induction false} CodeSumAppend(a: string, b: string)
    ensures CodeSum(a + b) == CodeSum(a) + CodeSum(b)
  {
    if a == [] {
      assert a + b == b;
    } else {
      assert (a + b)[0] == a[0];
      assert (a + b)[1..] == a[1..] + b;
      CodeSumAppend(a[1..], b);
    }
  }

  /**
   * The code sum depends only on which characters occur how often, so
   * usernames that are anagrams of each other get the same sum.
   */
  lemma {:induction false} CodeSumAnagram(s: string, t: string)
    requires multiset(s) == multiset(t)
    ensures CodeSum(s) == CodeSum(t)
  {
    if s == [] {
      assert |t| == |multiset(t)| == 0;
    } else {
      var c := s[0];
      assert c in multiset(t) by {
        assert s == [c] + s[1..];
      }
      var i :| 0 <= i < |t| && t[i] == c;
      var rest := t[..i] + t[i + 1..];
      RemoveAt(s, 0);
      RemoveAt(t, i);
      assert s[..0] + s[1..] == s[1..];
      CodeSumAnagram(s[1..], rest);
      CodeSumWithout(t, i);
    }
  }

  /** Taking out the character at `i` takes one copy of it out of the multiset. */
  lemma RemoveAt(t: string, i: nat)
    requires i < |t|
    ensures multiset(t[..i] + t[i + 1..]) == multiset(t) - multiset{t[i]}
  {
    assert t == t[..i] + [t[i]] + t[i + 1..];
  }

  /** Taking out the character at `i` takes its code out of the sum. */
  lemma CodeSumWithout(t: string, i: nat)
    requires i < |t|
    ensures CodeSum(t) == CodeSum(t[..i] + t[i + 1..]) + t[i] as int
  {
    var left, right := t[..i], t[i + 1..];
    assert t == left + ([t[i]] + right);
    CodeSumAppend(left, [t[i]] + right);
    CodeSumAppend(left, right);
    CodeSumAppend([t[i]], right);
    assert CodeSum([t[i]]) == t[i] as int by {
      assert [t[i]][1..] == [];
    }
  }
}
