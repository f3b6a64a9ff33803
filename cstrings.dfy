/**
 * C strings as main.c walks them: a character buffer that ends in NUL, scanned
 * by `while (*p && *p != c) ++p` loops, and decimal digit runs read with
 * `isdigit` (taken here as '0'..'9', without locale).
 */
module CStrings {

  const NUL: char := '\0'

  /** The last cell holds a terminator, so every scan that stops at NUL stays inside. */
  predicate Terminated(s: seq<char>)
  {
    |s| > 0 && s[|s| - 1] == NUL
  }

  /** A C string exactly as allocated: its characters, then one NUL and nothing after. */
  predicate IsCString(s: seq<char>)
  {
    Terminated(s) && forall k :: 0 <= k < |s| - 1 ==> s[k] != NUL
  }

  /** j is the first index from i on whose cell holds NUL or c. */
  ghost predicate FirstStop(s: seq<char>, i: nat, c: char, j: nat)
  {
    i <= j < |s| && (s[j] == NUL || s[j] == c)
    && forall k :: i <= k < j ==> s[k] != NUL && s[k] != c
  }

  /** Where `while (*p && *p != c) ++p` stops when started at i: the first NUL or c. */
  function ScanTo(s: seq<char>, i: nat, c: char): (j: nat)
    requires Terminated(s) && i < |s|
    ensures i <= j < |s|
    ensures s[j] == NUL || s[j] == c
    ensures forall k :: i <= k < j ==> s[k] != NUL && s[k] != c
    decreases |s| - i
  {
    if s[i] == NUL || s[i] == c then i else ScanTo(s, i + 1, c)
  }

  /** ScanTo finds exactly the first stop. */
  lemma ScanToFirst(s: seq<char>, i: nat, c: char, j: nat)
    requires Terminated(s) && FirstStop(s, i, c, j)
    ensures ScanTo(s, i, c) == j
  {
    var found := ScanTo(s, i, c);
    assert !(found < j) && !(j < found);
  }

  /**
   * `strncmp(a, b, n) == 0`: the strings agree on their first n characters, or
   * up to and including a NUL they share before that.
   */
  predicate StrNEq(a: seq<char>, b: seq<char>, n: nat)
    requires Terminated(a) && Terminated(b)
    decreases n
  {
    n == 0 || (a[0] == b[0] && (a[0] == NUL || StrNEq(a[1..], b[1..], n - 1)))
  }

  /** The C string that starts at index i of the buffer: its characters up to the next NUL. */
  function StringAt(s: seq<char>, i: nat): (r: seq<char>)
    requires Terminated(s) && i < |s|
    ensures i + |r| < |s| && s[i + |r|] == NUL
    ensures r == s[i..i + |r|]
    ensures forall k :: 0 <= k < |r| ==> r[k] != NUL
  {
    s[i..ScanTo(s, i, NUL)]
  }

  /** A C string in a buffer reads as the cells it copies from s up to the NUL that ends it. */
  lemma StringAtCopy(s: seq<char>, b: seq<char>, i: nat, end: nat)
    requires Terminated(b) && i <= end < |b| && b[end] == NUL && end <= |s|
    requires forall k :: i <= k < end ==> b[k] != NUL && b[k] == s[k]
    ensures StringAt(b, i) == s[i..end]
  {
    ScanToFirst(b, i, NUL, end);
    assert b[i..end] == s[i..end];
  }

  /** The `while (*p && *p != c) ++p` loop, run over a buffer. */
  method FindStop(a: array<char>, i: nat, c: char) returns (j: nat)
    requires Terminated(a[..]) && i < a.Length
    ensures j == ScanTo(a[..], i, c)
  {
    j := i;
    while a[j] != NUL && a[j] != c
      invariant i <= j < a.Length
      invariant forall k :: i <= k < j ==> a[k] != NUL && a[k] != c
      decreases a.Length - j
    {
      j := j + 1;
    }
    ghost var found := ScanTo(a[..], i, c);
    assert !(found < j) && !(j < found);
  }

  predicate IsDigit(c: char)
  {
    '0' <= c <= '9'
  }

  function DigitValue(c: char): (d: nat)
    requires IsDigit(c)
    ensures d < 10
  {
    c as int - '0' as int
  }

  /** Where `while (isdigit(*p)) ++p` stops when started at i: the end of the digit run. */
  function DigitsEnd(s: seq<char>, i: nat): (j: nat)
    requires Terminated(s) && i < |s|
    ensures i <= j < |s|
    ensures !IsDigit(s[j])
    ensures forall k :: i <= k < j ==> IsDigit(s[k])
    decreases |s| - i
  {
    if !IsDigit(s[i]) then i else DigitsEnd(s, i + 1)
  }

  /** A digit run depends only on which cells hold digits, and which digits. */
  lemma DigitsEndLocal(s: seq<char>, b: seq<char>, i: nat)
    requires Terminated(s) && Terminated(b) && |s| == |b| && i < |s|
    requires forall k :: i <= k < |s| && (IsDigit(s[k]) || IsDigit(b[k])) ==> s[k] == b[k]
    ensures DigitsEnd(s, i) == DigitsEnd(b, i)
    ensures s[i..DigitsEnd(s, i)] == b[i..DigitsEnd(b, i)]
  {
    var j, j' := DigitsEnd(s, i), DigitsEnd(b, i);
    assert !(j < j') && !(j' < j);
  }

  predicate AllDigits(ds: seq<char>)
  {
    forall k :: 0 <= k < |ds| ==> IsDigit(ds[k])
  }

  /** The unbounded value of a decimal numeral, most significant digit first. */
  function DecimalValue(ds: seq<char>): nat
    requires AllDigits(ds)
  {
    if ds == [] then 0
    else DecimalValue(ds[..|ds| - 1]) * 10 + DigitValue(ds[|ds| - 1])
  }
}
