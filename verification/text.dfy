/** String helpers shared by the model: Python's substring test `in`,
    `str.count`, `str.lower`, `str.strip`, `", ".join(...)`, and the decimal
    rendering used by f-strings and `strftime`.

    Strings are `seq<char>`. Case folding and whitespace are ASCII only.
 */
module Text {

  import opened Wrappers

  // ---------------------------------------------------------------------------
  // Substrings
  // ---------------------------------------------------------------------------

  /** `sub` occurs in `s` starting at index `i`. */
  predicate OccursAt(s: string, sub: string, i: int) {
    0 <= i && i + |sub| <= |s| && s[i..i + |sub|] == sub
  }

  /** Python's `sub in s` on strings. */
  predicate Contains(s: string, sub: string)
    decreases |s|
  {
    if sub <= s then true
    else if |s| == 0 then false
    else Contains(s[1..], sub)
  }

  lemma {:induction false} ContainsShift(s: string, sub: string, i: int)
    requires 1 <= i && OccursAt(s, sub, i)
    ensures OccursAt(s[1..], sub, i - 1)
  {
    assert s[1..][i - 1..i - 1 + |sub|] == s[i..i + |sub|];
  }

  /** The recursive definition agrees with "there is an index where `sub` occurs". */
  lemma {:induction false} ContainsIff(s: string, sub: string)
    ensures Contains(s, sub) <==> exists i :: OccursAt(s, sub, i)
    decreases |s|
  {
    if sub <= s {
      assert s[0..|sub|] == sub;
      assert OccursAt(s, sub, 0);
    } else if |s| == 0 {
      assert |sub| > 0;
    } else {
      ContainsIff(s[1..], sub);
      if exists i :: OccursAt(s[1..], sub, i) {
        var i :| OccursAt(s[1..], sub, i);
        assert s[1..][i..i + |sub|] == s[i + 1..i + 1 + |sub|];
        assert OccursAt(s, sub, i + 1);
      }
      if exists i :: OccursAt(s, sub, i) {
        var i :| OccursAt(s, sub, i);
        ContainsShift(s, sub, i);
      }
    }
  }

  /** Python's `s.count(sub)`: non-overlapping occurrences, scanning left to
      right; an empty `sub` is found at every one of the `|s| + 1` positions. */
  function CountOcc(s: string, sub: string): (r: nat)
    ensures |sub| > 0 ==> r * |sub| <= |s|
    decreases |s|
  {
    if |sub| == 0 then |s| + 1
    else if |s| < |sub| then 0
    else if sub <= s then 1 + CountOcc(s[|sub|..], sub)
    else CountOcc(s[1..], sub)
  }

  /** A non-empty keyword is counted at least once exactly when it occurs. */
  lemma {:induction false} CountOccPositiveIff(s: string, sub: string)
    requires |sub| > 0
    ensures CountOcc(s, sub) > 0 <==> Contains(s, sub)
    decreases |s|
  {
    if |s| < |sub| {
      if Contains(s, sub) {
        ContainsIff(s, sub);
        assert false;
      }
    } else if sub <= s {
    } else {
      CountOccPositiveIff(s[1..], sub);
    }
  }

  /** Python's `any(k in s for k in keys)`. */
  predicate ContainsAny(s: string, keys: seq<string>) {
    exists k :: k in keys && Contains(s, k)
  }

  /** The first key of `keys` that occurs in `s`, if any. */
  function FirstContained(s: string, keys: seq<string>): (r: Option<string>)
    ensures r.Some? <==> ContainsAny(s, keys)
    ensures r.Some? ==> r.value in keys && Contains(s, r.value)
  {
    if |keys| == 0 then None
    else if Contains(s, keys[0]) then Some(keys[0])
    else
      var rest := FirstContained(s, keys[1..]);
      assert forall k :: k in keys && k != keys[0] ==> k in keys[1..];
      rest
  }

  // ---------------------------------------------------------------------------
  // Case and whitespace
  // ---------------------------------------------------------------------------

  function LowerChar(c: char): char {
    if 'A' <= c <= 'Z' then (c as int - 'A' as int + 'a' as int) as char else c
  }

  /** `str.lower()` on ASCII letters; other characters are kept. */
  function Lower(s: string): (r: string)
    ensures |r| == |s|
    ensures forall i :: 0 <= i < |s| ==> r[i] == LowerChar(s[i])
  {
    if |s| == 0 then "" else [LowerChar(s[0])] + Lower(s[1..])
  }

  lemma LowerIdempotent(s: string)
    ensures Lower(Lower(s)) == Lower(s)
  {
  }

  /** End of the longest run of characters satisfying `p` that starts at
      `i`: the greedy repetition `[...]*` of a regular expression. */
  function RunEnd(s: string, i: nat, p: char -> bool): (j: nat)
    requires i <= |s|
    ensures i <= j <= |s|
    ensures forall k :: i <= k < j ==> p(s[k])
    ensures j < |s| ==> !p(s[j])
    decreases |s| - i
  {
    if i < |s| && p(s[i]) then RunEnd(s, i + 1, p) else i
  }

  /** Python's `str.isspace()` for one character (ASCII subset). */
  predicate IsSpace(c: char) {
    c == ' ' || c == '\t' || c == '\n' || c == '\r' || c as int == 11 || c as int == 12
  }

  function StripLeft(s: string): (r: string)
    ensures |r| <= |s| && r == s[|s| - |r|..]
    ensures |r| > 0 ==> !IsSpace(r[0])
    ensures forall i :: 0 <= i < |s| - |r| ==> IsSpace(s[i])
  {
    if |s| > 0 && IsSpace(s[0]) then StripLeft(s[1..]) else s
  }

  function StripRight(s: string): (r: string)
    ensures |r| <= |s| && r == s[..|r|]
    ensures |r| > 0 ==> !IsSpace(r[|r| - 1])
    ensures forall i :: |r| <= i < |s| ==> IsSpace(s[i])
  {
    if |s| > 0 && IsSpace(s[|s| - 1]) then StripRight(s[..|s| - 1]) else s
  }

  /** `str.strip()`. */
  function Strip(s: string): (r: string)
    ensures |r| > 0 ==> !IsSpace(r[0]) && !IsSpace(r[|r| - 1])
  {
    StripRight(StripLeft(s))
  }

  /** Python's `str.replace(pat, "")`: every non-overlapping occurrence of
      `pat`, scanning left to right, is deleted. */
  function RemoveAll(s: string, pat: string): (r: string)
    requires |pat| > 0
    ensures |r| <= |s|
    ensures |pat| == 1 ==> forall i :: 0 <= i < |r| ==> r[i] != pat[0]
    decreases |s|
  {
    if |s| < |pat| then s
    else if pat <= s then RemoveAll(s[|pat|..], pat)
    else [s[0]] + RemoveAll(s[1..], pat)
  }

  /** `s.find(c)` for one character, with `|s|` standing for "not found". */
  function IndexOfChar(s: string, c: char): (r: nat)
    ensures r <= |s|
    ensures r < |s| ==> s[r] == c
    ensures forall i :: 0 <= i < r ==> s[i] != c
    decreases |s|
  {
    if |s| == 0 then 0
    else if s[0] == c then 0
    else 1 + IndexOfChar(s[1..], c)
  }

  /** A text free of `c` followed by `c`: the first `c` sits right after it,
      so the text can be read back off the concatenation. */
  lemma IndexOfCharAfter(a: string, b: string, c: char)
    requires c !in a && |b| > 0 && b[0] == c
    ensures IndexOfChar(a + b, c) == |a|
    ensures (a + b)[..IndexOfChar(a + b, c)] == a
  {
    var s := a + b;
    var r := IndexOfChar(s, c);
    assert s[|a|] == c;
    assert forall i :: 0 <= i < |a| ==> s[i] == a[i] && s[i] != c;
    assert s[..|a|] == a;
  }

  // ---------------------------------------------------------------------------
  // Joining
  // ---------------------------------------------------------------------------

  /** `sep.join(parts)`. */
  function Join(sep: string, parts: seq<string>): (r: string)
    ensures |parts| == 1 ==> r == parts[0]
    ensures |parts| == 0 ==> r == ""
  {
    if |parts| == 0 then ""
    else if |parts| == 1 then parts[0]
    else parts[0] + sep + Join(sep, parts[1..])
  }

  /** The joined text starts with the first part and, when there are more,
      continues with the separator. */
  lemma JoinHead(sep: string, parts: seq<string>)
    requires |parts| >= 2
    ensures Join(sep, parts) == parts[0] + sep + Join(sep, parts[1..])
  {
  }

  /** Where part `k` starts inside `Join(sep, parts)`. */
  function JoinOffset(sep: string, parts: seq<string>, k: nat): nat
    requires k <= |parts|
  {
    if k == 0 then 0 else JoinOffset(sep, parts, k - 1) + |parts[k - 1]| + |sep|
  }

  /** Every part appears, in order, at its offset, followed by the separator
      unless it is the last one. */
  lemma {:induction false} JoinParts(sep: string, parts: seq<string>, k: nat)
    requires k < |parts|
    ensures OccursAt(Join(sep, parts), parts[k], JoinOffset(sep, parts, k))
    ensures k + 1 < |parts| ==> OccursAt(Join(sep, parts), sep, JoinOffset(sep, parts, k) + |parts[k]|)
    decreases k
  {
    if k == 0 {
      JoinFirst(sep, parts);
    } else {
      JoinParts(sep, parts[1..], k - 1);
      JoinPartsStep(sep, parts, k, parts[1..]);
    }
  }

  /** What holds for part `k - 1` of the tail holds for part `k` of the
      whole list, one head and separator further on. */
  lemma JoinPartsStep(sep: string, parts: seq<string>, k: nat, rest: seq<string>)
    requires 0 < k < |parts| && rest == parts[1..]
    requires OccursAt(Join(sep, rest), rest[k - 1], JoinOffset(sep, rest, k - 1))
    requires k < |rest| ==> OccursAt(Join(sep, rest), sep, JoinOffset(sep, rest, k - 1) + |rest[k - 1]|)
    ensures OccursAt(Join(sep, parts), parts[k], JoinOffset(sep, parts, k))
    ensures k + 1 < |parts| ==> OccursAt(Join(sep, parts), sep, JoinOffset(sep, parts, k) + |parts[k]|)
  {
    var head := parts[0] + sep;
    assert Join(sep, parts) == head + Join(sep, rest);
    assert rest[k - 1] == parts[k];
    JoinOffsetShift(sep, parts, k);
    OccursAtShift(head, Join(sep, rest), parts[k], JoinOffset(sep, rest, k - 1));
    if k + 1 < |parts| {
      OccursAtShift(head, Join(sep, rest), sep, JoinOffset(sep, rest, k - 1) + |parts[k]|);
    }
  }

  lemma JoinFirst(sep: string, parts: seq<string>)
    requires |parts| > 0
    ensures OccursAt(Join(sep, parts), parts[0], 0)
    ensures 1 < |parts| ==> OccursAt(Join(sep, parts), sep, |parts[0]|)
  {
    var j := Join(sep, parts);
    if |parts| > 1 {
      assert j == parts[0] + sep + Join(sep, parts[1..]);
      assert j[0..|parts[0]|] == parts[0];
      assert j[|parts[0]|..|parts[0]| + |sep|] == sep;
    }
  }

  /** An occurrence inside `b` is an occurrence inside `a + b`, moved by `|a|`. */
  lemma OccursAtShift(a: string, b: string, sub: string, i: int)
    requires OccursAt(b, sub, i)
    ensures OccursAt(a + b, sub, |a| + i)
  {
    assert (a + b)[|a| + i..|a| + i + |sub|] == b[i..i + |sub|];
  }

  lemma {:induction false} JoinOffsetShift(sep: string, parts: seq<string>, k: nat)
    requires 1 <= k <= |parts|
    ensures JoinOffset(sep, parts, k) == |parts[0]| + |sep| + JoinOffset(sep, parts[1..], k - 1)
    decreases k
  {
    if k > 1 {
      JoinOffsetShift(sep, parts, k - 1);
      assert parts[1..][k - 2] == parts[k - 1];
    }
  }

  // ---------------------------------------------------------------------------
  // Decimal numbers
  // ---------------------------------------------------------------------------

  function DigitChar(d: nat): char
    requires d < 10
  {
    ('0' as int + d) as char
  }

  predicate IsDigit(c: char) {
    '0' <= c <= '9'
  }

  function DigitValue(c: char): nat
    requires IsDigit(c)
  {
    c as int - '0' as int
  }

  /** `str(n)` for a natural number. */
  function NatToString(n: nat): (r: string)
    ensures |r| > 0
    ensures forall i :: 0 <= i < |r| ==> IsDigit(r[i])
    ensures n > 0 ==> r[0] != '0'
    decreases n
  {
    if n < 10 then [DigitChar(n)] else NatToString(n / 10) + [DigitChar(n % 10)]
  }

  /** `str(i)` for any integer, with a leading `-` when negative. */
  function IntToString(i: int): (r: string)
    ensures |r| > 0
    ensures i < 0 <==> r[0] == '-'
  {
    if i < 0 then "-" + NatToString(-i) else NatToString(i)
  }

  /** Reads a string of decimal digits (most significant first). */
  function ParseDigits(s: string): (r: nat)
    requires forall i :: 0 <= i < |s| ==> IsDigit(s[i])
  {
    if |s| == 0 then 0 else ParseDigits(s[..|s| - 1]) * 10 + DigitValue(s[|s| - 1])
  }

  /** Rendering a natural number and reading it back gives the number. */
  lemma {:induction false} NatToStringRoundTrip(n: nat)
    ensures ParseDigits(NatToString(n)) == n
    decreases n
  {
    if n >= 10 {
      var r := NatToString(n);
      NatToStringRoundTrip(n / 10);
      assert r[..|r| - 1] == NatToString(n / 10);
    }
  }

  /** `str(n).zfill(width)` / `strftime`'s zero padding: at least `width`
      characters, with leading zeros. */
  function PadNat(n: nat, width: nat): (r: string)
    ensures |r| >= width
    ensures forall i :: 0 <= i < |r| ==> IsDigit(r[i])
  {
    var s := NatToString(n);
    if |s| >= width then s else Zeros(width - |s|) + s
  }

  function Zeros(k: nat): (r: string)
    ensures |r| == k
    ensures forall i :: 0 <= i < k ==> r[i] == '0'
  {
    if k == 0 then "" else "0" + Zeros(k - 1)
  }

  lemma {:induction false} ParseLeadingZeros(k: nat, s: string)
    requires forall i :: 0 <= i < |s| ==> IsDigit(s[i])
    ensures forall i :: 0 <= i < |Zeros(k) + s| ==> IsDigit((Zeros(k) + s)[i])
    ensures ParseDigits(Zeros(k) + s) == ParseDigits(s)
    decreases |s|
  {
    if |s| == 0 {
      ParseZeros(k);
      assert Zeros(k) + s == Zeros(k);
    } else {
      var t := Zeros(k) + s;
      ParseLeadingZeros(k, s[..|s| - 1]);
      assert t[..|t| - 1] == Zeros(k) + s[..|s| - 1];
    }
  }

  lemma {:induction false} ParseZeros(k: nat)
    ensures ParseDigits(Zeros(k)) == 0
    decreases k
  {
    if k > 0 {
      ParseZeros(k - 1);
      var z := Zeros(k);
      assert z[..|z| - 1] == Zeros(k - 1);
    }
  }

  /** Zero padding never changes the value that is read back. */
  lemma PadNatRoundTrip(n: nat, width: nat)
    ensures ParseDigits(PadNat(n, width)) == n
  {
    NatToStringRoundTrip(n);
    var s := NatToString(n);
    if |s| < width {
      ParseLeadingZeros(width - |s|, s);
    }
  }

  /** A number below `10^width` is padded to exactly `width` digits. */
  lemma PadNatExactWidth(n: nat, width: nat)
    requires 1 <= width && n < Pow10(width)
    ensures |PadNat(n, width)| == width
  {
    NatToStringLength(n, width);
  }

  function Pow10(k: nat): (r: nat)
    ensures r >= 1
  {
    if k == 0 then 1 else 10 * Pow10(k - 1)
  }

  lemma {:induction false} NatToStringLength(n: nat, width: nat)
    requires n < Pow10(width)
    ensures |NatToString(n)| <= width || (n == 0 && width == 0)
    decreases n
  {
    if n >= 10 {
      assert width >= 1;
      NatToStringLength(n / 10, width - 1);
    }
  }

  // ---------------------------------------------------------------------------
  // Ordering and rewriting facts
  // ---------------------------------------------------------------------------

  /** Python's `a < b` on strings: code-point lexicographic order. */
  predicate Less(a: string, b: string)
    decreases |a|
  {
    if |b| == 0 then false
    else if |a| == 0 then true
    else if a[0] != b[0] then a[0] < b[0]
    else Less(a[1..], b[1..])
  }

  /** Deleting a pattern whose first character never occurs changes nothing. */
  lemma {:induction false} RemoveAllAbsent(s: string, pat: string)
    requires |pat| > 0
    requires forall i :: 0 <= i < |s| ==> s[i] != pat[0]
    ensures RemoveAll(s, pat) == s
    decreases |s|
  {
    if |s| >= |pat| {
      assert !(pat <= s) by { assert s[0] != pat[0]; }
      RemoveAllAbsent(s[1..], pat);
      assert s == [s[0]] + s[1..];
    }
  }

  /** Deleting a pattern from `s + pat`, where `s` never holds the pattern's
      first character, leaves `s`. */
  lemma {:induction false} RemoveAllSuffix(s: string, pat: string)
    requires |pat| > 0
    requires forall i :: 0 <= i < |s| ==> s[i] != pat[0]
    ensures RemoveAll(s + pat, pat) == s
    decreases |s|
  {
    var t := s + pat;
    if |s| == 0 {
      assert t == pat && t[|pat|..] == "";
    } else {
      assert !(pat <= t) by { assert t[0] == s[0] != pat[0]; }
      assert t[1..] == s[1..] + pat;
      RemoveAllSuffix(s[1..], pat);
      assert s == [s[0]] + s[1..];
    }
  }

  /** A string with no whitespace at either end is its own `strip()`. */
  lemma StripUnchanged(s: string)
    requires |s| > 0 && !IsSpace(s[0]) && !IsSpace(s[|s| - 1])
    ensures Strip(s) == s
  {
  }

  /** A string that never holds the first character of `sub` does not
      contain `sub`. */
  lemma NotContainsFirst(s: string, sub: string)
    requires |sub| > 0
    requires forall i :: 0 <= i < |s| ==> s[i] != sub[0]
    ensures !Contains(s, sub)
  {
    ContainsIff(s, sub);
    forall i | 0 <= i < |s|
      ensures !OccursAt(s, sub, i)
    {
      if i + |sub| <= |s| {
        assert s[i..i + |sub|][0] == s[i];
      }
    }
  }
}
