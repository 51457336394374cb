/**
 * The subset of Go's `strings`, `fmt` and `path/filepath` behaviour that the
 * orchestration code relies on, over `string` (= seq<char>).  Strings are
 * treated as byte strings of ASCII characters: one char stands for one byte.
 */
module Strings {
  import opened Wrappers

  // ---------------------------------------------------------------------------
  // Prefixes, suffixes, truncation

  predicate HasPrefix(s: string, prefix: string) { prefix <= s }

  predicate HasSuffix(s: string, suffix: string) {
    |suffix| <= |s| && s[|s| - |suffix|..] == suffix
  }

  /** strings.TrimPrefix: removes one leading `prefix` if present. */
  function TrimPrefix(s: string, prefix: string): (r: string)
    ensures HasPrefix(s, prefix) ==> s == prefix + r
    ensures !HasPrefix(s, prefix) ==> r == s
  {
    if HasPrefix(s, prefix) then s[|prefix|..] else s
  }

  /** strings.TrimSuffix: removes one trailing `suffix` if present. */
  function TrimSuffix(s: string, suffix: string): (r: string)
    ensures HasSuffix(s, suffix) ==> s == r + suffix
    ensures !HasSuffix(s, suffix) ==> r == s
  {
    if HasSuffix(s, suffix) then s[..|s| - |suffix|] else s
  }

  /** The Go slice expression `s[:n]` guarded by `if len(s) > n`. */
  function Truncate(s: string, n: nat): (r: string)
    ensures |r| <= n && r <= s
    ensures |s| <= n ==> r == s
    ensures |s| > n ==> |r| == n
  {
    if |s| > n then s[..n] else s
  }

  // ---------------------------------------------------------------------------
  // Searching

  predicate OccursAt(s: string, sep: string, i: nat) {
    i + |sep| <= |s| && s[i..i + |sep|] == sep
  }

  /** strings.Index, with None for Go's -1. */
  function IndexOf(s: string, sep: string): (r: Option<nat>)
    decreases |s|
  {
    if |s| < |sep| then None
    else if s[..|sep|] == sep then Some(0)
    else match IndexOf(s[1..], sep)
      case None => None
      case Some(i) => Some(i + 1)
  }

  lemma {:induction false} IndexOfFirst(s: string, sep: string)
    ensures IndexOf(s, sep).Some? ==>
      var i := IndexOf(s, sep).value;
      OccursAt(s, sep, i) && forall j :: 0 <= j < i ==> !OccursAt(s, sep, j)
    ensures IndexOf(s, sep).None? ==> forall j :: 0 <= j ==> !OccursAt(s, sep, j)
    decreases |s|
  {
    if |s| < |sep| {
    } else if s[..|sep|] == sep {
    } else {
      IndexOfFirst(s[1..], sep);
      assert !OccursAt(s, sep, 0);
      forall j | 1 <= j ensures OccursAt(s, sep, j) <==> OccursAt(s[1..], sep, j - 1) {
        OccursShift(s, sep, j);
      }
    }
  }

  /** An occurrence at j >= 1 is an occurrence at j - 1 in the tail. */
  lemma OccursShift(s: string, sep: string, j: nat)
    requires 1 <= j && |s| >= 1
    ensures OccursAt(s, sep, j) <==> OccursAt(s[1..], sep, j - 1)
  {
    if j + |sep| <= |s| {
      var a, b := s[j..j + |sep|], s[1..][j - 1..j - 1 + |sep|];
      assert |a| == |b|;
      forall k | 0 <= k < |a| ensures a[k] == b[k] {
        assert a[k] == s[j + k];
        assert b[k] == s[1..][j - 1 + k];
      }
      assert a == b;
    }
  }

  /** strings.Contains. */
  predicate Contains(s: string, sep: string) { IndexOf(s, sep).Some? }

  lemma ContainsIff(s: string, sep: string)
    ensures Contains(s, sep) <==> exists j :: 0 <= j && OccursAt(s, sep, j)
  {
    IndexOfFirst(s, sep);
  }

  // ---------------------------------------------------------------------------
  // Split and Join

  /** strings.Split for a non-empty separator: the pieces between the
    * non-overlapping, leftmost occurrences of `sep`. */
  function Split(s: string, sep: string): (parts: seq<string>)
    requires |sep| > 0
    ensures |parts| >= 1
    decreases |s|
  {
    match IndexOf(s, sep)
    case None => [s]
    case Some(i) =>
      IndexOfFirst(s, sep);
      [s[..i]] + Split(s[i + |sep|..], sep)
  }

  /** strings.Join. */
  function Join(parts: seq<string>, sep: string): string
  {
    if |parts| == 0 then ""
    else if |parts| == 1 then parts[0]
    else parts[0] + sep + Join(parts[1..], sep)
  }

  /** strings.ReplaceAll for a non-empty pattern: Go replaces exactly the
    * occurrences that Split cuts at. */
  function ReplaceAll(s: string, pattern: string, repl: string): string
    requires |pattern| > 0
  {
    Join(Split(s, pattern), repl)
  }

  lemma {:induction false} SplitJoin(s: string, sep: string)
    requires |sep| > 0
    ensures Join(Split(s, sep), sep) == s
    decreases |s|
  {
    match IndexOf(s, sep)
    case None =>
    case Some(i) =>
      IndexOfFirst(s, sep);
      var rest := s[i + |sep|..];
      var tail := Split(rest, sep);
      SplitJoin(rest, sep);
      var parts := [s[..i]] + tail;
      assert Split(s, sep) == parts;
      assert parts[1..] == tail;
      assert Join(parts, sep) == s[..i] + sep + Join(tail, sep);
      assert s == s[..i] + sep + rest;
  }

  /** A piece of s[..i] before the first occurrence is free of `sep`. */
  lemma PrefixBeforeFirstIsFree(s: string, sep: string, i: nat)
    requires |sep| > 0 && i <= |s|
    requires forall j :: 0 <= j < i ==> !OccursAt(s, sep, j)
    ensures !Contains(s[..i], sep)
  {
    IndexOfFirst(s[..i], sep);
    if Contains(s[..i], sep) {
      var j := IndexOf(s[..i], sep).value;
      assert OccursAt(s[..i], sep, j);
      assert s[..i][j..j + |sep|] == s[j..j + |sep|];
      assert OccursAt(s, sep, j) && j < i;
    }
  }

  lemma {:induction false} SplitPartsFree(s: string, sep: string)
    requires |sep| > 0
    ensures forall k :: 0 <= k < |Split(s, sep)| ==> !Contains(Split(s, sep)[k], sep)
    decreases |s|
  {
    IndexOfFirst(s, sep);
    match IndexOf(s, sep)
    case None =>
      assert Split(s, sep) == [s];
    case Some(i) =>
      SplitPartsFree(s[i + |sep|..], sep);
      PrefixBeforeFirstIsFree(s, sep, i);
  }

  lemma {:induction false} SplitPartsChars(s: string, sep: string, c: char)
    requires |sep| > 0 && c !in s
    ensures forall k :: 0 <= k < |Split(s, sep)| ==> c !in Split(s, sep)[k]
    decreases |s|
  {
    match IndexOf(s, sep)
    case None =>
    case Some(i) =>
      IndexOfFirst(s, sep);
      var rest := s[i + |sep|..];
      assert forall x :: x in rest ==> x in s;
      assert forall x :: x in s[..i] ==> x in s;
      SplitPartsChars(rest, sep, c);
  }

  lemma {:induction false} JoinChars(parts: seq<string>, sep: string, c: char)
    requires c !in sep
    requires forall k :: 0 <= k < |parts| ==> c !in parts[k]
    ensures c !in Join(parts, sep)
    decreases |parts|
  {
    if |parts| > 1 {
      JoinChars(parts[1..], sep, c);
    }
  }

  /** A split into exactly two pieces means exactly one occurrence of `sep`. */
  lemma SplitTwo(s: string, sep: string)
    requires |sep| > 0 && |Split(s, sep)| == 2
    ensures s == Split(s, sep)[0] + sep + Split(s, sep)[1]
    ensures !Contains(Split(s, sep)[0], sep) && !Contains(Split(s, sep)[1], sep)
  {
    SplitJoin(s, sep);
    SplitPartsFree(s, sep);
    var parts := Split(s, sep);
    assert Join(parts, sep) == parts[0] + sep + Join(parts[1..], sep);
  }

  /** A separator whose first character is not in `a` is first found right
    * after `a`. */
  lemma SplitAtFirst(a: string, sep: string, b: string)
    requires |sep| > 0 && sep[0] !in a
    ensures Split(a + sep + b, sep) == [a] + Split(b, sep)
  {
    var s := a + sep + b;
    IndexOfFirst(s, sep);
    assert OccursAt(s, sep, |a|) by {
      assert s[|a|..|a| + |sep|] == sep;
    }
    assert IndexOf(s, sep) == Some(|a|);
    assert s[|a| + |sep|..] == b;
    assert s[..|a|] == a;
  }

  /** ... and when `b` holds no separator, the split has exactly two pieces. */
  lemma SplitAround(a: string, sep: string, b: string)
    requires |sep| > 0 && sep[0] !in a && !Contains(b, sep)
    ensures Split(a + sep + b, sep) == [a, b]
  {
    SplitAtFirst(a, sep, b);
  }

  /** Splitting on a one-character separator undoes joining pieces free of it. */
  lemma {:induction false} SplitJoinInverse(parts: seq<string>, c: char)
    requires |parts| >= 1 && forall k :: 0 <= k < |parts| ==> c !in parts[k]
    ensures Split(Join(parts, [c]), [c]) == parts
    decreases |parts|
  {
    if |parts| == 1 {
      AbsentCharNotContained(parts[0], [c], c);
    } else {
      SplitJoinInverse(parts[1..], c);
      SplitAtFirst(parts[0], [c], Join(parts[1..], [c]));
      assert parts == [parts[0]] + parts[1..];
    }
  }

  /** No occurrence starting inside `a` and none inside `b`: none in `a + b`. */
  lemma NotContainedAcross(a: string, b: string, sep: string)
    requires forall j :: 0 <= j < |a| ==> !OccursAt(a + b, sep, j)
    requires !Contains(b, sep)
    ensures !Contains(a + b, sep)
  {
    ContainsIff(a + b, sep);
    ContainsIff(b, sep);
    forall j | |a| <= j && OccursAt(a + b, sep, j) ensures false {
      assert (a + b)[j..j + |sep|] == b[j - |a|..j - |a| + |sep|];
      assert OccursAt(b, sep, j - |a|);
    }
  }

  lemma ContainedAt(a: string, sep: string, b: string)
    ensures Contains(a + sep + b, sep)
  {
    ContainsIff(a + sep + b, sep);
    assert (a + sep + b)[|a|..|a| + |sep|] == sep;
    assert OccursAt(a + sep + b, sep, |a|);
  }

  lemma PrefixNotContained(x: string, n: nat, sep: string)
    requires n <= |x| && !Contains(x, sep)
    ensures !Contains(x[..n], sep)
  {
    ContainsIff(x, sep);
    ContainsIff(x[..n], sep);
    forall j | 0 <= j && OccursAt(x[..n], sep, j) ensures false {
      assert x[..n][j..j + |sep|] == x[j..j + |sep|];
      assert OccursAt(x, sep, j);
    }
  }

  /** Trimming a suffix after a prefix whose last |suffix| characters do not
    * hold the suffix's first character only trims the part after the prefix. */
  lemma TrimSuffixAfter(p: string, x: string, suffix: string)
    requires |suffix| > 0 && |p| >= |suffix| && suffix[0] !in p[|p| - |suffix|..]
    ensures TrimSuffix(p + x, suffix) == p + TrimSuffix(x, suffix)
  {
    if |x| >= |suffix| {
      LongTailTrimmed(p, x, suffix);
    } else {
      ShortTailNoSuffix(p, x, suffix);
      assert !HasSuffix(x, suffix);
    }
  }

  lemma LongTailTrimmed(p: string, x: string, suffix: string)
    requires |x| >= |suffix|
    ensures TrimSuffix(p + x, suffix) == p + TrimSuffix(x, suffix)
  {
    var s := p + x;
    assert s[|s| - |suffix|..] == x[|x| - |suffix|..];
    if HasSuffix(x, suffix) {
      assert s[..|s| - |suffix|] == p + x[..|x| - |suffix|];
    }
  }

  lemma ShortTailNoSuffix(p: string, x: string, suffix: string)
    requires |suffix| > 0 && |p| >= |suffix| && suffix[0] !in p[|p| - |suffix|..] && |x| < |suffix|
    ensures !HasSuffix(p + x, suffix)
  {
    var s := p + x;
    var k := |s| - |suffix|;
    assert s[k] == p[k] == p[|p| - |suffix|..][k - (|p| - |suffix|)];
    assert s[k] != suffix[0];
  }

  /** Replacing a one-character pattern by text without that character
    * leaves no such character behind. */
  lemma ReplaceAllRemoves(s: string, pattern: string, repl: string)
    requires |pattern| == 1 && pattern[0] !in repl
    ensures pattern[0] !in ReplaceAll(s, pattern, repl)
  {
    SplitPartsFree(s, pattern);
    var parts := Split(s, pattern);
    forall k | 0 <= k < |parts| ensures pattern[0] !in parts[k] {
      if pattern[0] in parts[k] {
        var j :| 0 <= j < |parts[k]| && parts[k][j] == pattern[0];
        assert parts[k][j..j + 1] == pattern;
        assert OccursAt(parts[k], pattern, j);
        ContainsIff(parts[k], pattern);
      }
    }
    JoinChars(parts, repl, pattern[0]);
  }

  /** ReplaceAll never introduces a character absent from both the input and
    * the replacement. */
  lemma ReplaceAllKeepsAbsent(s: string, pattern: string, repl: string, c: char)
    requires |pattern| > 0 && c !in s && c !in repl
    ensures c !in ReplaceAll(s, pattern, repl)
  {
    SplitPartsChars(s, pattern, c);
    JoinChars(Split(s, pattern), repl, c);
  }

  /** A pattern holding a character that `s` lacks never occurs in `s`. */
  lemma AbsentCharNotContained(s: string, pattern: string, c: char)
    requires c in pattern && c !in s
    ensures !Contains(s, pattern)
  {
    ContainsIff(s, pattern);
  }

  /** ReplaceAll of a pattern that does not occur is the identity. */
  lemma ReplaceAllAbsent(s: string, pattern: string, repl: string)
    requires |pattern| > 0 && !Contains(s, pattern)
    ensures ReplaceAll(s, pattern, repl) == s
  {
  }

  /** Replacing a character that occurs once, between `a` and `b`. */
  lemma ReplaceSingle(a: string, c: char, b: string, d: char)
    requires c !in a && c !in b
    ensures ReplaceAll(a + [c] + b, [c], [d]) == a + [d] + b
  {
    AbsentCharNotContained(b, [c], c);
    SplitAround(a, [c], b);
    assert [a, b][1..] == [b];
    assert Join([a, b], [d]) == a + [d] + b;
  }

  // ---------------------------------------------------------------------------
  // Case and white space (ASCII)

  predicate IsUpper(c: char) { 'A' <= c <= 'Z' }

  function ToLowerChar(c: char): (r: char)
    ensures !IsUpper(r)
    ensures !IsUpper(c) ==> r == c
  {
    if IsUpper(c) then (c as int + 32) as char else c
  }

  /** strings.ToLower restricted to ASCII letters. */
  function ToLower(s: string): (r: string)
    ensures |r| == |s|
    ensures forall i :: 0 <= i < |s| ==> r[i] == ToLowerChar(s[i])
  {
    seq(|s|, i requires 0 <= i < |s| => ToLowerChar(s[i]))
  }

  /** No upper-case ASCII letter occurs. */
  predicate IsLower(s: string) { forall i :: 0 <= i < |s| ==> !IsUpper(s[i]) }

  lemma ToLowerIsLower(s: string)
    ensures IsLower(ToLower(s))
  {
  }

  lemma ToLowerKeepsAbsent(s: string, c: char)
    requires !IsUpper(c) && !('a' <= c <= 'z') && c !in s
    ensures c !in ToLower(s)
  {
  }

  lemma ToLowerOfLower(s: string)
    requires IsLower(s)
    ensures ToLower(s) == s
  {
  }

  lemma LowerConcat(a: string, b: string)
    requires IsLower(a) && IsLower(b)
    ensures IsLower(a + b)
  {
    forall i | 0 <= i < |a + b|
      ensures !IsUpper((a + b)[i])
    {
      if i >= |a| {
        assert (a + b)[i] == b[i - |a|];
      }
    }
  }

  predicate IsSpace(c: char) { c == ' ' || c == '\t' || c == '\n' || c == '\r' || c == '\U{B}' || c == '\U{C}' }

  function TrimLeft(s: string): (r: string)
    ensures |r| <= |s| && r == s[|s| - |r|..]
    ensures r == [] || !IsSpace(r[0])
  {
    if |s| > 0 && IsSpace(s[0]) then TrimLeft(s[1..]) else s
  }

  function TrimRight(s: string): (r: string)
    ensures r <= s
    ensures r == [] || !IsSpace(r[|r| - 1])
  {
    if |s| > 0 && IsSpace(s[|s| - 1]) then TrimRight(s[..|s| - 1]) else s
  }

  /** strings.TrimSpace restricted to ASCII white space. */
  function TrimSpace(s: string): (r: string)
    ensures r == [] || (!IsSpace(r[0]) && !IsSpace(r[|r| - 1]))
  {
    TrimRight(TrimLeft(s))
  }

  // ---------------------------------------------------------------------------
  // Concatenation steps, stated over plain strings so that callers need not
  // compare long concatenations character by character

  lemma AppendAssoc(h: string, a: string, b: string, ab: string)
    requires ab == a + b
    ensures (h + a) + b == h + ab
  {
  }

  /** Three lower-case parts joined: lower-case, starting with the first
    * part and ending with the last. */
  lemma LowerConcat3(a: string, b: string, c: string)
    requires IsLower(a) && IsLower(b) && IsLower(c)
    ensures IsLower(a + b + c)
  {
    LowerConcat(a, b);
    LowerConcat(a + b, c);
  }

  /** Four lower-case parts joined: lower-case, starting with the first
    * part and ending with the last two. */
  lemma LowerConcat4(a: string, b: string, c: string, d: string)
    requires IsLower(a) && IsLower(b) && IsLower(c) && IsLower(d)
    ensures IsLower(a + b + c + d) && HasPrefix(a + b + c + d, a) && HasSuffix(a + b + c + d, c + d)
  {
    LowerConcat(a, b);
    LowerConcat(a + b, c);
    LowerConcat(a + b + c, d);
    assert (a + b + c + d)[..|a|] == a;
    assert (a + b + c + d)[|a + b|..] == c + d;
  }

  lemma PrefixOfAppend(a: string, b: string)
    ensures a <= a + b
  {
    assert (a + b)[..|a|] == a;
  }

  lemma PrefixAfter(h: string, a: string, b: string)
    requires a <= b
    ensures h + a <= h + b
  {
    assert (h + b)[..|h + a|] == h + a;
  }

  // ---------------------------------------------------------------------------
  // Decimal and hexadecimal formatting

  function DigitChar(d: nat): char
    requires d < 10
  {
    "0123456789"[d]
  }

  /** fmt's %d of a non-negative number. */
  function NatToString(n: nat): (r: string)
    ensures |r| >= 1
    ensures n < 10 <==> |r| == 1
  {
    if n < 10 then [DigitChar(n)] else NatToString(n / 10) + [DigitChar(n % 10)]
  }

  /** fmt's %d of any number. */
  function IntToString(n: int): string
  {
    if n < 0 then "-" + NatToString(-n) else NatToString(n)
  }

  lemma DigitCharInjective(a: nat, b: nat)
    requires a < 10 && b < 10 && DigitChar(a) == DigitChar(b)
    ensures a == b
  {
  }

  /** Every character of a decimal string is a digit. */
  lemma {:induction false} NatToStringDigits(n: nat)
    ensures forall i :: 0 <= i < |NatToString(n)| ==> '0' <= NatToString(n)[i] <= '9'
    decreases n
  {
    if n >= 10 {
      NatToStringDigits(n / 10);
    }
  }

  /** Distinct numbers print as distinct decimal strings. */
  lemma {:induction false} NatToStringInjective(n: nat, m: nat)
    requires NatToString(n) == NatToString(m)
    ensures n == m
    decreases n
  {
    var s := NatToString(n);
    if n < 10 && m < 10 {
      DigitCharInjective(n, m);
    } else if n >= 10 && m >= 10 {
      assert s[|s| - 1] == DigitChar(n % 10) == DigitChar(m % 10);
      DigitCharInjective(n % 10, m % 10);
      assert NatToString(n / 10) == s[..|s| - 1] == NatToString(m / 10);
      NatToStringInjective(n / 10, m / 10);
    }
  }

  predicate IsLowerHexDigit(c: char) { '0' <= c <= '9' || 'a' <= c <= 'f' }

  predicate IsLowerHex(s: string) { forall i :: 0 <= i < |s| ==> IsLowerHexDigit(s[i]) }

  lemma LowerHexIsLower(s: string)
    requires IsLowerHex(s)
    ensures IsLower(s)
  {
  }

  function HexDigit(d: nat): (c: char)
    requires d < 16
    ensures IsLowerHexDigit(c)
  {
    "0123456789abcdef"[d]
  }

  /** fmt's %x of a non-negative number: lower-case, no leading zeros. */
  function NatToHex(n: nat): (r: string)
    ensures |r| >= 1 && IsLowerHex(r)
  {
    if n < 16 then [HexDigit(n)] else NatToHex(n / 16) + [HexDigit(n % 16)]
  }

  /** A number below 16^k needs at most k hex digits. */
  lemma {:induction false} NatToHexLength(n: nat, k: nat)
    requires k >= 1 && n < Pow16(k)
    ensures |NatToHex(n)| <= k
    decreases k
  {
    if n >= 16 {
      assert k >= 2;
      assert n / 16 < Pow16(k - 1);
      NatToHexLength(n / 16, k - 1);
    }
  }

  function Pow16(k: nat): (r: nat)
    ensures r >= 1
  {
    if k == 0 then 1 else 16 * Pow16(k - 1)
  }

  // ---------------------------------------------------------------------------
  // Paths

  function TrimTrailingSlashes(p: string): (r: string)
    ensures r <= p
    ensures r == [] || r[|r| - 1] != '/'
  {
    if |p| > 0 && p[|p| - 1] == '/' then TrimTrailingSlashes(p[..|p| - 1]) else p
  }

  /** The text after the last '/' (all of `p` when it has none). */
  function AfterLastSlash(p: string): (r: string)
    ensures '/' !in r
    ensures |r| <= |p| && r == p[|p| - |r|..]
    ensures |r| < |p| ==> p[|p| - |r| - 1] == '/'
  {
    if |p| == 0 then p
    else if p[|p| - 1] == '/' then ""
    else AfterLastSlash(p[..|p| - 1]) + [p[|p| - 1]]
  }

  /** filepath.Base on a Unix path. */
  function Base(p: string): (r: string)
    ensures r != ""
  {
    if p == "" then "."
    else
      var t := TrimTrailingSlashes(p);
      if t == "" then "/" else AfterLastSlash(t)
  }

  lemma {:induction false} AfterLastSlashOf(p: string, name: string)
    requires '/' !in name
    ensures AfterLastSlash(p + "/" + name) == name
    decreases |name|
  {
    var s := p + "/" + name;
    if name == [] {
      assert s[|s| - 1] == '/';
    } else {
      var init := name[..|name| - 1];
      assert s[..|s| - 1] == p + "/" + init;
      assert '/' !in init by {
        assert forall x :: x in init ==> x in name;
      }
      AfterLastSlashOf(p, init);
      assert name == init + [name[|name| - 1]];
    }
  }

  /** The base of a path ending in a non-empty element without slashes is
    * that element. */
  lemma BaseOf(p: string, name: string)
    requires name != [] && '/' !in name
    ensures Base(p + "/" + name) == name
  {
    var s := p + "/" + name;
    assert s[|s| - 1] == name[|name| - 1];
    assert TrimTrailingSlashes(s) == s;
    AfterLastSlashOf(p, name);
  }
}
