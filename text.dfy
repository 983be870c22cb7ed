/** The operations of Python's `str` that the modelled code relies on, over
    `string` (a `seq<char>`). Each function follows CPython's semantics for
    the inputs the modelled code can pass; character classes are ASCII. */
module Text {
  import opened Wrappers

  // ---------------------------------------------------------------------
  // Occurrences of a substring
  // ---------------------------------------------------------------------

  /** `s.startswith(p)` */
  predicate StartsWith(s: string, p: string) {
    |p| <= |s| && s[..|p|] == p
  }

  /** `s.endswith(p)` */
  predicate EndsWith(s: string, p: string) {
    |p| <= |s| && s[|s| - |p|..] == p
  }

  /** `sub` occurs in `s` starting at index `i`. */
  predicate OccursAt(s: string, sub: string, i: nat) {
    i + |sub| <= |s| && s[i..i + |sub|] == sub
  }

  /** `sub in s` */
  predicate Contains(s: string, sub: string) {
    exists i: nat | i <= |s| :: OccursAt(s, sub, i)
  }

  /** An occurrence inside a suffix is an occurrence in the whole string. */
  lemma OccursInSuffix(s: string, sub: string, m: nat, j: nat)
    requires m <= |s| && OccursAt(s[m..], sub, j)
    ensures OccursAt(s, sub, m + j)
  {
    assert s[m..][j..j + |sub|] == s[m + j..m + j + |sub|];
  }

  /** An occurrence inside a prefix is an occurrence in the whole string. */
  lemma OccursInPrefix(s: string, sub: string, m: nat, j: nat)
    requires m <= |s| && OccursAt(s[..m], sub, j)
    ensures OccursAt(s, sub, j)
  {
    assert s[..m][j..j + |sub|] == s[j..j + |sub|];
  }

  /** A one-character substring occurs exactly where that character is. */
  lemma OccursAtChar(s: string, c: char, i: nat)
    ensures OccursAt(s, [c], i) <==> i < |s| && s[i] == c
  {
    if i < |s| {
      assert s[i..i + 1] == [s[i]];
    }
  }

  /** A one-character substring is contained exactly when the character is. */
  lemma ContainsChar(s: string, c: char)
    ensures Contains(s, [c]) <==> c in s
  {
    if c in s {
      var i :| 0 <= i < |s| && s[i] == c;
      OccursAtChar(s, c, i);
    }
    if Contains(s, [c]) {
      var i: nat :| OccursAt(s, [c], i);
      OccursAtChar(s, c, i);
    }
  }

  /** First index `>= k` where `sub` occurs (`s.find(sub, k)`). */
  function IndexFrom(s: string, sub: string, k: nat): (r: Option<nat>)
    requires |sub| > 0 && k <= |s|
    ensures r.Some? ==> k <= r.value && OccursAt(s, sub, r.value)
    ensures r.Some? ==> forall j: nat :: k <= j < r.value ==> !OccursAt(s, sub, j)
    ensures r.None? ==> forall j: nat :: k <= j ==> !OccursAt(s, sub, j)
    decreases |s| - k
  {
    if k + |sub| > |s| then None
    else if OccursAt(s, sub, k) then Some(k)
    else IndexFrom(s, sub, k + 1)
  }

  /** First index where `sub` occurs (`s.find(sub)`), if any. */
  function IndexOf(s: string, sub: string): (r: Option<nat>)
    requires |sub| > 0
    ensures r.Some? ==> OccursAt(s, sub, r.value)
    ensures r.Some? ==> forall j: nat :: j < r.value ==> !OccursAt(s, sub, j)
    ensures r.None? <==> !Contains(s, sub)
  {
    IndexFrom(s, sub, 0)
  }

  /** Last index `< k` where `sub` occurs. */
  function LastIndexBelow(s: string, sub: string, k: nat): (r: Option<nat>)
    requires |sub| > 0
    ensures r.Some? ==> r.value < k && OccursAt(s, sub, r.value)
    ensures r.Some? ==> forall j: nat :: r.value < j < k ==> !OccursAt(s, sub, j)
    ensures r.None? ==> forall j: nat :: j < k ==> !OccursAt(s, sub, j)
  {
    if k == 0 then None
    else if OccursAt(s, sub, k - 1) then Some(k - 1)
    else LastIndexBelow(s, sub, k - 1)
  }

  /** Last index where `sub` occurs (`s.rfind(sub)`), if any. */
  function LastIndexOf(s: string, sub: string): (r: Option<nat>)
    requires |sub| > 0
    ensures r.Some? ==> OccursAt(s, sub, r.value)
    ensures r.Some? ==> forall j: nat :: r.value < j ==> !OccursAt(s, sub, j)
    ensures r.None? <==> !Contains(s, sub)
  {
    LastIndexBelow(s, sub, |s| + 1)
  }

  // ---------------------------------------------------------------------
  // rpartition, split, join
  // ---------------------------------------------------------------------

  /** `s.rpartition(sep)`: `(head, sep, tail)` around the last occurrence of
      `sep`, or `("", "", s)` when `sep` does not occur. */
  function RPartition(s: string, sep: string): (r: (string, string, string))
    requires |sep| > 0
    ensures r.0 + r.1 + r.2 == s
    ensures r.1 == sep || r.1 == ""
    ensures r.1 == "" <==> !Contains(s, sep)
    ensures r.1 == "" ==> r.0 == "" && r.2 == s
    ensures !Contains(r.2, sep)
  {
    match LastIndexOf(s, sep)
    case None => ("", "", s)
    case Some(i) =>
      var tail := s[i + |sep|..];
      assert s == s[..i] + sep + tail;
      assert !Contains(tail, sep) by {
        forall j: nat | OccursAt(tail, sep, j) ensures false {
          OccursInSuffix(s, sep, i + |sep|, j);
        }
      }
      (s[..i], sep, tail)
  }

  /** The separator is found where it was put when the text after it cannot
      hold the separator's last character. */
  lemma RPartitionAt(a: string, sep: string, b: string)
    requires |sep| > 0 && sep[|sep| - 1] !in b
    ensures RPartition(a + sep + b, sep) == (a, sep, b)
  {
    var s := a + sep + b;
    assert OccursAt(s, sep, |a|);
    var r := LastIndexOf(s, sep);
    assert r.Some?;
    assert r.value == |a|;
    assert s[..|a|] == a && s[|a| + |sep|..] == b;
  }

  /** `s.split(sep)` for a non-empty separator: the pieces between the
      non-overlapping occurrences of `sep`, read left to right. */
  function Split(s: string, sep: string): (r: seq<string>)
    requires |sep| > 0
    ensures |r| >= 1
    decreases |s|
  {
    match IndexOf(s, sep)
    case None => [s]
    case Some(i) => [s[..i]] + Split(s[i + |sep|..], sep)
  }

  /** `sep.join(parts)` */
  function Join(parts: seq<string>, sep: string): string {
    if |parts| == 0 then ""
    else if |parts| == 1 then parts[0]
    else parts[0] + sep + Join(parts[1..], sep)
  }

  /** Every part occurs in the joined string. */
  lemma {:induction false} JoinContainsParts(parts: seq<string>, sep: string)
    ensures forall k :: 0 <= k < |parts| ==> Contains(Join(parts, sep), parts[k])
  {
    if |parts| == 1 {
      assert OccursAt(parts[0], parts[0], 0);
    } else if |parts| > 1 {
      var s := Join(parts, sep);
      var m := |parts[0]| + |sep|;
      assert s == parts[0] + sep + Join(parts[1..], sep);
      JoinContainsParts(parts[1..], sep);
      assert s[..|parts[0]|] == parts[0];
      assert OccursAt(s, parts[0], 0);
      assert s[m..] == Join(parts[1..], sep);
      forall k | 1 <= k < |parts| ensures Contains(s, parts[k]) {
        assert parts[k] == parts[1..][k - 1];
        var j: nat :| j <= |s[m..]| && OccursAt(s[m..], parts[k], j);
        OccursInSuffix(s, parts[k], m, j);
      }
    }
  }

  /** Joining the pieces of a split gives back the string. */
  lemma {:induction false} JoinSplit(s: string, sep: string)
    requires |sep| > 0
    ensures Join(Split(s, sep), sep) == s
    decreases |s|
  {
    var r := IndexOf(s, sep);
    if r.Some? {
      var i := r.value;
      var rest := s[i + |sep|..];
      assert Split(s, sep) == [s[..i]] + Split(rest, sep);
      JoinSplit(rest, sep);
      JoinCons(s[..i], Split(rest, sep), sep);
      assert OccursAt(s, sep, i);
      Reassemble(s, i, i + |sep|);
    }
  }

  /** A string is the concatenation of its three slices around `i` and `j`. */
  lemma Reassemble(s: string, i: nat, j: nat)
    requires i <= j <= |s|
    ensures s == s[..i] + s[i..j] + s[j..]
  {
  }

  /** Joining a first piece in front of a non-empty list of pieces. */
  lemma JoinCons(head: string, tail: seq<string>, sep: string)
    requires |tail| >= 1
    ensures Join([head] + tail, sep) == head + sep + Join(tail, sep)
  {
    assert ([head] + tail)[1..] == tail;
  }

  /** The first occurrence of `c` in `a + [c] + b` is right after `a` when `a` does not contain `c`. */
  lemma IndexOfCharAfter(a: string, c: char, b: string)
    requires c !in a
    ensures IndexOf(a + [c] + b, [c]) == Some(|a|)
  {
    var s := a + [c] + b;
    OccursAtChar(s, c, |a|);
    forall j: nat | j < |a| ensures !OccursAt(s, [c], j) {
      OccursAtChar(s, c, j);
      assert s[j] == a[j];
    }
    assert Contains(s, [c]);
    var r := IndexOf(s, [c]);
    assert r.Some?;
    assert r.value <= |a|;
  }

  /** Splitting on a one-character separator undoes a join of pieces that do not contain it. */
  lemma {:induction false} SplitJoinChar(parts: seq<string>, c: char)
    requires |parts| >= 1
    requires forall k :: 0 <= k < |parts| ==> c !in parts[k]
    ensures Split(Join(parts, [c]), [c]) == parts
    decreases |parts|
  {
    if |parts| == 1 {
      ContainsChar(parts[0], c);
    } else {
      var rest := Join(parts[1..], [c]);
      SplitAfterChar(parts[0], c, rest);
      SplitJoinChar(parts[1..], c);
      assert parts == [parts[0]] + parts[1..];
    }
  }

  /** Splitting at the first separator character. */
  lemma SplitAfterChar(a: string, c: char, b: string)
    requires c !in a
    ensures Split(a + [c] + b, [c]) == [a] + Split(b, [c])
  {
    var s := a + [c] + b;
    IndexOfCharAfter(a, c, b);
    assert s[..|a|] == a;
    assert s[|a| + 1..] == b;
  }

  // ---------------------------------------------------------------------
  // replace
  // ---------------------------------------------------------------------

  /** `s.replace(pat, repl)` for a non-empty `pat`: every non-overlapping
      occurrence, read left to right, is replaced. */
  function ReplaceNonEmpty(s: string, pat: string, repl: string): string
    requires |pat| > 0
    decreases |s|
  {
    if s == [] then []
    else if StartsWith(s, pat) then repl + ReplaceNonEmpty(s[|pat|..], pat, repl)
    else [s[0]] + ReplaceNonEmpty(s[1..], pat, repl)
  }

  /** An occurrence at the start is replaced, and the rest is scanned after it. */
  lemma ReplaceLeading(pat: string, rest: string, repl: string)
    requires |pat| > 0
    ensures Replace(pat + rest, pat, repl) == repl + Replace(rest, pat, repl)
  {
    assert StartsWith(pat + rest, pat);
    assert (pat + rest)[|pat|..] == rest;
  }

  /** Characters before an occurrence are kept as long as none of them can
      start one, so an occurrence in the middle is replaced too. */
  lemma {:induction false} ReplaceAfterPlain(head: string, pat: string, rest: string, repl: string)
    requires |pat| > 0 && pat[0] !in head
    ensures Replace(head + pat + rest, pat, repl) == head + repl + Replace(rest, pat, repl)
    decreases |head|
  {
    if head == [] {
      assert head + pat + rest == pat + rest;
      ReplaceLeading(pat, rest, repl);
    } else {
      var s := head + pat + rest;
      var shorter := head[1..] + pat + rest;
      var tail := Replace(rest, pat, repl);
      assert s == [head[0]] + shorter;
      assert s[1..] == shorter;
      assert !StartsWith(s, pat) by {
        assert s[..|pat|][0] == head[0] != pat[0];
      }
      ReplaceAfterPlain(head[1..], pat, rest, repl);
      calc {
        Replace(s, pat, repl);
        ReplaceNonEmpty(s, pat, repl);
        [head[0]] + ReplaceNonEmpty(shorter, pat, repl);
        [head[0]] + Replace(shorter, pat, repl);
        [head[0]] + (head[1..] + repl + tail);
        { assert head == [head[0]] + head[1..]; }
        head + repl + tail;
      }
    }
  }

  /** `pat` does not occur in `a + b` when it does not occur in `b` and no
      character of `a` can start it. */
  lemma NotContainsConcat(a: string, b: string, pat: string)
    requires |pat| > 0 && pat[0] !in a && !Contains(b, pat)
    ensures !Contains(a + b, pat)
  {
    var s := a + b;
    forall i: nat | i <= |s| ensures !OccursAt(s, pat, i) {
      if i + |pat| <= |s| {
        if i < |a| {
          assert s[i..i + |pat|][0] == a[i];
        } else {
          assert s[i..i + |pat|] == b[i - |a|..i - |a| + |pat|];
          assert !OccursAt(b, pat, i - |a|);
        }
      }
    }
  }

  /** A string lacking one of the characters of `pat` does not contain it. */
  lemma MissingCharNotContains(s: string, pat: string, c: char)
    requires c in pat && c !in s
    ensures !Contains(s, pat)
  {
    var k :| 0 <= k < |pat| && pat[k] == c;
    forall i: nat | i <= |s| ensures !OccursAt(s, pat, i) {
      if i + |pat| <= |s| {
        assert s[i..i + |pat|][k] == s[i + k] != c;
      }
    }
  }

  /** `s.replace("", repl)`: `repl` is inserted before every character and at the end. */
  function Interleave(s: string, repl: string): string {
    if s == [] then repl else repl + [s[0]] + Interleave(s[1..], repl)
  }

  /** `s.replace(pat, repl)` */
  function Replace(s: string, pat: string, repl: string): string {
    if pat == [] then Interleave(s, repl) else ReplaceNonEmpty(s, pat, repl)
  }

  /** A string in which `pat` does not occur is left unchanged by `replace`. */
  lemma {:induction false} ReplaceAbsent(s: string, pat: string, repl: string)
    requires |pat| > 0 && !Contains(s, pat)
    ensures Replace(s, pat, repl) == s
    decreases |s|
  {
    if s != [] {
      assert !StartsWith(s, pat) by {
        if StartsWith(s, pat) { assert OccursAt(s, pat, 0); }
      }
      assert !Contains(s[1..], pat) by {
        forall j: nat | OccursAt(s[1..], pat, j) ensures false {
          OccursInSuffix(s, pat, 1, j);
        }
      }
      ReplaceAbsent(s[1..], pat, repl);
      assert s == [s[0]] + s[1..];
    }
  }

  /** Replacing an empty string by the empty string changes nothing. */
  lemma {:induction false} InterleaveEmpty(s: string)
    ensures Replace(s, "", "") == s
  {
    if s != [] {
      InterleaveEmpty(s[1..]);
      assert s == [s[0]] + s[1..];
    }
  }

  /** Removing a one-character string removes every occurrence of that character
      and keeps every other character in order. */
  lemma {:induction false} RemoveCharAll(s: string, c: char)
    ensures c !in Replace(s, [c], "")
    ensures |Replace(s, [c], "")| <= |s|
    ensures Replace(s, [c], "") == Filter(s, c)
    decreases |s|
  {
    if s != [] {
      RemoveCharAll(s[1..], c);
      assert StartsWith(s, [c]) <==> s[0] == c;
    }
  }

  /** The characters of `s` other than `c`, in order. */
  function Filter(s: string, c: char): string {
    if s == [] then [] else (if s[0] == c then [] else [s[0]]) + Filter(s[1..], c)
  }

  /** Filtering adds no character. */
  lemma {:induction false} FilterKeepsAbsent(s: string, c: char, d: char)
    requires d !in s
    ensures d !in Filter(s, c)
    decreases |s|
  {
    if s != [] {
      FilterKeepsAbsent(s[1..], c, d);
    }
  }

  // ---------------------------------------------------------------------
  // Case
  // ---------------------------------------------------------------------

  function LowerChar(c: char): char {
    if 'A' <= c <= 'Z' then (c as int + 32) as char else c
  }

  function UpperChar(c: char): char {
    if 'a' <= c <= 'z' then (c as int - 32) as char else c
  }

  /** `s.lower()` */
  function Lower(s: string): (r: string)
    ensures |r| == |s|
    ensures forall i :: 0 <= i < |s| ==> r[i] == LowerChar(s[i])
  {
    seq(|s|, i requires 0 <= i < |s| => LowerChar(s[i]))
  }

  /** `s.capitalize()`: the first character upper-cased, the rest lower-cased. */
  function Capitalize(s: string): (r: string)
    ensures |r| == |s|
    ensures |s| > 0 ==> r[0] == UpperChar(s[0]) && r[1..] == Lower(s[1..])
  {
    if s == [] then [] else [UpperChar(s[0])] + Lower(s[1..])
  }

  /** Lower-casing keeps exactly the characters that are not letters, so it
      neither introduces nor removes separators such as '_' and '.'. */
  lemma LowerKeepsSeparator(s: string, c: char)
    requires !('A' <= c <= 'Z') && !('a' <= c <= 'z')
    ensures c in Lower(s) <==> c in s
  {
    var r := Lower(s);
    if c in r {
      var i :| 0 <= i < |r| && r[i] == c;
      assert s[i] == c;
    }
    if c in s {
      var i :| 0 <= i < |s| && s[i] == c;
      assert r[i] == c;
    }
  }

  // ---------------------------------------------------------------------
  // Decimal numerals: str(n) and int(s)
  // ---------------------------------------------------------------------

  predicate IsDigit(c: char) {
    '0' <= c <= '9'
  }

  predicate AllDigits(s: string) {
    forall i :: 0 <= i < |s| ==> IsDigit(s[i])
  }

  function DigitChar(d: nat): (c: char)
    requires d < 10
    ensures IsDigit(c)
  {
    ('0' as int + d) as char
  }

  function DigitValue(c: char): (d: nat)
    requires IsDigit(c)
    ensures d < 10 && DigitChar(d) == c
  {
    c as int - '0' as int
  }

  /** `str(n)` / `"%d" % n` for a non-negative integer. */
  function NatToString(n: nat): (r: string)
    ensures |r| >= 1 && AllDigits(r)
    decreases n
  {
    if n < 10 then [DigitChar(n)] else NatToString(n / 10) + [DigitChar(n % 10)]
  }

  /** `str(i)` for any integer. */
  function IntToString(i: int): string {
    if i < 0 then "-" + NatToString(-i) else NatToString(i)
  }

  /** The value of a string of decimal digits. */
  function DigitsValue(s: string): nat
    requires AllDigits(s)
  {
    if s == [] then 0 else DigitsValue(s[..|s| - 1]) * 10 + DigitValue(s[|s| - 1])
  }

  /** `int(s)` restricted to unsigned decimal numerals: `None` stands for the `ValueError`. */
  function ParseNat(s: string): (r: Option<nat>)
    ensures r.Some? <==> |s| > 0 && AllDigits(s)
  {
    if |s| > 0 && AllDigits(s) then Some(DigitsValue(s)) else None
  }

  /** `int(str(n)) == n` */
  lemma {:induction false} ParseNatToString(n: nat)
    ensures ParseNat(NatToString(n)) == Some(n)
    decreases n
  {
    var s := NatToString(n);
    if n >= 10 {
      ParseNatToString(n / 10);
      var prefix := NatToString(n / 10);
      assert s == prefix + [DigitChar(n % 10)];
      assert s[..|s| - 1] == prefix;
      assert DigitsValue(prefix) == n / 10;
      assert DigitsValue(s) == (n / 10) * 10 + n % 10;
    }
  }

  /** A decimal numeral contains no separator character. */
  lemma DigitsHaveNo(s: string, c: char)
    requires AllDigits(s) && !IsDigit(c)
    ensures c !in s
  {
  }
}
