/**
 * The Go standard-library string operations that the core relies on
 * (`strings.Index`, `strings.LastIndex`, `strings.ReplaceAll`,
 * `strings.TrimSpace`, `strings.EqualFold` against "y", and the byte-wise
 * ordering `<` on strings), each given the contract Go documents for it.
 * Strings are sequences of Unicode scalar values; since UTF-8 preserves
 * code-point order, comparing code points agrees with Go's byte comparison.
 */
module GoStrings {

  /** `sub` occurs in `s` starting at index `i`. */
  predicate OccursAt(s: string, sub: string, i: int)
  {
    0 <= i && i + |sub| <= |s| && s[i..i + |sub|] == sub
  }

  /** strings.Index: the first index at which `sub` occurs in `s`, or -1. */
  function Index(s: string, sub: string): int
  {
    IndexFrom(s, sub, 0)
  }

  /** Search upwards from `k`. */
  function IndexFrom(s: string, sub: string, k: nat): int
    decreases |s| + 1 - k
  {
    if k + |sub| > |s| then -1
    else if s[k..k + |sub|] == sub then k
    else IndexFrom(s, sub, k + 1)
  }

  /** Index finds the first occurrence, and -1 means there is none. */
  lemma IndexSpec(s: string, sub: string)
    ensures var r := Index(s, sub);
      && (r == -1 <==> forall i :: !OccursAt(s, sub, i))
      && (r != -1 ==> OccursAt(s, sub, r) && forall i :: 0 <= i < r ==> !OccursAt(s, sub, i))
  {
    IndexFromSpec(s, sub, 0);
  }

  lemma {:induction false} IndexFromSpec(s: string, sub: string, k: nat)
    requires forall i :: 0 <= i < k ==> !OccursAt(s, sub, i)
    ensures var r := IndexFrom(s, sub, k);
      && (r == -1 <==> forall i :: !OccursAt(s, sub, i))
      && (r != -1 ==> OccursAt(s, sub, r) && forall i :: 0 <= i < r ==> !OccursAt(s, sub, i))
    decreases |s| + 1 - k
  {
    if k + |sub| > |s| {
    } else if s[k..k + |sub|] == sub {
      assert OccursAt(s, sub, k);
    } else {
      IndexFromSpec(s, sub, k + 1);
    }
  }

  /** strings.LastIndex: the last index at which `sub` occurs in `s`, or -1. */
  function LastIndex(s: string, sub: string): int
  {
    if |sub| > |s| then -1 else LastIndexFrom(s, sub, |s| - |sub|)
  }

  /** Search downwards from `k`. */
  function LastIndexFrom(s: string, sub: string, k: int): int
    requires k + |sub| <= |s|
    decreases k + 1
  {
    if k < 0 then -1
    else if s[k..k + |sub|] == sub then k
    else LastIndexFrom(s, sub, k - 1)
  }

  /** LastIndex finds the last occurrence, and -1 means there is none. */
  lemma LastIndexSpec(s: string, sub: string)
    ensures var r := LastIndex(s, sub);
      && (r == -1 <==> forall i :: !OccursAt(s, sub, i))
      && (r != -1 ==> OccursAt(s, sub, r) && forall i :: r < i ==> !OccursAt(s, sub, i))
  {
    if |sub| <= |s| {
      LastIndexFromSpec(s, sub, |s| - |sub|);
    }
  }

  lemma {:induction false} LastIndexFromSpec(s: string, sub: string, k: int)
    requires -1 <= k && k + |sub| <= |s|
    requires forall i :: k < i ==> !OccursAt(s, sub, i)
    ensures var r := LastIndexFrom(s, sub, k);
      && (r == -1 <==> forall i :: !OccursAt(s, sub, i))
      && (r != -1 ==> OccursAt(s, sub, r) && forall i :: r < i ==> !OccursAt(s, sub, i))
    decreases k + 1
  {
    if k < 0 {
    } else if s[k..k + |sub|] == sub {
      assert OccursAt(s, sub, k);
    } else {
      LastIndexFromSpec(s, sub, k - 1);
    }
  }

  /**
   * strings.ReplaceAll for a non-empty `pattern`: scanning left to right,
   * every non-overlapping occurrence of `pattern` is replaced by `repl`.
   */
  function ReplaceAll(s: string, pattern: string, repl: string): string
    requires pattern != ""
    decreases |s|
  {
    if s == [] then []
    else if OccursAt(s, pattern, 0) then repl + ReplaceAll(s[|pattern|..], pattern, repl)
    else [s[0]] + ReplaceAll(s[1..], pattern, repl)
  }

  /** Deleting a one-character string removes every copy of it and keeps every other character, in order. */
  lemma {:induction false} ReplaceAllDeletesChar(s: string, c: char)
    ensures c !in ReplaceAll(s, [c], "")
    ensures ReplaceAll(s, [c], "") == Without(s, c)
    decreases |s|
  {
    if s != [] {
      ReplaceAllDeletesChar(s[1..], c);
      if OccursAt(s, [c], 0) {
        assert s[0] == c;
      } else {
        assert s[0..1] == [s[0]];
      }
    }
  }

  /** `s` with every copy of `c` left out: the reference definition for deleting a character. */
  function Without(s: string, c: char): (r: string)
    ensures c !in r
    ensures |r| <= |s|
    ensures forall x :: x != c ==> multiset(r)[x] == multiset(s)[x]
  {
    if s == [] then []
    else
      assert s == [s[0]] + s[1..];
      if s[0] == c then Without(s[1..], c) else [s[0]] + Without(s[1..], c)
  }

  /** unicode.IsSpace, Go's definition of white space. */
  predicate IsSpace(c: char)
  {
    c == ' ' || c == '\t' || c == '\n' || c == '\U{000B}' || c == '\U{000C}' || c == '\r'
    || c == '\U{0085}' || c == '\U{00A0}' || c == '\U{1680}'
    || ('\U{2000}' <= c <= '\U{200A}')
    || c == '\U{2028}' || c == '\U{2029}' || c == '\U{202F}' || c == '\U{205F}' || c == '\U{3000}'
  }

  /** Drop leading white space: the result is a suffix of `s` and `s` only loses spaces. */
  function TrimLeft(s: string): (r: string)
    ensures |r| <= |s| && r == s[|s| - |r|..]
    ensures forall k :: 0 <= k < |s| - |r| ==> IsSpace(s[k])
    ensures r != [] ==> !IsSpace(r[0])
  {
    if s != [] && IsSpace(s[0]) then TrimLeft(s[1..]) else s
  }

  /** Drop trailing white space: the result is a prefix of `s` and `s` only loses spaces. */
  function TrimRight(s: string): (r: string)
    ensures |r| <= |s| && r == s[..|r|]
    ensures forall k :: |r| <= k < |s| ==> IsSpace(s[k])
    ensures r != [] ==> !IsSpace(r[|r| - 1])
  {
    if s != [] && IsSpace(s[|s| - 1]) then TrimRight(s[..|s| - 1]) else s
  }

  /** strings.TrimSpace: `s` minus its leading and trailing white space. */
  function TrimSpace(s: string): string
  {
    TrimRight(TrimLeft(s))
  }

  /**
   * TrimSpace returns the slice `s[i..j]` such that everything outside it is
   * white space, and the result neither starts nor ends with white space.
   */
  lemma TrimSpaceSpec(s: string)
    ensures var r := TrimSpace(s);
      && (exists i, j :: SpaceAround(s, i, j) && r == s[i..j])
      && (r != [] ==> !IsSpace(r[0]) && !IsSpace(r[|r| - 1]))
  {
    var left := TrimLeft(s);
    var r := TrimRight(left);
    var i := |s| - |left|;
    var j := i + |r|;
    assert r == s[i..j] by {
      assert left == s[i..] && r == left[..|r|];
      assert s[i..][..|r|] == s[i..j];
    }
    forall k | j <= k < |s| ensures IsSpace(s[k]) {
      assert s[k] == left[k - i];
    }
    assert SpaceAround(s, i, j);
  }

  /** Trimming only drops characters: whatever TrimSpace returns was in its input. */
  lemma TrimSpaceKeeps(s: string, x: char)
    ensures x in TrimSpace(s) ==> x in s
  {
    var left := TrimLeft(s);
    var r := TrimRight(left);
    if x in r {
      var k :| 0 <= k < |r| && r[k] == x;
      assert left[k] == x;
      assert s[|s| - |left| + k] == x;
    }
  }

  /** `s[i..j]` is a slice of `s` with only white space before and after it. */
  predicate SpaceAround(s: string, i: int, j: int)
  {
    && 0 <= i <= j <= |s|
    && (forall k :: 0 <= k < i ==> IsSpace(s[k]))
    && (forall k :: j <= k < |s| ==> IsSpace(s[k]))
  }

  /** Case folding of the ASCII letters: a capital folds to its small letter, anything else to itself. */
  function FoldAscii(c: char): char
  {
    if 'A' <= c <= 'Z' then (c as int + 32) as char else c
  }

  /**
   * strings.EqualFold(input, "y"): `input` is one character that folds to
   * "y". Under Unicode simple case folding only "y" and "Y" fold to "y", so
   * folding the ASCII letters is enough.
   */
  function EqualFoldY(input: string): (r: bool)
    ensures r <==> |input| == 1 && FoldAscii(input[0]) == 'y'
  {
    input == "y" || input == "Y"
  }

  /** Go's `<` on strings: lexicographic comparison, shorter prefix first. */
  predicate Less(a: string, b: string)
  {
    if a == [] then b != []
    else if b == [] then false
    else a[0] < b[0] || (a[0] == b[0] && Less(a[1..], b[1..]))
  }

  lemma {:induction false} LessIrreflexive(a: string)
    ensures !Less(a, a)
  {
    if a != [] { LessIrreflexive(a[1..]); }
  }

  lemma {:induction false} LessTransitive(a: string, b: string, c: string)
    requires Less(a, b) && Less(b, c)
    ensures Less(a, c)
  {
    if a != [] && b != [] && c != [] && a[0] == b[0] == c[0] {
      LessTransitive(a[1..], b[1..], c[1..]);
    }
  }

  /** Distinct strings are always ordered one way or the other. */
  lemma {:induction false} LessTotal(a: string, b: string)
    requires a != b
    ensures Less(a, b) || Less(b, a)
  {
    if a != [] && b != [] && a[0] == b[0] {
      assert a == [a[0]] + a[1..] && b == [b[0]] + b[1..];
      LessTotal(a[1..], b[1..]);
    }
  }

  lemma {:induction false} LessAsymmetric(a: string, b: string)
    requires Less(a, b)
    ensures !Less(b, a)
  {
    if a != [] && b != [] && a[0] == b[0] {
      LessAsymmetric(a[1..], b[1..]);
    }
  }
}
