/**
 * `checkUsername` and `USERNAME_PATTERN` of the user controller.
 *
 * The source matches `'/^' . '[0-9a-zA-Z]|[0-9a-zA-Z_]{2,38}' . '$/'`. With no
 * group around the alternation, PCRE reads this as two independent
 * alternatives, `^[0-9a-zA-Z]` and `[0-9a-zA-Z_]{2,38}$`, and `preg_match`
 * succeeds if either matches anywhere in the subject. Without the `D`
 * modifier, `$` also matches just before one final "\n".
 */
module Username {
  import PhpStrings

  const MinRun := 2
  const MaxRun := 38

  /** `[0-9a-zA-Z]` */
  predicate IsAlnum(c: char) {
    '0' <= c <= '9' || 'a' <= c <= 'z' || 'A' <= c <= 'Z'
  }

  /** `[0-9a-zA-Z_]` */
  predicate IsWordChar(c: char) {
    IsAlnum(c) || c == '_'
  }

  // ---------------------------------------------------------------------
  // What the regular expression means, written as PCRE search semantics
  // ---------------------------------------------------------------------

  /** PCRE `$` (no `m`, no `D` modifier) at position `p`. */
  predicate EndAnchorAt(s: string, p: nat) {
    p == |s| || (p == |s| - 1 && s[p] == '\n')
  }

  /** `^[0-9a-zA-Z]` matches starting at `p`. */
  predicate FirstAlternativeAt(s: string, p: nat) {
    p == 0 && |s| >= 1 && IsAlnum(s[0])
  }

  /** `[0-9a-zA-Z_]{n}$` matches starting at `p`, for one repetition count `n`. */
  predicate WordRunAt(s: string, p: nat, n: nat) {
    MinRun <= n <= MaxRun && p + n <= |s| &&
    (forall i :: p <= i < p + n ==> IsWordChar(s[i])) &&
    EndAnchorAt(s, p + n)
  }

  /** `[0-9a-zA-Z_]{2,38}$` matches starting at `p`. */
  ghost predicate SecondAlternativeAt(s: string, p: nat) {
    exists n: nat :: WordRunAt(s, p, n)
  }

  /** `preg_match('/^[0-9a-zA-Z]|[0-9a-zA-Z_]{2,38}$/', s) === 1`. */
  ghost predicate PatternMatches(s: string) {
    exists p: nat :: p <= |s| && (FirstAlternativeAt(s, p) || SecondAlternativeAt(s, p))
  }

  // ---------------------------------------------------------------------
  // The executable check
  // ---------------------------------------------------------------------

  /** The subject ends with two word characters, possibly followed by a final "\n". */
  predicate EndsWithWordPair(s: string) {
    (|s| >= 2 && IsWordChar(s[|s| - 2]) && IsWordChar(s[|s| - 1])) ||
    (|s| >= 3 && s[|s| - 1] == '\n' && IsWordChar(s[|s| - 3]) && IsWordChar(s[|s| - 2]))
  }

  /** `checkUsername` as the code computes it. */
  predicate CheckUsername(s: string) {
    (|s| >= 1 && IsAlnum(s[0])) || EndsWithWordPair(s)
  }

  /** The executable check accepts exactly the subjects the pattern matches. */
  lemma CheckUsernameIsPatternSearch(s: string)
    ensures CheckUsername(s) <==> PatternMatches(s)
  {
    if |s| >= 1 && IsAlnum(s[0]) {
      assert FirstAlternativeAt(s, 0);
    } else if |s| >= 2 && IsWordChar(s[|s| - 2]) && IsWordChar(s[|s| - 1]) {
      assert WordRunAt(s, |s| - 2, 2);
      assert SecondAlternativeAt(s, |s| - 2);
    } else if |s| >= 3 && s[|s| - 1] == '\n' && IsWordChar(s[|s| - 3]) && IsWordChar(s[|s| - 2]) {
      assert WordRunAt(s, |s| - 3, 2);
      assert SecondAlternativeAt(s, |s| - 3);
    }
    if PatternMatches(s) && !(|s| >= 1 && IsAlnum(s[0])) {
      var p: nat :| p <= |s| && (FirstAlternativeAt(s, p) || SecondAlternativeAt(s, p));
      var n: nat :| WordRunAt(s, p, n);
      assert IsWordChar(s[p + n - 2]) && IsWordChar(s[p + n - 1]);
      if p + n == |s| {
        assert EndsWithWordPair(s);
      } else {
        assert p + n == |s| - 1 && s[|s| - 1] == '\n';
        assert EndsWithWordPair(s);
      }
    }
  }

  // ---------------------------------------------------------------------
  // What the `^…$` wrapping evidently aims at: a full-string match
  // ---------------------------------------------------------------------

  /**
   * `^(?:[0-9a-zA-Z]|[0-9a-zA-Z_]{2,38})$` without the trailing-newline
   * allowance: one alphanumeric, or 2 to 38 word characters and nothing else.
   */
  predicate IntendedUsername(s: string) {
    (|s| == 1 && IsAlnum(s[0])) ||
    (MinRun <= |s| <= MaxRun && forall i :: 0 <= i < |s| ==> IsWordChar(s[i]))
  }

  /** Every name the intended language admits, the pattern as written admits too. */
  lemma IntendedImpliesPatternMatches(s: string)
    requires IntendedUsername(s)
    ensures PatternMatches(s)
  {
    if |s| == 1 && IsAlnum(s[0]) {
      assert FirstAlternativeAt(s, 0);
    } else {
      assert WordRunAt(s, 0, |s|);
      assert SecondAlternativeAt(s, 0);
    }
  }

  /** Hence every intended name passes `checkUsername`. */
  lemma IntendedImpliesAccepted(s: string)
    requires IntendedUsername(s)
    ensures CheckUsername(s)
  {
  }

  /** The converse fails: names with spaces, dots and slashes get through. */
  lemma AcceptedButNotIntended()
    ensures CheckUsername("a b") && !IntendedUsername("a b")
    ensures CheckUsername("../x_y") && !IntendedUsername("../x_y")
    ensures CheckUsername("ab\n") && !IntendedUsername("ab\n")
    ensures CheckUsername("a /") && !IntendedUsername("a /")
  {
    assert !IsWordChar("a b"[1]);
    assert !IsWordChar("../x_y"[0]);
    assert !IsWordChar("ab\n"[2]);
    assert !IsWordChar("a /"[1]);
  }

  /** Names both readings agree on. */
  lemma CheckUsernameExamples()
    ensures !CheckUsername("") && !CheckUsername("_")
    ensures CheckUsername("_ab") && CheckUsername("ab") && CheckUsername("a")
    ensures !CheckUsername("_\n") && !CheckUsername("-")
  {
  }

  /** A single character is accepted exactly when it is alphanumeric. */
  lemma SingleCharacterNames(c: char)
    ensures CheckUsername([c]) <==> IsAlnum(c)
  {
  }

  /** Whether a name is accepted does not depend on the case of its letters. */
  lemma CheckUsernameIgnoresCase(a: string, b: string)
    requires PhpStrings.Upper(a) == PhpStrings.Upper(b)
    ensures CheckUsername(a) <==> CheckUsername(b)
  {
    assert |a| == |PhpStrings.Upper(a)| == |b|;
    forall i | 0 <= i < |a|
      ensures IsAlnum(a[i]) == IsAlnum(b[i]) && IsWordChar(a[i]) == IsWordChar(b[i])
      ensures (a[i] == '\n') == (b[i] == '\n')
    {
      assert PhpStrings.UpperChar(a[i]) == PhpStrings.Upper(a)[i] == PhpStrings.Upper(b)[i] == PhpStrings.UpperChar(b[i]);
    }
  }
}
