/**
 * The few PHP string primitives the controller relies on, restricted to what
 * they do on byte strings: `strtoupper`, `strcasecmp` (both ASCII-only, as in
 * PHP 8.2 and later) and the truthiness of a string used by `empty()` and `!$x`.
 */
module PhpStrings {

  function UpperChar(c: char): char {
    if 'a' <= c <= 'z' then (c as int - 32) as char else c
  }

  function LowerChar(c: char): char {
    if 'A' <= c <= 'Z' then (c as int + 32) as char else c
  }

  /** `strtoupper`: every ASCII lower-case letter raised, everything else kept. */
  function Upper(s: string): string {
    seq(|s|, i requires 0 <= i < |s| => UpperChar(s[i]))
  }

  /** The lower-casing `strcasecmp` compares by. */
  function Lower(s: string): string {
    seq(|s|, i requires 0 <= i < |s| => LowerChar(s[i]))
  }

  /** `strcasecmp(a, b) === 0`. */
  predicate CaseEqual(a: string, b: string) {
    Lower(a) == Lower(b)
  }

  /** A string PHP reads as false: the empty string and "0". */
  predicate Falsy(s: string) {
    s == "" || s == "0"
  }

  /** Two characters raise to the same one exactly when they lower to the same one. */
  lemma UpperCharIffLowerChar(a: char, b: char)
    ensures UpperChar(a) == UpperChar(b) <==> LowerChar(a) == LowerChar(b)
  {
  }

  /**
   * The duplicate test of account creation (`strtoupper` on both sides) and
   * the default-account test of deletion (`strcasecmp`) agree: they identify
   * exactly the same pairs of names.
   */
  lemma UpperEqualIffCaseEqual(a: string, b: string)
    ensures Upper(a) == Upper(b) <==> CaseEqual(a, b)
  {
    if |a| == |b| {
      forall i | 0 <= i < |a| ensures Upper(a)[i] == Upper(b)[i] <==> Lower(a)[i] == Lower(b)[i] {
        UpperCharIffLowerChar(a[i], b[i]);
      }
      if Upper(a) == Upper(b) {
        assert Lower(a) == Lower(b);
      }
      if CaseEqual(a, b) {
        assert Upper(a) == Upper(b);
      }
    } else {
      assert |Upper(a)| != |Upper(b)|;
    }
  }
}
