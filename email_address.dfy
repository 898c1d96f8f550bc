/**
 * The registration form's email pattern,
 * `/^[A-Z0-9._%+-]+@[A-Z0-9.-]+\.[A-Z]{2,}$/i`: first what the regular
 * expression means (some way of cutting the whole string into a local part,
 * `@`, a domain, `.` and a top-level domain of at least two letters, letters
 * in either case), then a direct check that needs no search, and the proof
 * that the two agree on every string.
 */
module EmailAddress {
  import opened Platform

  /** `[A-Z]` under the `i` flag: an ASCII letter of either case. */
  predicate IsLetter(c: char) {
    'A' <= c <= 'Z' || 'a' <= c <= 'z'
  }

  predicate IsAlnum(c: char) {
    IsLetter(c) || '0' <= c <= '9'
  }

  /** `[A-Z0-9._%+-]` */
  predicate IsLocalChar(c: char) {
    IsAlnum(c) || c == '.' || c == '_' || c == '%' || c == '+' || c == '-'
  }

  /** `[A-Z0-9.-]` */
  predicate IsDomainChar(c: char) {
    IsAlnum(c) || c == '.' || c == '-'
  }

  predicate AllLocal(s: string) {
    forall i :: 0 <= i < |s| ==> IsLocalChar(s[i])
  }

  predicate AllDomain(s: string) {
    forall i :: 0 <= i < |s| ==> IsDomainChar(s[i])
  }

  predicate AllLetters(s: string) {
    forall i :: 0 <= i < |s| ==> IsLetter(s[i])
  }

  /**
   * `s` is the local part `s[..at]`, then `@`, the domain `s[at + 1..dot]`,
   * then `.`, and the top-level domain `s[dot + 1..]`, each part as long as
   * its quantifier asks.
   */
  ghost predicate MatchesAt(s: string, at: int, dot: int) {
    && 1 <= at && at + 2 <= dot && dot + 3 <= |s|
    && s[at] == '@' && s[dot] == '.'
    && AllLocal(s[..at]) && AllDomain(s[at + 1..dot]) && AllLetters(s[dot + 1..])
  }

  /** The regular expression matches `s`, anchored at both ends. */
  ghost predicate Matches(s: string) {
    exists at, dot :: MatchesAt(s, at, dot)
  }

  /** The position of the last `c` in `s`, or -1 when there is none. */
  function LastIndexOf(s: string, c: char): (k: int)
    ensures -1 <= k < |s|
    ensures k >= 0 ==> s[k] == c
    ensures forall i :: k < i < |s| ==> s[i] != c
  {
    if s == [] then -1
    else if s[|s| - 1] == c then |s| - 1
    else LastIndexOf(s[..|s| - 1], c)
  }

  /**
   * The check without search: since neither part before the `@` nor the
   * domain may hold an `@`, the local part ends at the first `@`; since the
   * top-level domain is letters only, it starts after the last `.`.
   */
  function IsValid(s: string): bool {
    ValidCut(s, IndexOf(s, '@'), LastIndexOf(s, '.'))
  }

  /** The parts around the first `@` and the last `.` have the lengths and the characters the pattern asks for. */
  predicate ValidCut(s: string, at: int, dot: int) {
    && 1 <= at && at + 2 <= dot && dot + 3 <= |s|
    && AllLocal(s[..at]) && AllDomain(s[at + 1..dot]) && AllLetters(s[dot + 1..])
  }

  /** The direct check accepts exactly the strings the regular expression matches. */
  lemma IsValidIffMatches(s: string)
    ensures IsValid(s) <==> Matches(s)
  {
    if IsValid(s) {
      assert MatchesAt(s, IndexOf(s, '@'), LastIndexOf(s, '.'));
    }
    if Matches(s) {
      var at, dot :| MatchesAt(s, at, dot);
      forall i | 0 <= i < at ensures s[i] != '@' {
        assert IsLocalChar(s[..at][i]);
      }
      forall i | dot < i < |s| ensures s[i] != '.' {
        assert IsLetter(s[dot + 1..][i - dot - 1]);
      }
      assert IndexOf(s, '@') == at;
      assert LastIndexOf(s, '.') == dot;
    }
  }

  /** Exactly one `@` in every accepted address. */
  lemma ValidHasOneAt(s: string, i: int)
    requires IsValid(s) && 0 <= i < |s| && s[i] == '@'
    ensures i == IndexOf(s, '@')
  {
    OnlyOneAt(s, IndexOf(s, '@'), LastIndexOf(s, '.'));
  }

  /** With no `@` before `at`, a cut that fits the pattern leaves `at` the only place an `@` can be. */
  lemma OnlyOneAt(s: string, at: int, dot: int)
    requires ValidCut(s, at, dot) && s[dot] == '.'
    requires forall k :: 0 <= k < at ==> s[k] != '@'
    ensures forall j :: 0 <= j < |s| && j != at ==> s[j] != '@'
  {
    forall j | at < j < |s| ensures s[j] != '@' {
      NoAtAfter(s, at, dot, j);
    }
  }

  /** Past the `@`, the domain, the `.` and the top-level domain hold no other `@`. */
  lemma NoAtAfter(s: string, at: int, dot: int, j: int)
    requires 0 <= at < j < |s| && at < dot < |s| && s[dot] == '.'
    requires AllDomain(s[at + 1..dot]) && AllLetters(s[dot + 1..])
    ensures s[j] != '@'
  {
    if j < dot {
      assert IsDomainChar(s[at + 1..dot][j - at - 1]);
    } else if j > dot {
      assert IsLetter(s[dot + 1..][j - dot - 1]);
    }
  }
}
