/** The address check shared by the contact and newsletter endpoints: the
    regular expression `^[^\s@]+@[^\s@]+\.[^\s@]+$`
    (samruddhi-gold-backend/server.js:80 and :231), stated twice, once as the
    language of the expression and once as an explicit scan, and proved equal. */
module EmailPattern {
  import opened JsValues

  /** The class `[^\s@]`. */
  predicate IsPartChar(c: char) {
    !IsWhitespace(c) && c != '@'
  }

  /** `[^\s@]+`: a non-empty run of part characters. */
  predicate IsPart(s: string) {
    |s| > 0 && forall i :: 0 <= i < |s| ==> IsPartChar(s[i])
  }

  /** The language of the expression: `s` splits at an `@` (index `at`) and a
      later `.` (index `dot`) into three parts, each matching `[^\s@]+`. */
  ghost predicate SplitsAt(s: string, at: int, dot: int) {
    && 0 < at < dot < |s| - 1
    && s[at] == '@' && s[dot] == '.'
    && IsPart(s[..at]) && IsPart(s[at + 1..dot]) && IsPart(s[dot + 1..])
  }

  ghost predicate MatchesPattern(s: string) {
    exists at, dot :: SplitsAt(s, at, dot)
  }

  /** Number of occurrences of `c` in `s`. */
  function Count(s: string, c: char): nat {
    if s == [] then 0 else (if s[0] == c then 1 else 0) + Count(s[1..], c)
  }

  /** Index of the first `c` in `s`, or `|s|` when there is none. */
  function IndexOf(s: string, c: char): (k: nat)
    ensures k <= |s|
    ensures forall i :: 0 <= i < k ==> s[i] != c
    ensures k < |s| ==> s[k] == c
  {
    if s == [] then 0 else if s[0] == c then 0 else 1 + IndexOf(s[1..], c)
  }

  predicate NoWhitespace(s: string) {
    forall i :: 0 <= i < |s| ==> !IsWhitespace(s[i])
  }

  /** Some `.` in `domain` has at least one character on each side. */
  predicate HasInnerDot(domain: string) {
    |domain| >= 3 && '.' in domain[1..|domain| - 1]
  }

  /** The check written out: no whitespace, exactly one `@`, something before
      it, and a dot with text on both sides after it. */
  predicate IsValidEmail(s: string) {
    && NoWhitespace(s)
    && Count(s, '@') == 1
    && var at := IndexOf(s, '@');
       0 < at < |s| && HasInnerDot(s[at + 1..])
  }

  lemma {:induction false} CountAppend(a: string, b: string, c: char)
    ensures Count(a + b, c) == Count(a, c) + Count(b, c)
  {
    if a == [] {
      assert a + b == b;
    } else {
      assert (a + b)[1..] == a[1..] + b;
      CountAppend(a[1..], b, c);
    }
  }

  lemma {:induction false} CountZero(s: string, c: char)
    ensures Count(s, c) == 0 <==> forall i :: 0 <= i < |s| ==> s[i] != c
  {
    if s != [] {
      CountZero(s[1..], c);
      assert forall i :: 1 <= i < |s| ==> s[i] == s[1..][i - 1];
    }
  }

  /** The expression and the scan accept the same strings. */
  lemma EmailPatternIff(s: string)
    ensures MatchesPattern(s) <==> IsValidEmail(s)
  {
    if MatchesPattern(s) {
      var at, dot :| SplitsAt(s, at, dot);
      PatternImpliesScan(s, at, dot);
    }
    if IsValidEmail(s) {
      ScanImpliesPattern(s);
    }
  }

  lemma PatternImpliesScan(s: string, at: int, dot: int)
    requires SplitsAt(s, at, dot)
    ensures IsValidEmail(s)
  {
    var local, domain := s[..at], s[at + 1..];
    assert s == local + [s[at]] + domain;
    forall i | 0 <= i < |s| ensures !IsWhitespace(s[i]) && (i != at ==> s[i] != '@') {
      if i < at {
        assert s[i] == s[..at][i];
      } else if at < i < dot {
        assert s[i] == s[at + 1..dot][i - at - 1];
      } else if dot < i {
        assert s[i] == s[dot + 1..][i - dot - 1];
      }
    }
    CountZero(local, '@');
    CountZero(domain, '@');
    CountAppend(local + [s[at]], domain, '@');
    CountAppend(local, [s[at]], '@');
    assert Count([s[at]], '@') == 1;
    assert IndexOf(s, '@') == at;
    var k := dot - at - 1;
    assert 0 < k < |domain| - 1 && domain[k] == '.';
    assert domain[1..|domain| - 1][k - 1] == '.';
  }

  lemma ScanImpliesPattern(s: string)
    requires IsValidEmail(s)
    ensures MatchesPattern(s)
  {
    var at := IndexOf(s, '@');
    var local, domain := s[..at], s[at + 1..];
    assert s == local + [s[at]] + domain;
    CountZero(local, '@');
    CountAppend(local + [s[at]], domain, '@');
    CountAppend(local, [s[at]], '@');
    assert Count([s[at]], '@') == 1;
    CountZero(domain, '@');
    var inner := domain[1..|domain| - 1];
    var j :| 0 <= j < |inner| && inner[j] == '.';
    var dot := at + 2 + j;
    assert s[dot] == '.';
    forall i | 0 <= i < |s| && i != at ensures IsPartChar(s[i]) {
      if i > at {
        assert s[i] == domain[i - at - 1];
      }
    }
    assert SplitsAt(s, at, dot);
  }
}
