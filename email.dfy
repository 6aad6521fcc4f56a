/**
 * The sign-up email check `/^[^\s@]+@[^\s@]+\.[^\s@]+$/`, which the
 * navigation bar's dialog and the call-to-action form both apply, written
 * as an explicit predicate instead of a regular expression, with an
 * independent description of the same language.
 */
module Email {
  import opened Text

  /** `[^\s@]+`: a non-empty run of characters that are neither whitespace nor '@'. */
  predicate PlainRun(x: string)
  {
    x != "" && forall k :: 0 <= k < |x| ==> !IsSpace(x[k]) && x[k] != '@'
  }

  /** `email` reads as local part, '@' at `i`, domain, '.' at `j`, and top-level part, each a plain run. */
  predicate AtDotSplit(email: string, i: int, j: int)
  {
    0 < i && i + 1 < j && j + 1 < |email|
    && email[i] == '@' && email[j] == '.'
    && PlainRun(email[..i]) && PlainRun(email[i + 1..j]) && PlainRun(email[j + 1..])
  }

  /** `validateEmail`: some choice of '@' and '.' makes the whole string match the pattern. */
  predicate ValidateEmail(email: string)
  {
    exists i, j | 0 < i < j < |email| :: AtDotSplit(email, i, j)
  }

  /** No character of `s` is whitespace. */
  predicate NoSpace(s: string)
  {
    forall k :: 0 <= k < |s| ==> !IsSpace(s[k])
  }

  /** The domain has a '.' that is neither its first nor its last character. */
  predicate InnerDot(domain: string)
  {
    exists m | 1 <= m < |domain| - 1 :: domain[m] == '.'
  }

  /**
   * The same language described without the pattern's shape: no
   * whitespace, exactly one '@' (so two pieces around it), a non-empty
   * local part, and an inner '.' in the domain.
   */
  predicate WellFormedAddress(email: string)
  {
    var parts := Split(email, '@');
    NoSpace(email) && |parts| == 2 && parts[0] != "" && InnerDot(parts[1])
  }

  /** The pattern accepts exactly the well-formed addresses. */
  lemma ValidateEmailIff(email: string)
    ensures ValidateEmail(email) <==> WellFormedAddress(email)
  {
    if ValidateEmail(email) {
      var i, j :| 0 < i < j < |email| && AtDotSplit(email, i, j);
      PatternIsWellFormed(email, i, j);
    }
    if WellFormedAddress(email) {
      WellFormedMatchesPattern(email);
    }
  }

  lemma PatternIsWellFormed(email: string, i: int, j: int)
    requires AtDotSplit(email, i, j)
    ensures WellFormedAddress(email)
  {
    var local, domain := email[..i], email[i + 1..];
    var d, t := email[i + 1..j], email[j + 1..];
    assert email == local + ['@'] + domain;
    assert domain == d + ['.'] + t;
    assert '@' !in local;
    assert '@' !in domain by {
      forall k | 0 <= k < |domain| ensures domain[k] != '@' {
        if k < |d| { assert domain[k] == d[k]; }
        else if k > |d| { assert domain[k] == t[k - |d| - 1]; }
      }
    }
    SplitJoin([local, domain], '@');
    assert Join([local, domain], '@') == email;
    forall k | 0 <= k < |email| ensures !IsSpace(email[k]) {
      if k < i { assert email[k] == local[k]; }
      else if i < k < j { assert email[k] == d[k - i - 1]; }
      else if k > j { assert email[k] == t[k - j - 1]; }
    }
    assert domain[j - i - 1] == '.';
  }

  lemma WellFormedMatchesPattern(email: string)
    requires WellFormedAddress(email)
    ensures ValidateEmail(email)
  {
    var parts := Split(email, '@');
    var local, domain := parts[0], parts[1];
    JoinSplit(email, '@');
    assert email == local + ['@'] + domain;
    var m :| 1 <= m < |domain| - 1 && domain[m] == '.';
    var i, j := |local|, |local| + 1 + m;
    assert email[..i] == local;
    assert email[i + 1..j] == domain[..m];
    assert email[j + 1..] == domain[m + 1..];
    forall k | 0 <= k < |email| ensures !IsSpace(email[k]) {
    }
    assert PlainRun(email[..i]) by {
      forall k | 0 <= k < i ensures !IsSpace(local[k]) { assert local[k] == email[k]; }
    }
    assert PlainRun(email[i + 1..j]) by {
      forall k | 0 <= k < m ensures !IsSpace(domain[k]) { assert domain[k] == email[i + 1 + k]; }
    }
    assert PlainRun(email[j + 1..]) by {
      forall k | m + 1 <= k < |domain| ensures !IsSpace(domain[k]) { assert domain[k] == email[i + 1 + k]; }
    }
    assert AtDotSplit(email, i, j);
  }

  /**
   * A valid address is at least five characters long ("a@b.c"), so never
   * blank, and it neither starts nor ends with whitespace: the pattern is
   * applied untrimmed, so a padded address is rejected.
   */
  lemma ValidShape(email: string)
    requires ValidateEmail(email)
    ensures |email| >= 5 && !Blank(email)
    ensures !IsSpace(email[0]) && !IsSpace(email[|email| - 1])
  {
    var i, j :| 0 < i < j < |email| && AtDotSplit(email, i, j);
    assert !IsSpace(email[i]);
    assert email[0] == email[..i][0];
    assert email[|email| - 1] == email[j + 1..][|email| - j - 2];
  }
}
