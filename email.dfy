/** The email sanitise-and-validate step shared by the server action and the
    Mailchimp route: reject a missing, empty or non-string value, then trim,
    lower-case, match `^[^\s@]+@[^\s@]+\.[^\s@]+$` and cap the length at 254. */
module Email {
  import opened Js
  import opened Text

  const MaxLength := 254

  /** The character class `[^\s@]`. */
  predicate IsPlain(c: char)
  {
    !IsWhitespace(c) && c != '@'
  }

  predicate AllPlain(s: string)
  {
    forall k :: 0 <= k < |s| ==> IsPlain(s[k])
  }

  /** The whole-string pattern `[^\s@]+@[^\s@]+\.[^\s@]+`, read declaratively:
      some `@` with a non-empty part before it, and some later `.` with
      non-empty parts on both sides, and every other character in `[^\s@]`. */
  ghost predicate MatchesPattern(s: string)
  {
    exists at, dot ::
      && 0 < at && at + 1 < dot && dot + 1 < |s|
      && s[at] == '@' && s[dot] == '.'
      && forall k :: 0 <= k < |s| && k != at ==> IsPlain(s[k])
  }

  /** The domain part `[^\s@]+\.[^\s@]+` after the `@`. */
  predicate IsDomain(d: string)
  {
    |d| >= 3 && AllPlain(d) && '.' in d[1..|d| - 1]
  }

  /** `EMAIL_REGEX.test(s)`, computed by locating the `@`. */
  predicate Matches(s: string)
    // the shortest address the pattern accepts is `a@b.c`
    ensures Matches(s) ==> '@' in s && |s| >= 5
  {
    match IndexOf(s, '@')
    case None => false
    case Some(at) => 0 < at && AllPlain(s[..at]) && IsDomain(s[at + 1..])
  }

  lemma MatchesOnlyIfPattern(s: string)
    requires Matches(s)
    ensures MatchesPattern(s)
  {
    var at := IndexOf(s, '@').value;
    var d := s[at + 1..];
    var j :| 0 <= j < |d[1..|d| - 1]| && d[1..|d| - 1][j] == '.';
    var dot := at + 2 + j;
    assert s[dot] == '.';
    forall k | 0 <= k < |s| && k != at
      ensures IsPlain(s[k])
    {
      if k < at {
        assert s[k] == s[..at][k];
      } else {
        assert s[k] == d[k - at - 1];
      }
    }
  }

  lemma PatternOnlyIfMatches(s: string)
    requires MatchesPattern(s)
    ensures Matches(s)
  {
    var at, dot :| 0 < at && at + 1 < dot && dot + 1 < |s| && s[at] == '@' && s[dot] == '.'
      && forall k :: 0 <= k < |s| && k != at ==> IsPlain(s[k]);
    OnlyAt(s, at);
    var d := s[at + 1..];
    assert d[1..|d| - 1][dot - at - 2] == '.';
    assert forall k :: 0 <= k < |d| ==> d[k] == s[at + 1 + k];
    assert AllPlain(s[..at]) by {
      assert forall k :: 0 <= k < at ==> s[..at][k] == s[k];
    }
  }

  /** The scan agrees with the regular expression on every string. */
  lemma MatchesIsPattern(s: string)
    ensures Matches(s) <==> MatchesPattern(s)
  {
    if Matches(s) {
      MatchesOnlyIfPattern(s);
    }
    if MatchesPattern(s) {
      PatternOnlyIfMatches(s);
    }
  }

  /** A string whose only `@` is at `at` has its first `@` there. */
  lemma OnlyAt(s: string, at: int)
    requires 0 <= at < |s| && s[at] == '@'
    requires forall k :: 0 <= k < |s| && k != at ==> IsPlain(s[k])
    ensures IndexOf(s, '@') == Some(at)
  {
  }

  /** `email.trim().toLowerCase()`. */
  function Sanitize(s: string): (r: string)
    ensures IsTrimmed(r) && |r| <= |s|
  {
    var t := Trim(s);
    ToLowerKeepsTrimmed(t);
    ToLower(t)
  }

  /** The validation of lines 69-83 (server action) and 42-56 (route): the
      sanitised address when the input is accepted, nothing otherwise. */
  function Validate(v: Value): (r: Option<string>)
    ensures r.Some? <==>
      && v.Str? && v.s != ""
      && MatchesPattern(Sanitize(v.s)) && |Sanitize(v.s)| <= MaxLength
    ensures r.Some? ==> r.value == Sanitize(v.s)
  {
    if !v.Str? || v.s == "" then
      None
    else
      var e := Sanitize(v.s);
      MatchesIsPattern(e);
      if !Matches(e) || |e| > MaxLength then None else Some(e)
  }

  /** Sanitising is idempotent: the sanitised form is its own sanitised form. */
  lemma SanitizeIdempotent(s: string)
    ensures Sanitize(Sanitize(s)) == Sanitize(s)
  {
    var t := Trim(s);
    ToLowerKeepsTrimmed(t);
    TrimOfTrimmed(ToLower(t));
    ToLowerIdempotent(t);
  }

  /** Surrounding whitespace is ignored: padding an address that has no
      whitespace at its ends sanitises to its lower-case form. */
  lemma SanitizePadded(p: string, m: string, q: string)
    requires AllWhitespace(p) && AllWhitespace(q) && IsTrimmed(m)
    ensures Sanitize(p + m + q) == ToLower(m)
  {
    TrimOfPadded(p, m, q);
  }

  /** Two inputs with the same sanitised form get the same verdict; an empty
      input sanitises to "", which the pattern rejects anyway. */
  lemma SameSanitized(a: string, b: string)
    requires Sanitize(a) == Sanitize(b)
    ensures Validate(Str(a)) == Validate(Str(b))
  {
  }

  /** An accepted address is accepted again, unchanged, when validated a
      second time. */
  lemma ValidateNormalForm(v: Value)
    requires Validate(v).Some?
    ensures Validate(Str(Validate(v).value)) == Validate(v)
  {
    var e := Validate(v).value;
    assert Sanitize(e) == Sanitize(v.s) by { SanitizeIdempotent(v.s); }
    SameSanitized(e, v.s);
  }

  /** Upper-case letters and surrounding whitespace never change the verdict,
      and an accepted padded address normalises to the lower-case address. */
  lemma ValidatePaddedUpper(p: string, m: string, q: string)
    requires AllWhitespace(p) && AllWhitespace(q) && IsTrimmed(m)
    ensures Validate(Str(p + m + q)) == Validate(Str(ToLower(m)))
    ensures Validate(Str(p + m + q)).Some? ==> Validate(Str(p + m + q)).value == ToLower(m)
  {
    var s := p + m + q;
    var l := ToLower(m);
    assert Sanitize(s) == l by { SanitizePadded(p, m, q); }
    assert Sanitize(l) == l by {
      ToLowerKeepsTrimmed(m);
      TrimOfTrimmed(l);
      ToLowerIdempotent(m);
    }
    SameSanitized(s, l);
  }

  /** A string without `@` is never accepted. */
  lemma NoAtRejected(s: string)
    requires '@' !in Sanitize(s)
    ensures Validate(Str(s)).None?
  {
  }

  /** A string with two `@` is never accepted. */
  lemma TwoAtsRejected(s: string, i: int, j: int)
    requires 0 <= i < j < |Sanitize(s)| && Sanitize(s)[i] == '@' && Sanitize(s)[j] == '@'
    ensures Validate(Str(s)).None?
  {
    var e := Sanitize(s);
    forall at: int, dot: int | 0 < at && at + 1 < dot && dot + 1 < |e| && e[at] == '@' && e[dot] == '.'
      ensures !(forall k :: 0 <= k < |e| && k != at ==> IsPlain(e[k]))
    {
      var k := if i != at then i else j;
      assert !IsPlain(e[k]);
    }
    assert !MatchesPattern(e);
  }

  /** Whitespace left inside the sanitised address is never accepted. */
  lemma InnerWhitespaceRejected(s: string, i: int)
    requires 0 <= i < |Sanitize(s)| && IsWhitespace(Sanitize(s)[i])
    ensures Validate(Str(s)).None?
  {
    var e := Sanitize(s);
    forall at: int, dot: int | 0 < at && at + 1 < dot && dot + 1 < |e| && e[at] == '@' && e[dot] == '.'
      ensures !(forall k :: 0 <= k < |e| && k != at ==> IsPlain(e[k]))
    {
      assert i != at && !IsPlain(e[i]);
    }
    assert !MatchesPattern(e);
  }
}
