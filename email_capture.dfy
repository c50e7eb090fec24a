/**
 * The email form after the analysis: the address check that enables the
 * submit button, and the form state that keeps the address and its validity.
 */
module EmailCapture {
  import opened Wrappers

  /** The characters JavaScript's `\s` class matches. */
  predicate IsWhitespace(c: char)
  {
    || c == '\t' || c == '\n' || c == '\U{B}' || c == '\U{C}' || c == '\r' || c == ' '
    || c == '\U{A0}' || c == '\U{1680}' || ('\U{2000}' <= c <= '\U{200A}')
    || c == '\U{2028}' || c == '\U{2029}' || c == '\U{202F}' || c == '\U{205F}'
    || c == '\U{3000}' || c == '\U{FEFF}'
  }

  /** A character of the class `[^\s@]`. */
  predicate Plain(c: char)
  {
    !IsWhitespace(c) && c != '@'
  }

  /** `t` is in `[^\s@]*`. */
  predicate AllPlain(t: string)
  {
    forall k | 0 <= k < |t| :: Plain(t[k])
  }

  /**
   * The language of `^[^\s@]+@[^\s@]+\.[^\s@]+$`: a non-empty plain run, an
   * '@', a non-empty plain run, a '.', and a non-empty plain run, covering
   * the whole string.
   */
  predicate MatchesPattern(s: string)
  {
    exists i, j | 0 < i && i + 1 < j && j + 1 < |s| ::
      s[i] == '@' && s[j] == '.' && AllPlain(s[..i]) && AllPlain(s[i + 1..j]) && AllPlain(s[j + 1..])
  }

  /** The index of the first '@' in `s`, or `|s|` when there is none. */
  function IndexOfAt(s: string): (k: nat)
    ensures k <= |s|
    ensures k < |s| ==> s[k] == '@'
    ensures forall m | 0 <= m < k :: s[m] != '@'
  {
    if s == [] then 0 else if s[0] == '@' then 0 else 1 + IndexOfAt(s[1..])
  }

  /**
   * The check the form runs on every change: no whitespace, a first '@'
   * that is not the first character and is followed by no other '@', and a
   * '.' after it that neither follows it directly nor ends the string.
   */
  predicate ValidEmail(s: string)
  {
    var at := IndexOfAt(s);
    && (forall k | 0 <= k < |s| :: !IsWhitespace(s[k]))
    && 0 < at < |s|
    && (forall k | at < k < |s| :: s[k] != '@')
    && (exists j | at + 1 < j < |s| - 1 :: s[j] == '.')
  }

  /** Whatever the check accepts, the regular expression matches. */
  lemma ValidIsPattern(s: string)
    requires ValidEmail(s)
    ensures MatchesPattern(s)
  {
    var at := IndexOfAt(s);
    var j :| at + 1 < j < |s| - 1 && s[j] == '.';
    assert AllPlain(s[..at]);
    assert AllPlain(s[at + 1..j]);
    assert AllPlain(s[j + 1..]);
  }

  /** Whatever the regular expression matches, the check accepts. */
  lemma PatternIsValid(s: string)
    requires MatchesPattern(s)
    ensures ValidEmail(s)
  {
    var i, j :| 0 < i && i + 1 < j && j + 1 < |s| &&
      s[i] == '@' && s[j] == '.' && AllPlain(s[..i]) && AllPlain(s[i + 1..j]) && AllPlain(s[j + 1..]);
    forall k | 0 <= k < |s| ensures Plain(s[k]) || k == i {
      if k < i {
        assert s[k] == s[..i][k];
      } else if i < k < j {
        assert s[k] == s[i + 1..j][k - i - 1];
      } else if j < k {
        assert s[k] == s[j + 1..][k - j - 1];
      }
    }
    assert IndexOfAt(s) == i;
  }

  /** The check accepts exactly the strings the regular expression matches. */
  lemma ValidEmailIsPattern(s: string)
    ensures ValidEmail(s) <==> MatchesPattern(s)
  {
    if ValidEmail(s) {
      ValidIsPattern(s);
    }
    if MatchesPattern(s) {
      PatternIsValid(s);
    }
  }

  /** A matching string has no whitespace and exactly one '@'. */
  lemma ValidHasOneAt(s: string)
    requires ValidEmail(s)
    ensures forall k | 0 <= k < |s| :: !IsWhitespace(s[k])
    ensures multiset(s)['@'] == 1
  {
    var at := IndexOfAt(s);
    var before, after := s[..at], s[at + 1..];
    assert s == before + [s[at]] + after;
    assert '@' !in before;
    assert '@' !in after;
    assert multiset(s) == multiset(before) + multiset{'@'} + multiset(after);
  }

  /** The text before the first '@'. */
  function LocalPart(s: string): string
  {
    s[..IndexOfAt(s)]
  }

  /** The text after the first '@', empty when there is none. */
  function Domain(s: string): string
  {
    if IndexOfAt(s) < |s| then s[IndexOfAt(s) + 1..] else []
  }

  /**
   * A matching string splits at its '@' into a non-empty local part and a
   * domain, both free of whitespace and '@', and the domain has a '.' that
   * is neither its first nor its last character.
   */
  lemma ValidParts(s: string)
    requires ValidEmail(s)
    ensures s == LocalPart(s) + "@" + Domain(s)
    ensures |LocalPart(s)| > 0 && AllPlain(LocalPart(s)) && AllPlain(Domain(s))
    ensures exists j | 0 < j < |Domain(s)| - 1 :: Domain(s)[j] == '.'
  {
    var at := IndexOfAt(s);
    var domain := Domain(s);
    assert s == s[..at] + [s[at]] + s[at + 1..];
    var j :| at + 1 < j < |s| - 1 && s[j] == '.';
    assert domain[j - at - 1] == '.';
  }

  /** The empty string and any string without an '@' are rejected. */
  lemma NoAtIsInvalid(s: string)
    ensures !ValidEmail("")
    ensures '@' !in s ==> !ValidEmail(s)
  {
  }

  /** Accepted addresses: the plainest one, and one with two dots in a row after the '@'. */
  lemma AcceptedExamples()
    ensures ValidEmail("a@b.c")
    ensures ValidEmail("a@b..c")
  {
    assert IndexOfAt("a@b.c") == 1 && "a@b.c"[3] == '.';
    assert IndexOfAt("a@b..c") == 1 && "a@b..c"[3] == '.';
  }

  /** Dots may appear before the '@' and more than once after it. */
  lemma AcceptedDotted()
    ensures ValidEmail("a.b@c.d.e")
  {
    var s := "a.b@c.d.e";
    assert IndexOfAt(s) == 3;
    assert forall k | 0 <= k < |s| :: !IsWhitespace(s[k]);
    assert forall k | 3 < k < |s| :: s[k] != '@';
    assert s[5] == '.';
  }

  /** Rejected addresses: a dot at the end, a dot right after '@', nothing before '@', two '@', a space. */
  lemma RejectedExamples()
    ensures !ValidEmail("a@b.")
    ensures !ValidEmail("a@.c")
    ensures !ValidEmail("@b.c")
    ensures !ValidEmail("a@@b.c")
    ensures !ValidEmail("a b@c.d")
  {
    assert IndexOfAt("a@b.") == 1;
    assert IndexOfAt("a@.c") == 1;
    assert IndexOfAt("@b.c") == 0;
    assert IndexOfAt("a@@b.c") == 1 && "a@@b.c"[2] == '@';
    assert IsWhitespace("a b@c.d"[1]);
  }

  /** The form's `email` and `isValid` state. */
  class EmailForm {
    var email: string
    var isValid: bool

    /** `isValid` always reflects the current value. */
    predicate Valid()
      reads this
    {
      isValid == ValidEmail(email)
    }

    constructor ()
      ensures Valid() && email == "" && !isValid
    {
      email := "";
      isValid := false;
      NoAtIsInvalid("");
    }

    /** `handleEmailChange`: stores the new value and recomputes its validity. */
    method HandleEmailChange(value: string)
      modifies this
      ensures Valid()
      ensures email == value && isValid == ValidEmail(value)
    {
      email := value;
      isValid := ValidEmail(value);
    }

    /** The submit button: hands the address on only while it is valid. */
    method Submit() returns (submitted: Option<string>)
      requires Valid()
      ensures submitted.Some? <==> MatchesPattern(email)
      ensures submitted.Some? ==> submitted.value == email
    {
      ValidEmailIsPattern(email);
      if isValid {
        submitted := Some(email);
      } else {
        submitted := None;
      }
    }
  }
}
