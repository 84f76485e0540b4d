/**
 * How the API's auth handler (apps/api/internal/handler/auth.go) reads a
 * login identifier: e-mail-shaped identifiers are normalised, anything else
 * is a username and passes through unchanged.
 */
module AuthHandler {
  import opened Text

  /** No `@` and no RE2 `\s` white space: the class `[^@\s]`. */
  predicate NoAtOrSpace(s: string) {
    forall i | 0 <= i < |s| :: s[i] != '@' && !IsPerlSpace(s[i])
  }

  /** `[^@\s]+\.[^@\s]+`: no `@` or white space, and a dot with text on both sides. */
  predicate DomainShaped(d: string) {
    NoAtOrSpace(d) && exists j | 0 < j < |d| - 1 :: d[j] == '.'
  }

  /**
   * isEmail, the regular expression `^[^@\s]+@[^@\s]+\.[^@\s]+$`: a
   * non-empty local part, one `@`, and a domain with an inner dot.  The
   * service's lookupUser uses the same expression.
   */
  predicate IsEmail(s: string) {
    exists k | 0 < k < |s| :: s[k] == '@' && NoAtOrSpace(s[..k]) && DomainShaped(s[k + 1..])
  }

  /** An e-mail has exactly one `@`, holds no RE2 white space, and the part
      before the `@` is not empty. */
  lemma IsEmailShape(s: string)
    requires IsEmail(s)
    ensures exists k | 0 < k < |s| :: s[k] == '@' && forall i | 0 <= i < |s| && i != k :: s[i] != '@'
    ensures forall i | 0 <= i < |s| :: !IsPerlSpace(s[i])
  {
    var k :| 0 < k < |s| && s[k] == '@' && NoAtOrSpace(s[..k]) && DomainShaped(s[k + 1..]);
    forall i | 0 <= i < |s| && i != k ensures s[i] != '@' && !IsPerlSpace(s[i]) {
      if i < k { assert s[..k][i] == s[i]; } else { assert s[k + 1..][i - k - 1] == s[i]; }
    }
  }

  /** normalizeEmail: trimmed and lower-cased.  The user service's
      normalizeEmail (apps/api/internal/service/user.go) is the same function. */
  function NormalizeEmail(s: string): (e: string)
    ensures forall i | 0 <= i < |e| :: !('A' <= e[i] <= 'Z')
  {
    ToLower(TrimSpace(s))
  }

  lemma {:induction false} LowerKeepsSpace(s: string)
    ensures forall i | 0 <= i < |s| :: IsSpace(ToLower(s)[i]) <==> IsSpace(s[i])
  {
  }

  /** Normalising twice is normalising once. */
  lemma NormalizeEmailIdempotent(s: string)
    ensures NormalizeEmail(NormalizeEmail(s)) == NormalizeEmail(s)
  {
    var t := TrimSpace(s);
    TrimSpaceShape(s);
    LowerKeepsSpace(t);
    TrimSpaceOfTrimmed(ToLower(t));
    ToLowerIdempotent(t);
  }

  /** The identifier Login hands to the auth service. */
  function LoginIdentifier(identifier: string): (r: string)
    ensures !IsEmail(identifier) ==> r == identifier
    ensures IsEmail(identifier) ==> r == NormalizeEmail(identifier)
  {
    if IsEmail(identifier) then NormalizeEmail(identifier) else identifier
  }

  /** For an e-mail without vertical tabs the trim has nothing to remove, so
      Login only lower-cases it. */
  lemma LoginTrimIsNoOp(identifier: string)
    requires IsEmail(identifier) && VerticalTab !in identifier
    ensures LoginIdentifier(identifier) == ToLower(identifier)
  {
    IsEmailShape(identifier);
    assert !IsSpace(identifier[0]) && !IsSpace(identifier[|identifier| - 1]);
    TrimSpaceOfTrimmed(identifier);
  }

  /** RE2's `\s` leaves out the vertical tab, which TrimSpace removes: an
      e-mail ending in one is accepted and then changed by the trim. */
  lemma LoginTrimsVerticalTab()
    ensures IsEmail("a@b.c" + [VerticalTab])
    ensures LoginIdentifier("a@b.c" + [VerticalTab]) == "a@b.c"
  {
    var s := "a@b.c" + [VerticalTab];
    assert s[2..][1] == '.';
    assert s[1] == '@' && NoAtOrSpace(s[..1]) && DomainShaped(s[2..]);
    assert TrimLeft(s) == s;
    assert TrimRight(s) == TrimRight(s[..|s| - 1]);
    assert s[..|s| - 1] == "a@b.c";
    assert TrimRight("a@b.c") == "a@b.c";
    assert ToLower("a@b.c") == "a@b.c";
  }
}
