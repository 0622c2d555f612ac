/** The validation chain of the sign-up dialog.

    The dialog reads three fields, strips the username and the email (the
    password is kept as typed), and then runs four checks in order: all
    fields present, username, email, password.  The first failing check's
    message is shown and nothing else happens; only when every check passes
    is the account created.  The dialog's widgets, the account store and the
    two-factor set-up are not modelled: the outcome says which message is
    shown, or which values would be handed to the account store. */
module Signup {

  // ---------------------------------------------------------------------
  // Stripping
  // ---------------------------------------------------------------------

  /** The ASCII characters `str.strip` removes: space, the tab, line-feed,
      vertical-tab, form-feed and carriage-return controls, and the four
      separator controls 0x1C-0x1F. */
  predicate IsSpace(c: char)
  {
    c == ' ' || '\t' <= c <= '\r' || '\U{1C}' <= c <= '\U{1F}'
  }

  function StripLeading(s: string): string
  {
    if s != [] && IsSpace(s[0]) then StripLeading(s[1..]) else s
  }

  function StripTrailing(s: string): string
  {
    if s != [] && IsSpace(s[|s| - 1]) then StripTrailing(s[..|s| - 1]) else s
  }

  /** `str.strip()`. */
  function Strip(s: string): string
  {
    StripTrailing(StripLeading(s))
  }

  /** StripLeading cuts off a whitespace prefix s[..i] and stops at a
      character that is not whitespace. */
  lemma {:induction false} StripLeadingCut(s: string) returns (i: nat)
    ensures i <= |s| && StripLeading(s) == s[i..]
    ensures forall k :: 0 <= k < i ==> IsSpace(s[k])
    ensures i < |s| ==> !IsSpace(s[i])
  {
    if s != [] && IsSpace(s[0]) {
      var i' := StripLeadingCut(s[1..]);
      i := i' + 1;
      assert s[1..][i'..] == s[i..];
      forall k | 0 < k < i
        ensures IsSpace(s[k])
      {
        assert s[k] == s[1..][k - 1];
      }
    } else {
      i := 0;
    }
  }

  /** StripTrailing cuts off a whitespace suffix s[j..] and stops at a
      character that is not whitespace. */
  lemma {:induction false} StripTrailingCut(s: string) returns (j: nat)
    ensures j <= |s| && StripTrailing(s) == s[..j]
    ensures forall k :: j <= k < |s| ==> IsSpace(s[k])
    ensures 0 < j ==> !IsSpace(s[j - 1])
  {
    if s != [] && IsSpace(s[|s| - 1]) {
      var init := s[..|s| - 1];
      j := StripTrailingCut(init);
      assert init[..j] == s[..j];
      forall k | j <= k < |init|
        ensures IsSpace(s[k])
      {
        assert s[k] == init[k];
      }
    } else {
      j := |s|;
    }
  }

  /** `str.strip` leaves the middle piece s[i..j], with only whitespace cut
      off and no whitespace at either end. */
  lemma StripCut(s: string) returns (i: nat, j: nat)
    ensures i <= j <= |s| && Strip(s) == s[i..j]
    ensures forall k :: 0 <= k < i ==> IsSpace(s[k])
    ensures forall k :: j <= k < |s| ==> IsSpace(s[k])
    ensures i < j ==> !IsSpace(s[i]) && !IsSpace(s[j - 1])
  {
    i := StripLeadingCut(s);
    var l := s[i..];
    var n := StripTrailingCut(l);
    j := i + n;
    assert l[..n] == s[i..j];
    forall k | j <= k < |s|
      ensures IsSpace(s[k])
    {
      assert s[k] == l[k - i];
    }
    if i < j {
      assert s[i] == l[0] && s[j - 1] == l[n - 1];
    }
  }

  /** A field of nothing but whitespace strips to the empty string. */
  lemma {:induction false} BlankStripsToEmpty(s: string)
    requires forall k :: 0 <= k < |s| ==> IsSpace(s[k])
    ensures Strip(s) == []
  {
    if s != [] {
      assert forall k :: 0 <= k < |s[1..]| ==> IsSpace(s[1..][k]);
      BlankStripsToEmpty(s[1..]);
    }
  }

  // ---------------------------------------------------------------------
  // Character classes of the three patterns
  // ---------------------------------------------------------------------

  predicate IsAsciiLower(c: char) { 'a' <= c <= 'z' }
  predicate IsAsciiUpper(c: char) { 'A' <= c <= 'Z' }
  predicate IsAsciiDigit(c: char) { '0' <= c <= '9' }

  predicate IsAlnum(c: char)
  {
    IsAsciiLower(c) || IsAsciiUpper(c) || IsAsciiDigit(c)
  }

  /** `[a-zA-Z0-9_.]`. */
  predicate UsernameChar(c: char) { IsAlnum(c) || c == '_' || c == '.' }

  /** `[a-zA-Z0-9_.+-]`, the part before the '@'. */
  predicate LocalChar(c: char) { IsAlnum(c) || c == '_' || c == '.' || c == '+' || c == '-' }

  /** `[a-zA-Z0-9-]`, the label between the '@' and the first '.'. */
  predicate LabelChar(c: char) { IsAlnum(c) || c == '-' }

  /** `[a-zA-Z0-9-.]`, everything after that '.'. */
  predicate TailChar(c: char) { IsAlnum(c) || c == '-' || c == '.' }

  /** The symbols a password must draw on. */
  const Symbols: string := "!@#$%^&*()-_=+[{]}\\|;:'\",<.>/?`~"

  // ---------------------------------------------------------------------
  // The three checks
  // ---------------------------------------------------------------------

  /** `len(username) >= 3 and re.match(r'^[a-zA-Z0-9_.]+$', username)`. */
  predicate ValidUsername(u: string)
  {
    |u| >= 3 && forall k :: 0 <= k < |u| ==> UsernameChar(u[k])
  }

  /** The first position of c in s, or |s| when c does not occur. */
  function IndexOf(s: string, c: char): (i: nat)
    ensures i <= |s|
    ensures i < |s| ==> s[i] == c
    ensures forall k :: 0 <= k < i ==> s[k] != c
  {
    if s == [] then 0
    else if s[0] == c then 0
    else 1 + IndexOf(s[1..], c)
  }

  /** The language of the email pattern `^[local]+@[label]+\.[tail]+$`: a
      non-empty local part, an '@', a non-empty label, a '.', a non-empty
      tail. */
  ghost predicate EmailPattern(e: string)
  {
    exists at, dot :: EmailSplit(e, at, dot)
  }

  ghost predicate EmailSplit(e: string, at: int, dot: int)
  {
    0 < at && at + 1 < dot && dot + 1 < |e| &&
    e[at] == '@' && e[dot] == '.' &&
    (forall k :: 0 <= k < at ==> LocalChar(e[k])) &&
    (forall k :: at < k < dot ==> LabelChar(e[k])) &&
    (forall k :: dot < k < |e| ==> TailChar(e[k]))
  }

  /** The matcher: the '@' is the first one (the local part cannot hold
      one), and the '.' is the first one after it (the label cannot hold
      one). */
  predicate ValidEmail(e: string)
  {
    var at := IndexOf(e, '@');
    var dot := if at < |e| then at + 1 + IndexOf(e[at + 1..], '.') else |e|;
    0 < at && at + 1 < dot && dot + 1 < |e| &&
    (forall k :: 0 <= k < at ==> LocalChar(e[k])) &&
    (forall k :: at < k < dot ==> LabelChar(e[k])) &&
    (forall k :: dot < k < |e| ==> TailChar(e[k]))
  }

  /** The matcher accepts exactly the pattern's language. */
  lemma EmailMatcher(e: string)
    ensures ValidEmail(e) <==> EmailPattern(e)
  {
    var at := IndexOf(e, '@');
    if ValidEmail(e) {
      var dot := at + 1 + IndexOf(e[at + 1..], '.');
      assert e[dot] == e[at + 1..][dot - at - 1];
      assert EmailSplit(e, at, dot);
    }
    if EmailPattern(e) {
      var a, d :| EmailSplit(e, a, d);
      assert IndexOf(e, '@') == a by {
        assert !LocalChar('@');
      }
      var rest := e[a + 1..];
      assert IndexOf(rest, '.') == d - a - 1 by {
        assert !LabelChar('.');
        assert rest[d - a - 1] == e[d];
        assert forall k :: 0 <= k < d - a - 1 ==> rest[k] == e[a + 1 + k];
      }
    }
  }

  /** The password rule: at least 8 characters, among them a lower-case
      letter, an upper-case letter, a digit and a symbol. */
  predicate StrongPassword(p: string)
  {
    |p| >= 8 &&
    (exists c | c in p :: IsAsciiLower(c)) &&
    (exists c | c in p :: IsAsciiUpper(c)) &&
    (exists c | c in p :: IsAsciiDigit(c)) &&
    (exists c | c in p :: c in Symbols)
  }

  // ---------------------------------------------------------------------
  // The dialog's handler
  // ---------------------------------------------------------------------

  const FieldsRequired := "All fields are required."
  const UsernameRule := "Username must be 3+ chars (letters, numbers, _, . only)."
  const EmailInvalid := "Invalid email format."
  const PasswordRule := "Password must be 8+ chars, upper, lower, digit & symbol."

  /** What the handler does: show one error message, or hand the stripped
      username and email and the password as typed to the account store. */
  datatype Outcome =
    | Rejected(message: string)
    | SignUp(username: string, email: string, password: string)

  function HandleSignup(usernameField: string, emailField: string, passwordField: string): (r: Outcome)
    ensures r.Rejected? ==> r.message in {FieldsRequired, UsernameRule, EmailInvalid, PasswordRule}
    ensures r.SignUp? ==> r.username == Strip(usernameField) && r.email == Strip(emailField) && r.password == passwordField
    ensures r.SignUp? ==> r.username != [] && r.email != [] && r.password != []
  {
    var username := Strip(usernameField);
    var email := Strip(emailField);
    var password := passwordField;
    if username == [] || email == [] || password == [] then Rejected(FieldsRequired)
    else if !ValidUsername(username) then Rejected(UsernameRule)
    else if !ValidEmail(email) then Rejected(EmailInvalid)
    else if !StrongPassword(password) then Rejected(PasswordRule)
    else SignUp(username, email, password)
  }

  /** The account is created exactly when every check passes, on the
      stripped username and email and the unstripped password. */
  lemma SignupAccepted(u: string, e: string, p: string)
    ensures HandleSignup(u, e, p).SignUp? <==>
      p != [] && ValidUsername(Strip(u)) && EmailPattern(Strip(e)) && StrongPassword(p)
    ensures HandleSignup(u, e, p).SignUp? ==> HandleSignup(u, e, p) == SignUp(Strip(u), Strip(e), p)
  {
    EmailMatcher(Strip(e));
  }

  /** Only the first failing check's message is shown. */
  lemma FirstFailureShown(u: string, e: string, p: string)
    ensures HandleSignup(u, e, p) == Rejected(FieldsRequired) <==>
      Strip(u) == [] || Strip(e) == [] || p == []
    ensures HandleSignup(u, e, p) == Rejected(UsernameRule) <==>
      Strip(u) != [] && Strip(e) != [] && p != [] && !ValidUsername(Strip(u))
    ensures HandleSignup(u, e, p) == Rejected(EmailInvalid) <==>
      Strip(e) != [] && p != [] && ValidUsername(Strip(u)) && !EmailPattern(Strip(e))
    ensures HandleSignup(u, e, p) == Rejected(PasswordRule) <==>
      ValidUsername(Strip(u)) && EmailPattern(Strip(e)) && p != [] && !StrongPassword(p)
  {
    EmailMatcher(Strip(e));
  }

  /** A username of only spaces counts as missing, not as too short. */
  lemma BlankUsernameMissing(u: string, e: string, p: string)
    requires forall k :: 0 <= k < |u| ==> IsSpace(u[k])
    ensures HandleSignup(u, e, p) == Rejected(FieldsRequired)
  {
    BlankStripsToEmpty(u);
  }

  /** Addresses the pattern accepts: dots and plus signs in the local part,
      hyphens in the label, further dots after the first. */
  lemma EmailAccepted()
    ensures EmailPattern("a@b.c")
    ensures EmailPattern("first.last+tag@mail-host.co.uk")
  {
    assert EmailSplit("a@b.c", 1, 3);
    assert EmailSplit("first.last+tag@mail-host.co.uk", 14, 24);
  }

  /** A domain with no dot is refused. */
  lemma EmailWithoutDot()
    ensures !EmailPattern("a@b")
  {
    EmailMatcher("a@b");
  }

  /** An empty label or an empty tail is refused. */
  lemma EmailEmptyParts()
    ensures !EmailPattern("a@.c") && !EmailPattern("a@b.")
  {
    EmailMatcher("a@.c");
    EmailMatcher("a@b.");
  }
}
