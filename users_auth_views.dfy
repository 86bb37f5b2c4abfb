/** The login view (users/views/authentication.py): where a user goes after
    logging in, the inactive-account refusal, and the flash messages built
    from a form's errors. */
module UserAuthViews {
  import opened Common
  import opened UserModels

  const ADMIN_DASHBOARD := "admins:admin-dashboard"
  const HOME := "app_urls:home"
  const INACTIVE_ACCOUNT := "Your account is inactive. Please contact support."
  const LOGIN_FAILED := "An error occurred during login. Please try again."

  /** `get_success_url`: a non-empty `next` query parameter wins whatever
      the user's role; otherwise staff and superusers go to the admin
      dashboard and everyone else goes home. */
  function SuccessUrl(next: Option<string>, user: User): (r: string)
    ensures next.Some? && next.value != "" ==> r == next.value
    ensures (next.None? || next.value == "") && (user.isStaff || user.isSuperuser) ==> r == ADMIN_DASHBOARD
    ensures (next.None? || next.value == "") && !user.isStaff && !user.isSuperuser ==> r == HOME
  {
    if next.Some? && next.value != "" then next.value
    else if user.isStaff || user.isSuperuser then ADMIN_DASHBOARD
    else HOME
  }

  /** A flash message. */
  datatype Level = Error | Success
  datatype Message = Message(level: Level, text: string)

  /** A form's errors in the order the form holds them: each field name (or
      `__all__`) with its list of messages. */
  type FormErrors = seq<(string, seq<string>)>

  /** The form's fields and their labels (a field without a label has
      `None`, which Python prints as "None"). */
  type FieldLabels = map<string, Option<string>>

  /** What a message line is prefixed with: the field's label, or the raw
      key when the form has no such field. */
  function Prefix(field: string, fields: FieldLabels): string
  {
    if field in fields then (if fields[field].Some? then fields[field].value else "None")
    else field
  }

  /** The lines `form_invalid` builds for one field's errors. */
  function FieldLines(field: string, errors: seq<string>, fields: FieldLabels): (r: seq<string>)
    ensures |r| == |errors|
    ensures forall j :: 0 <= j < |errors| ==> r[j] == Prefix(field, fields) + ": " + errors[j]
  {
    if errors == [] then []
    else FieldLines(field, errors[..|errors| - 1], fields) + [Prefix(field, fields) + ": " + errors[|errors| - 1]]
  }

  /** All the lines, field after field, each field's errors in order. */
  function ErrorLines(errs: FormErrors, fields: FieldLabels): seq<string>
  {
    if errs == [] then []
    else ErrorLines(errs[..|errs| - 1], fields) + FieldLines(errs[|errs| - 1].0, errs[|errs| - 1].1, fields)
  }

  /** How many errors the form holds in all. */
  function ErrorCount(errs: FormErrors): nat
  {
    if errs == [] then 0 else ErrorCount(errs[..|errs| - 1]) + |errs[|errs| - 1].1|
  }

  /** One line per (field, error) pair and no other. */
  lemma {:induction false} ErrorLinesCount(errs: FormErrors, fields: FieldLabels)
    ensures |ErrorLines(errs, fields)| == ErrorCount(errs)
  {
    if errs != [] {
      ErrorLinesCount(errs[..|errs| - 1], fields);
    }
  }

  /** The lines of a field come right after those of the fields before it,
      so a field's k-th error is the line at the count of all earlier errors
      plus k. */
  lemma {:induction false} ErrorLineAt(errs: FormErrors, fields: FieldLabels, i: nat, k: nat)
    requires i < |errs| && k < |errs[i].1|
    ensures ErrorCount(errs[..i]) + k < |ErrorLines(errs, fields)|
    ensures ErrorLines(errs, fields)[ErrorCount(errs[..i]) + k] == Prefix(errs[i].0, fields) + ": " + errs[i].1[k]
  {
    var n := |errs| - 1;
    ErrorLinesCount(errs[..n], fields);
    assert errs[..n + 1] == errs;
    if i == n {
      assert errs[..i] == errs[..n];
    } else {
      assert errs[..n][..i] == errs[..i];
      ErrorLineAt(errs[..n], fields, i, k);
    }
  }

  /** `form_invalid`'s two nested loops: for every field, for every error of
      that field, one line. */
  method FormInvalidMessages(errs: FormErrors, fields: FieldLabels) returns (lines: seq<string>)
    ensures lines == ErrorLines(errs, fields)
    ensures |lines| == ErrorCount(errs)
  {
    lines := [];
    var i := 0;
    while i < |errs|
      invariant 0 <= i <= |errs|
      invariant lines == ErrorLines(errs[..i], fields)
    {
      var (field, errors) := errs[i];
      var j := 0;
      while j < |errors|
        invariant 0 <= j <= |errors|
        invariant lines == ErrorLines(errs[..i], fields) + FieldLines(field, errors[..j], fields)
      {
        assert errors[..j + 1][..j] == errors[..j];
        lines := lines + [Prefix(field, fields) + ": " + errors[j]];
        j := j + 1;
      }
      assert errors[..j] == errors;
      assert errs[..i + 1][..i] == errs[..i];
      i := i + 1;
    }
    assert errs[..i] == errs;
    ErrorLinesCount(errs, fields);
  }

  // ---------------------------------------------------------------------
  // The redirect target's scheme

  /** The schemes `HttpResponseRedirect` accepts. */
  const ALLOWED_SCHEMES: set<string> := {"http", "https", "ftp"}

  predicate IsAsciiLetter(c: char) { 'a' <= c <= 'z' || 'A' <= c <= 'Z' }

  predicate IsSchemeChar(c: char) { IsAsciiLetter(c) || IsDigit(c) || c == '+' || c == '-' || c == '.' }

  /** `urlsplit` first drops the leading C0 controls and spaces. */
  function DropLeadingControls(url: string): (r: string)
    ensures |r| <= |url| && r == url[|url| - |r|..]
    ensures r == [] || r[0] > ' '
  {
    if url != [] && url[0] <= ' ' then DropLeadingControls(url[1..]) else url
  }

  /** ... and then removes every tab, carriage return and line feed. */
  function DropTabsAndNewlines(url: string): (r: string)
    ensures forall i :: 0 <= i < |r| ==> r[i] != '\t' && r[i] != '\r' && r[i] != '\n'
  {
    if url == [] then []
    else
      var rest := DropTabsAndNewlines(url[1..]);
      if url[0] == '\t' || url[0] == '\r' || url[0] == '\n' then rest else [url[0]] + rest
  }

  /** The position of the first ':', or the length when there is none. */
  function ColonAt(u: string): (i: nat)
    ensures i <= |u|
    ensures forall k :: 0 <= k < i ==> u[k] != ':'
    ensures i < |u| ==> u[i] == ':'
  {
    if u == [] || u[0] == ':' then 0 else 1 + ColonAt(u[1..])
  }

  /** Whether the text of `u` before position `i` is a scheme: it is
      followed by the ':' at `i`, starts with an ASCII letter and holds only
      scheme characters. */
  predicate SchemeEndsAt(u: string, i: nat)
  {
    0 < i < |u| && IsAsciiLetter(u[0]) && forall k :: 0 <= k < i ==> IsSchemeChar(u[k])
  }

  /** The scheme `urlparse` finds, lower-cased: the text before the first
      ':' when it is a scheme, "" otherwise. */
  function UrlScheme(url: string): string
  {
    var u := DropTabsAndNewlines(DropLeadingControls(url));
    var i := ColonAt(u);
    if SchemeEndsAt(u, i) then AsciiLower(u[..i]) else ""
  }

  /** `HttpResponseRedirect` raises `DisallowedRedirect` for a target with
      a scheme other than http, https and ftp. */
  predicate RedirectAllowed(url: string)
  {
    UrlScheme(url) == "" || UrlScheme(url) in ALLOWED_SCHEMES
  }

  /** Only a non-empty `next` can be refused: the named routes resolve to
      paths, which every redirect accepts. */
  predicate NextRefused(next: Option<string>)
  {
    next.Some? && next.value != "" && !RedirectAllowed(next.value)
  }

  /** Removing tabs and newlines leaves a string without them unchanged. */
  lemma {:induction false} NoTabsUnchanged(s: string)
    requires forall i :: 0 <= i < |s| ==> s[i] != '\t' && s[i] != '\r' && s[i] != '\n'
    ensures DropTabsAndNewlines(s) == s
  {
    if s != [] {
      NoTabsUnchanged(s[1..]);
      assert [s[0]] + s[1..] == s;
    }
  }

  /** The first ':' of `p + ":" + rest` is the one after `p` when `p` has none. */
  lemma ColonAfter(p: string, rest: string)
    requires forall i :: 0 <= i < |p| ==> p[i] != ':'
    ensures ColonAt(p + ":" + rest) == |p|
  {
    var u := p + ":" + rest;
    assert u[|p|] == ':';
  }

  /** A target made of a scheme `p`, a ':' and a `rest` without tabs or
      newlines has the scheme `p`, lower-cased. */
  lemma SchemeOf(p: string, rest: string)
    requires p != [] && IsAsciiLetter(p[0])
    requires forall i :: 0 <= i < |p| ==> IsSchemeChar(p[i])
    requires NoTabsOrNewlines(rest)
    ensures UrlScheme(p + ":" + rest) == AsciiLower(p)
  {
    SchemeAtColon(p, rest);
    PrefixOfJoin(p, rest);
  }

  lemma SchemeAtColon(p: string, rest: string)
    requires p != [] && IsAsciiLetter(p[0])
    requires forall i :: 0 <= i < |p| ==> IsSchemeChar(p[i])
    requires NoTabsOrNewlines(rest)
    ensures UrlScheme(p + ":" + rest) == AsciiLower((p + ":" + rest)[..|p|])
  {
    var u := p + ":" + rest;
    CleanedUrlKept(p, rest);
    ColonAfter(p, rest);
    SchemeBeforeColon(p, rest);
    UrlSchemeAt(u, u, |p|);
  }

  lemma PrefixOfJoin(p: string, rest: string)
    ensures (p + ":" + rest)[..|p|] == p
  {
  }

  lemma SchemeBeforeColon(p: string, rest: string)
    requires p != [] && IsAsciiLetter(p[0])
    requires forall i :: 0 <= i < |p| ==> IsSchemeChar(p[i])
    ensures SchemeEndsAt(p + ":" + rest, |p|)
  {
    var u := p + ":" + rest;
    assert forall k :: 0 <= k < |p| ==> u[k] == p[k];
  }

  lemma UrlSchemeAt(url: string, u: string, i: nat)
    requires DropTabsAndNewlines(DropLeadingControls(url)) == u
    requires ColonAt(u) == i
    requires SchemeEndsAt(u, i)
    ensures UrlScheme(url) == AsciiLower(u[..i])
  {
  }

  lemma CleanedUrlKept(p: string, rest: string)
    requires p != [] && IsAsciiLetter(p[0])
    requires forall i :: 0 <= i < |p| ==> IsSchemeChar(p[i])
    requires NoTabsOrNewlines(rest)
    ensures DropTabsAndNewlines(DropLeadingControls(p + ":" + rest)) == p + ":" + rest
  {
    LeadingLetterKept(p + ":" + rest);
    SchemeTextUnchanged(p, rest);
  }

  lemma SchemeTextUnchanged(p: string, rest: string)
    requires forall i :: 0 <= i < |p| ==> IsSchemeChar(p[i])
    requires NoTabsOrNewlines(rest)
    ensures DropTabsAndNewlines(p + ":" + rest) == p + ":" + rest
  {
    var u := p + ":" + rest;
    forall i | 0 <= i < |u| ensures u[i] != '\t' && u[i] != '\r' && u[i] != '\n' {
      if i < |p| {
        assert u[i] == p[i];
      } else if i > |p| {
        assert u[i] == rest[i - |p| - 1];
      }
    }
    NoTabsUnchanged(u);
  }

  lemma LeadingLetterKept(u: string)
    requires u != [] && IsAsciiLetter(u[0])
    ensures DropLeadingControls(u) == u
  {
  }

  /** Newlines and tabs are what `urlsplit` removes from a target. */
  predicate NoTabsOrNewlines(s: string)
  {
    forall i :: 0 <= i < |s| ==> s[i] != '\t' && s[i] != '\r' && s[i] != '\n'
  }

  /** A `next` such as "javascript:alert(1)" is refused. */
  lemma JavascriptRefused(rest: string)
    requires NoTabsOrNewlines(rest)
    ensures !RedirectAllowed("javascript" + ":" + rest)
  {
    SchemeOf("javascript", rest);
    JavascriptLower();
  }

  lemma JavascriptLower()
    ensures AsciiLower("javascript") == "javascript" && "javascript" !in ALLOWED_SCHEMES
  {
  }

  /** A `next` such as "HTTPS://shop.example/" has the scheme "https" and passes. */
  lemma HttpsAllowed(rest: string)
    requires NoTabsOrNewlines(rest)
    ensures RedirectAllowed("HTTPS" + ":" + rest)
  {
    SchemeOf("HTTPS", rest);
    HttpsLower();
  }

  lemma HttpsLower()
    ensures AsciiLower("HTTPS") == "https" && "https" in ALLOWED_SCHEMES
  {
  }

  /** A target without ':', such as a path, has no scheme and passes. */
  lemma NoColonRedirectAllowed(url: string)
    requires forall i :: 0 <= i < |url| ==> url[i] != ':'
    ensures RedirectAllowed(url)
  {
    DropTabsKeepsNoColon(DropLeadingControls(url));
  }

  lemma {:induction false} DropTabsKeepsNoColon(s: string)
    requires forall i :: 0 <= i < |s| ==> s[i] != ':'
    ensures forall i :: 0 <= i < |DropTabsAndNewlines(s)| ==> DropTabsAndNewlines(s)[i] != ':'
  {
    if s != [] {
      DropTabsKeepsNoColon(s[1..]);
    }
  }

  // ---------------------------------------------------------------------
  // form_valid

  /** Whether the framework's login step (`auth_login`, inside
      `super().form_valid`) raises. The other failure inside the `try`,
      the refused redirect, follows from the target and is not a
      parameter. */
  datatype Fault = NoFault | LoginRaises

  /** What the login attempt ends in: the messages flashed, whether the user
      is now logged in, and the redirect target when it succeeded. */
  datatype LoginOutcome = LoginOutcome(messages: seq<Message>, loggedIn: bool, redirect: Option<string>)

  function AsErrors(lines: seq<string>): (r: seq<Message>)
    ensures |r| == |lines|
    ensures forall i :: 0 <= i < |lines| ==> r[i] == Message(Error, lines[i])
  {
    if lines == [] then [] else [Message(Error, lines[0])] + AsErrors(lines[1..])
  }

  /** `form_valid` on a form that has authenticated `user` from the typed
      `email`: an inactive user gets the inactive message and the form's
      error lines and is not logged in. Otherwise the welcome message is
      flashed and `super().form_valid` logs the user in and builds the
      redirect to `get_success_url()`. When the login step raises, or the
      redirect refuses a `next` whose scheme is not http, https or ftp
      (after the login, so the user stays logged in), the generic error
      follows and the form's error lines are flashed instead of a
      redirect. The named routes resolve to paths, which every redirect
      accepts. Django's `AuthenticationForm` already refuses an inactive
      user before `form_valid` runs, so the inactive branch is not reached
      through the login form; the view still has it. */
  function LoginFormValid(email: string, user: User, next: Option<string>,
                          errs: FormErrors, fields: FieldLabels, fault: Fault): (r: LoginOutcome)
    ensures !user.isActive ==> !r.loggedIn && r.redirect.None?
                               && r.messages == [Message(Error, INACTIVE_ACCOUNT)] + AsErrors(ErrorLines(errs, fields))
    ensures r.loggedIn <==> user.isActive && fault.NoFault?
    ensures r.redirect.Some? <==> user.isActive && fault.NoFault? && !NextRefused(next)
    ensures r.redirect.Some? ==> r.redirect == Some(SuccessUrl(next, user))
                                 && r.messages == [Message(Success, "Welcome back, " + email + "!")]
    ensures user.isActive && r.redirect.None? ==>
              r.messages == [Message(Success, "Welcome back, " + email + "!"), Message(Error, LOGIN_FAILED)]
                            + AsErrors(ErrorLines(errs, fields))
  {
    var invalid := AsErrors(ErrorLines(errs, fields));
    if !user.isActive then LoginOutcome([Message(Error, INACTIVE_ACCOUNT)] + invalid, false, None)
    else
      var welcome := Message(Success, "Welcome back, " + email + "!");
      var target := SuccessUrl(next, user);
      if fault.LoginRaises? then LoginOutcome([welcome, Message(Error, LOGIN_FAILED)] + invalid, false, None)
      else if NextRefused(next) then LoginOutcome([welcome, Message(Error, LOGIN_FAILED)] + invalid, true, None)
      else LoginOutcome([welcome], true, Some(target))
  }

  /** Without `next`, or with a `next` holding no ':' (a path), an active
      user whose login goes through is redirected to `get_success_url()`. */
  lemma LoginRedirects(email: string, user: User, next: Option<string>, errs: FormErrors, fields: FieldLabels)
    requires user.isActive
    requires next.Some? ==> forall i :: 0 <= i < |next.value| ==> next.value[i] != ':'
    ensures LoginFormValid(email, user, next, errs, fields, NoFault).redirect == Some(SuccessUrl(next, user))
  {
    if next.Some? {
      NoColonRedirectAllowed(next.value);
    }
  }

  /** A `next` such as "javascript:alert(1)" leaves the user logged in,
      with the welcome message, the generic error and no redirect. */
  lemma LoginRefusesJavascript(email: string, user: User, rest: string, errs: FormErrors, fields: FieldLabels)
    requires user.isActive && NoTabsOrNewlines(rest)
    ensures var r := LoginFormValid(email, user, Some("javascript" + ":" + rest), errs, fields, NoFault);
              r.loggedIn && r.redirect.None?
              && r.messages[..2] == [Message(Success, "Welcome back, " + email + "!"), Message(Error, LOGIN_FAILED)]
  {
    JavascriptRefused(rest);
  }
}
