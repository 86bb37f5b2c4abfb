/** The account model (users/models.py): the custom user keyed by e-mail,
    its manager's creation rules, name formatting and the profile image path. */
module UserModels {
  import opened Common

  type UserId = nat

  /** A stored user. `isSuperuser` comes from the permissions mixin. */
  datatype User = User(id: UserId, email: string, firstName: string, lastName: string,
                       isActive: bool, isStaff: bool, isSuperuser: bool)

  // ---------------------------------------------------------------------
  // Profile image upload path

  const PROFILE_IMAGES_DIR := "/profile_images/"

  /** Where an uploaded profile image is stored: `user_<id>/profile_images/<filename>`. */
  function UserProfileImagePath(userId: UserId, filename: string): string
  {
    "user_" + NatToString(userId) + PROFILE_IMAGES_DIR + filename
  }

  /** Reads a storage path back into the owner's id and the file name. */
  function ParseProfileImagePath(path: string): Option<(UserId, string)>
  {
    if |path| < 5 || path[..5] != "user_" then None
    else
      var rest := path[5..];
      var n := DigitPrefixLength(rest);
      var tail := rest[n..];
      if n == 0 || |tail| < |PROFILE_IMAGES_DIR| || tail[..|PROFILE_IMAGES_DIR|] != PROFILE_IMAGES_DIR then None
      else Some((DigitsValue(rest[..n]), tail[|PROFILE_IMAGES_DIR|..]))
  }

  function DigitPrefixLength(s: string): (n: nat)
    ensures n <= |s| && AllDigits(s[..n])
    ensures n < |s| ==> !IsDigit(s[n])
  {
    if s == [] || !IsDigit(s[0]) then 0
    else
      var m := DigitPrefixLength(s[1..]);
      assert s[..m + 1] == [s[0]] + s[1..][..m];
      m + 1
  }

  lemma {:induction false} DigitPrefixOf(d: string, rest: string)
    requires AllDigits(d)
    requires rest == [] || !IsDigit(rest[0])
    ensures DigitPrefixLength(d + rest) == |d|
  {
    if d != [] {
      assert (d + rest)[1..] == d[1..] + rest;
      DigitPrefixOf(d[1..], rest);
    }
  }

  /** The path names the user and the file unambiguously: both are recovered
      from it, whatever the file name is. */
  lemma ProfileImagePathRoundTrip(userId: UserId, filename: string)
    ensures ParseProfileImagePath(UserProfileImagePath(userId, filename)) == Some((userId, filename))
  {
    var digits := NatToString(userId);
    var path := UserProfileImagePath(userId, filename);
    var rest := path[5..];
    assert rest == digits + (PROFILE_IMAGES_DIR + filename);
    DigitPrefixOf(digits, PROFILE_IMAGES_DIR + filename);
    assert rest[..|digits|] == digits;
    assert rest[|digits|..] == PROFILE_IMAGES_DIR + filename;
    NatToStringRoundTrip(userId);
  }

  // ---------------------------------------------------------------------
  // UserManager

  /** `BaseUserManager.normalize_email`: an address containing '@' is
      stripped of surrounding whitespace and its domain part (after the last
      '@') is lower-cased; an address without '@' is kept as given. */
  function NormalizeEmail(email: string): (r: string)
    ensures '@' !in email ==> r == email
    ensures '@' in email <==> '@' in r
    ensures |r| <= |email|
  {
    if '@' !in email then email
    else
      AtSurvivesStrip(email);
      LowerDomain(Strip(email))
  }

  /** Lower-cases what follows the last '@'. */
  function LowerDomain(s: string): (r: string)
    requires '@' in s
    ensures |r| == |s|
    ensures forall k :: 0 <= k <= LastAt(s) ==> r[k] == s[k]
    ensures forall k :: LastAt(s) < k < |s| ==> r[k] == AsciiLowerChar(s[k])
  {
    var at := LastAt(s);
    s[..at + 1] + AsciiLower(s[at + 1..])
  }

  function LastAt(s: string): (i: int)
    ensures -1 <= i < |s|
    ensures i >= 0 ==> s[i] == '@'
    ensures forall k :: i < k < |s| ==> s[k] != '@'
  {
    if s == [] then -1
    else if s[|s| - 1] == '@' then |s| - 1
    else LastAt(s[..|s| - 1])
  }

  lemma AtSurvivesStrip(e: string)
    requires '@' in e
    ensures '@' in Strip(e) && |Strip(e)| <= |e|
  {
    var r := Strip(e);
    var i, j :| IsTrimOf(e, r, i, j);
    var k :| 0 <= k < |e| && e[k] == '@';
    KeptByTrim(e, r, i, j, k);
    assert r[k - i] == '@';
  }

  lemma LastAtIs(s: string, i: int)
    requires 0 <= i < |s| && s[i] == '@'
    requires forall k :: i < k < |s| ==> s[k] != '@'
    ensures LastAt(s) == i
  {
  }

  lemma StripOfTrimmed(x: string)
    requires x != [] && !IsPySpace(x[0]) && !IsPySpace(x[|x| - 1])
    ensures Strip(x) == x
  {
    assert StripLeft(x) == x;
    assert StripRight(x) == x;
  }

  lemma LowerDomainLastAt(s: string)
    requires '@' in s
    ensures LastAt(LowerDomain(s)) == LastAt(s)
  {
    var r := LowerDomain(s);
    assert forall k :: LastAt(s) < k < |r| ==> r[k] != '@';
    LastAtIs(r, LastAt(s));
  }

  /** The shape of a domain-lowered address: same last '@', domain already
      in lower case, so lowering again changes nothing. */
  lemma LowerDomainFacts(s: string)
    requires '@' in s
    ensures var r := LowerDomain(s);
            && LastAt(r) == LastAt(s) && LowerDomain(r) == r
            && (forall k :: LastAt(r) < k < |r| ==> !IsAsciiUpper(r[k]))
  {
    var r := LowerDomain(s);
    LowerDomainLastAt(s);
    var r2 := LowerDomain(r);
    assert forall k :: 0 <= k < |r| ==> r2[k] == r[k];
  }

  lemma LowerDomainTrimmed(s: string)
    requires '@' in s
    requires !IsPySpace(s[0]) && !IsPySpace(s[|s| - 1])
    ensures Strip(LowerDomain(s)) == LowerDomain(s)
  {
    var at := LastAt(s);
    var r := LowerDomain(s);
    assert r[0] == (if at == 0 then '@' else s[0]);
    assert r[|r| - 1] == (if at + 1 == |s| then '@' else AsciiLowerChar(s[|s| - 1]));
    StripOfTrimmed(r);
  }

  /** Normalising twice changes nothing more than normalising once. */
  lemma NormalizeEmailIdempotent(email: string)
    ensures NormalizeEmail(NormalizeEmail(email)) == NormalizeEmail(email)
  {
    if '@' in email {
      AtSurvivesStrip(email);
      var s := Strip(email);
      var r := LowerDomain(s);
      assert NormalizeEmail(email) == r;
      LowerDomainFacts(s);
      LowerDomainTrimmed(s);
      assert '@' in r;
    }
  }

  /** After normalisation, no ASCII capital letter is left in the domain part. */
  lemma NormalizedDomainIsLower(email: string)
    requires '@' in email
    ensures var r := NormalizeEmail(email);
            forall k :: LastAt(r) < k < |r| ==> !IsAsciiUpper(r[k])
  {
    AtSurvivesStrip(email);
    LowerDomainFacts(Strip(email));
  }

  const EMAIL_REQUIRED := "The Email field must be set"
  const STAFF_REQUIRED := "Superuser must have is_staff=True."
  const SUPERUSER_REQUIRED := "Superuser must have is_superuser=True."

  /** The boolean flag `key` of the extra fields, or the model default. */
  function Flag(extra: map<string, bool>, key: string, default: bool): bool
  {
    if key in extra then extra[key] else default
  }

  /** `create_user`: an empty e-mail is refused; otherwise the user gets the
      normalised e-mail and the flags given in `extra`, each defaulting to
      the model's default (active, not staff, not superuser). */
  function CreateUser(id: UserId, email: string, extra: map<string, bool>): (r: Result<User, string>)
    ensures r.Err? <==> email == ""
    ensures r.Err? ==> r.error == EMAIL_REQUIRED
    ensures r.Ok? ==> r.value.id == id && r.value.email == NormalizeEmail(email)
                      && r.value.firstName == "" && r.value.lastName == ""
    ensures r.Ok? ==> r.value.isActive == Flag(extra, "is_active", true)
                      && r.value.isStaff == Flag(extra, "is_staff", false)
                      && r.value.isSuperuser == Flag(extra, "is_superuser", false)
  {
    if email == "" then Err(EMAIL_REQUIRED)
    else Ok(User(id, NormalizeEmail(email), "", "",
                 Flag(extra, "is_active", true), Flag(extra, "is_staff", false),
                 Flag(extra, "is_superuser", false)))
  }

  /** `dict.setdefault` on the flags. */
  function SetDefault(extra: map<string, bool>, key: string, value: bool): (r: map<string, bool>)
    ensures key in r && r[key] == (if key in extra then extra[key] else value)
    ensures forall k :: k != key ==> (k in r <==> k in extra) && (k in extra ==> r[k] == extra[k])
  {
    if key in extra then extra else extra[key := value]
  }

  /** `create_superuser`: the flags default to true; the staff check comes
      first, then the superuser check, then `create_user`'s e-mail check. A
      created superuser is always staff and superuser, and is active unless
      the caller said otherwise. */
  function CreateSuperuser(id: UserId, email: string, extra: map<string, bool>): (r: Result<User, string>)
    ensures r == Err(STAFF_REQUIRED) <==> !Flag(extra, "is_staff", true)
    ensures r == Err(SUPERUSER_REQUIRED) <==> Flag(extra, "is_staff", true) && !Flag(extra, "is_superuser", true)
    ensures r == Err(EMAIL_REQUIRED) <==> Flag(extra, "is_staff", true) && Flag(extra, "is_superuser", true) && email == ""
    ensures r.Ok? ==> r.value.isStaff && r.value.isSuperuser
                      && r.value.isActive == Flag(extra, "is_active", true)
                      && r.value.email == NormalizeEmail(email)
  {
    var e1 := SetDefault(extra, "is_staff", true);
    var e2 := SetDefault(e1, "is_superuser", true);
    var e3 := SetDefault(e2, "is_active", true);
    if !e3["is_staff"] then Err(STAFF_REQUIRED)
    else if !e3["is_superuser"] then Err(SUPERUSER_REQUIRED)
    else CreateUser(id, email, e3)
  }

  // ---------------------------------------------------------------------
  // Names

  /** `get_full_name`: first and last name joined by one space, then stripped. */
  function GetFullName(u: User): (r: string)
    ensures u.firstName == "" && u.lastName == "" ==> r == ""
    ensures r == [] || (!IsPySpace(r[0]) && !IsPySpace(r[|r| - 1]))
  {
    StripOfSpace();
    Strip(u.firstName + " " + u.lastName)
  }

  /** Two empty names joined by a space strip to nothing. */
  lemma StripOfSpace()
    ensures Strip("" + " " + "") == ""
  {
    assert "" + " " + "" == " ";
    assert IsPySpace(' ');
    assert " "[1..] == [];
    assert StripLeft(" ") == StripLeft("");
  }

  /** Names without surrounding whitespace come out exactly as
      "<first> <last>". */
  lemma FullNameOfTrimmedNames(u: User)
    requires u.firstName != "" && u.lastName != ""
    requires !IsPySpace(u.firstName[0]) && !IsPySpace(u.lastName[|u.lastName| - 1])
    ensures GetFullName(u) == u.firstName + " " + u.lastName
  {
    var s := u.firstName + " " + u.lastName;
    assert s[0] == u.firstName[0];
    assert s[|s| - 1] == u.lastName[|u.lastName| - 1];
    assert StripLeft(s) == s;
    assert StripRight(s) == s;
  }

  /** `get_short_name`: the first name alone. */
  function GetShortName(u: User): string
  {
    u.firstName
  }

  /** The short name begins the full name whenever the first name carries no
      surrounding whitespace, whatever the last name is. */
  lemma ShortNameBeginsFullName(u: User)
    requires u.firstName != ""
    requires !IsPySpace(u.firstName[0]) && !IsPySpace(u.firstName[|u.firstName| - 1])
    ensures |GetShortName(u)| <= |GetFullName(u)|
    ensures GetFullName(u)[..|GetShortName(u)|] == GetShortName(u)
  {
    var f := u.firstName;
    var s := f + " " + u.lastName;
    assert s[0] == f[0];
    assert StripLeft(s) == s;
    var r := StripRight(s);
    assert s[|f| - 1] == f[|f| - 1];
    assert |r| >= |f|;
    assert r[..|f|] == s[..|f|] == f;
  }
}
