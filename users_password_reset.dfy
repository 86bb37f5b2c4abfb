/** The password-reset form's e-mail check (users/forms/password_reset.py). */
module PasswordResetForms {
  import opened Common
  import opened UserModels

  const NO_SUCH_USER := "There is no user registered with the specified email address!"

  /** `email__iexact`: equal once both sides are ASCII lower-cased. */
  predicate SameAddressIgnoringCase(a: string, b: string)
  {
    AsciiLower(a) == AsciiLower(b)
  }

  /** Some active user's address matches `email` without regard to case. */
  predicate HasActiveHolder(email: string, users: map<UserId, User>)
  {
    exists id :: id in users && users[id].isActive && SameAddressIgnoringCase(users[id].email, email)
  }

  /** `clean_email`: refused unless an active user's address matches
      without regard to case; an accepted address is returned as typed. */
  function ResetCleanEmail(email: string, users: map<UserId, User>): (r: Result<string, string>)
    ensures r.Ok? <==> HasActiveHolder(email, users)
    ensures r.Ok? ==> r.value == email
    ensures r.Err? ==> r.error == NO_SUCH_USER
  {
    if exists id :: id in users && users[id].isActive && SameAddressIgnoringCase(users[id].email, email)
    then Ok(email) else Err(NO_SUCH_USER)
  }

  /** Two spellings that differ only in case are accepted or refused alike,
      and each accepted spelling is returned as it was typed. */
  lemma ResetMatchIgnoresCase(e1: string, e2: string, users: map<UserId, User>)
    requires SameAddressIgnoringCase(e1, e2)
    ensures ResetCleanEmail(e1, users).Ok? <==> ResetCleanEmail(e2, users).Ok?
  {
    if HasActiveHolder(e1, users) {
      var id :| id in users && users[id].isActive && SameAddressIgnoringCase(users[id].email, e1);
      assert SameAddressIgnoringCase(users[id].email, e2);
    }
    if HasActiveHolder(e2, users) {
      var id :| id in users && users[id].isActive && SameAddressIgnoringCase(users[id].email, e2);
      assert SameAddressIgnoringCase(users[id].email, e1);
    }
  }

  /** Inactive users never make an address acceptable: removing one changes
      nothing. */
  lemma InactiveUsersIgnored(email: string, users: map<UserId, User>, id: UserId)
    requires id in users && !users[id].isActive
    ensures ResetCleanEmail(email, users - {id}) == ResetCleanEmail(email, users)
  {
    if HasActiveHolder(email, users) {
      var j :| j in users && users[j].isActive && SameAddressIgnoringCase(users[j].email, email);
      assert j in users - {id};
    }
  }

  /** An active user's own address is accepted in any mixture of case. */
  lemma ActiveUserAccepted(email: string, users: map<UserId, User>, id: UserId)
    requires id in users && users[id].isActive
    requires SameAddressIgnoringCase(users[id].email, email)
    ensures ResetCleanEmail(email, users) == Ok(email)
  {
  }
}
