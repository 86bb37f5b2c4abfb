/** The registration form's own rules (users/forms/authentication.py): the
    password length check, the e-mail uniqueness check and the reset of every
    field's error messages when the form is built. */
module UserAuthForms {
  import opened Common

  /** A form validation error: its message and, when given, its code. */
  datatype ValidationError = ValidationError(message: string, code: Option<string>)

  /** Both password fields declare this minimum length. */
  const PASSWORD_MIN_LENGTH: nat := 8

  const PASSWORD_TOO_SHORT := "Le mot de passe doit contenir au moins 8 caract\U{e8}res."
  const EMAIL_TAKEN := "Un utilisateur avec cet email existe d\U{e9}j\U{e0}."
  const FIELD_REQUIRED := "Ce champ est obligatoire."

  /** The field-level check both password fields declare (`min_length`). */
  predicate MeetsMinLength(password: string)
  {
    |password| >= PASSWORD_MIN_LENGTH
  }

  /** `clean_password1`: a password of fewer than 8 characters is refused,
      any other is returned unchanged. */
  function CleanPassword1(password: string): (r: Result<string, ValidationError>)
    ensures r.Err? <==> |password| < 8
    ensures r.Ok? ==> r.value == password
    ensures r.Err? ==> r.error == ValidationError(PASSWORD_TOO_SHORT, None)
  {
    if |password| < 8 then Err(ValidationError(PASSWORD_TOO_SHORT, None)) else Ok(password)
  }

  /** The method-level check repeats the field-level minimum exactly: a
      password passes one iff it passes the other. */
  lemma PasswordChecksAgree(password: string)
    ensures CleanPassword1(password).Ok? <==> MeetsMinLength(password)
  {
  }

  /** `clean_email`: an address some user already holds (exact match) is
      refused with code `unique_email`; any other is returned unchanged. */
  function CleanEmail(email: string, existing: set<string>): (r: Result<string, ValidationError>)
    ensures r.Err? <==> email in existing
    ensures r.Ok? ==> r.value == email
    ensures r.Err? ==> r.error == ValidationError(EMAIL_TAKEN, Some("unique_email"))
  {
    if email in existing then Err(ValidationError(EMAIL_TAKEN, Some("unique_email"))) else Ok(email)
  }

  /** Registering an address adds it to the existing ones, after which the
      same address is refused. */
  lemma CleanEmailRefusesRegistered(email: string, existing: set<string>)
    requires CleanEmail(email, existing).Ok?
    ensures CleanEmail(email, existing + {email}).Err?
  {
  }

  /** The registration form's fields, in form order. */
  const REGISTER_FIELDS: seq<string> := ["email", "first_name", "last_name", "password1", "password2"]

  /** The registration form as built: each field's error-message table. */
  class RegisterForm {
    const fieldNames: seq<string>
    var errorMessages: map<string, map<string, string>>

    /** Every field's table is the single 'required' message. */
    predicate MessagesReset()
      reads this
    {
      forall f :: f in fieldNames ==> f in errorMessages && errorMessages[f] == map["required" := FIELD_REQUIRED]
    }

    /** `__init__`: whatever tables the base class and `Meta` installed
        (`declared`), each field's table is replaced by the single 'required'
        message; tables of names that are not fields are left as they were. */
    constructor (declared: map<string, map<string, string>>)
      ensures fieldNames == REGISTER_FIELDS
      ensures MessagesReset()
      ensures forall k :: k !in fieldNames ==>
                (k in errorMessages <==> k in declared) && (k in declared ==> errorMessages[k] == declared[k])
    {
      fieldNames := REGISTER_FIELDS;
      errorMessages := declared;
      new;
      var i := 0;
      while i < |fieldNames|
        invariant 0 <= i <= |fieldNames|
        invariant forall j :: 0 <= j < i ==> fieldNames[j] in errorMessages
                                             && errorMessages[fieldNames[j]] == map["required" := FIELD_REQUIRED]
        invariant forall k :: k !in fieldNames ==>
                    (k in errorMessages <==> k in declared) && (k in declared ==> errorMessages[k] == declared[k])
      {
        errorMessages := errorMessages[fieldNames[i] := map["required" := FIELD_REQUIRED]];
        i := i + 1;
      }
    }
  }
}
