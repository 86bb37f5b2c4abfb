/** The staff-side user forms (users/forms/user_management.py): the edit
    form's e-mail check and the create form's field defaults. */
module UserManagementForms {
  import opened Common
  import opened UserModels

  const EMAIL_IN_USE := "A user with that email already exists."

  /** Another user than the one being edited holds `email` (exact match). */
  predicate HeldByOther(email: string, emails: map<UserId, string>, instancePk: Option<UserId>)
  {
    exists id :: id in emails && emails[id] == email && Some(id) != instancePk
  }

  /** `UserEditForm.clean_email`: users holding the address are looked up
      with the edited user excluded by primary key; if any is left the
      address is refused, otherwise it is returned unchanged. */
  function EditCleanEmail(email: string, emails: map<UserId, string>, instancePk: Option<UserId>): (r: Result<string, string>)
    ensures r.Err? <==> HeldByOther(email, emails, instancePk)
    ensures r.Ok? ==> r.value == email
    ensures r.Err? ==> r.error == EMAIL_IN_USE
  {
    if exists id :: id in emails && emails[id] == email && Some(id) != instancePk
    then Err(EMAIL_IN_USE) else Ok(email)
  }

  /** Addresses are unique among users (the model's `unique=True`). */
  predicate UniqueEmails(emails: map<UserId, string>)
  {
    forall a, b :: a in emails && b in emails && emails[a] == emails[b] ==> a == b
  }

  /** A user who keeps their own address is accepted: the only holder is
      the excluded instance itself. */
  lemma KeepingOwnEmailAccepted(emails: map<UserId, string>, pk: UserId)
    requires UniqueEmails(emails)
    requires pk in emails
    ensures EditCleanEmail(emails[pk], emails, Some(pk)) == Ok(emails[pk])
  {
  }

  /** Taking over the address of any other user is refused. */
  lemma TakingOthersEmailRefused(emails: map<UserId, string>, pk: UserId, other: UserId)
    requires other in emails && other != pk
    ensures EditCleanEmail(emails[other], emails, Some(pk)).Err?
  {
    assert HeldByOther(emails[other], emails, Some(pk));
  }

  /** A field of the create form: whether it is required and its initial value. */
  datatype FieldSpec = FieldSpec(name: string, required: bool, initial: Option<Value>)

  /** `UserCreateForm`'s own fields, in form order. */
  const CREATE_FORM_FIELDS: seq<FieldSpec> := [
    FieldSpec("email", true, None),
    FieldSpec("first_name", false, None),
    FieldSpec("last_name", false, None),
    FieldSpec("is_active", false, Some(VBool(true))),
    FieldSpec("is_staff", false, None)
  ]

  /** The spec of the field called `name`, if the form has one. */
  function FieldNamed(fields: seq<FieldSpec>, name: string): (r: Option<FieldSpec>)
    ensures r.Some? ==> r.value in fields && r.value.name == name
    ensures r.None? ==> forall f :: f in fields ==> f.name != name
  {
    if fields == [] then None
    else if fields[0].name == name then Some(fields[0])
    else FieldNamed(fields[1..], name)
  }

  /** Only the e-mail is required; the names may be left empty; the account
      starts out active. */
  lemma CreateFormDefaults()
    ensures forall f :: f in CREATE_FORM_FIELDS ==> (f.required <==> f.name == "email")
    ensures FieldNamed(CREATE_FORM_FIELDS, "first_name").value.required == false
    ensures FieldNamed(CREATE_FORM_FIELDS, "last_name").value.required == false
    ensures FieldNamed(CREATE_FORM_FIELDS, "is_active").value.initial == Some(VBool(true))
  {
  }
}
