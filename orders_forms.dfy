/** The order forms (orders/forms.py): the checkout form, its pre-filling
    from the buyer's profile, and the status form's choices. */
module OrderForms {
  import opened Common
  import opened OrderModels

  // ---------------------------------------------------------------------
  // OrderForm: binding the posted values

  /** The fields the checkout form takes from the order, in order. */
  const ORDER_FORM_FIELDS: seq<string> := ["shipping_address", "billing_address", "phone_number", "notes"]

  /** `phone_number`'s `max_length`. */
  const PHONE_MAX := 20

  /** The posted value of a text field once cleaned: absent counts as
      empty, and surrounding whitespace is stripped. */
  function Cleaned(data: map<string, string>, name: string): (r: string)
    ensures name !in data ==> r == ""
    ensures name in data ==> r == Strip(data[name])
  {
    if name in data then Strip(data[name]) else ""
  }

  /** A text field's own checks: no NUL character, and, when required,
      not empty. */
  predicate TextOk(v: string, required: bool)
  {
    '\0' !in v && (required ==> v != "")
  }

  /** The field's name when its checks fail, nothing otherwise. */
  function ErrorIf(ok: bool, name: string): (r: seq<string>)
    ensures r == [] <==> ok
    ensures forall e :: e in r ==> e == name
  {
    if ok then [] else [name]
  }

  /** The fields that fail their checks, in form order, given the cleaned
      values. The three order columns without `blank=True` are required;
      the phone number has at most 20 characters; the notes are optional. */
  function FieldErrors(shipping: string, billing: string, phone: string, notes: string): seq<string>
  {
    ErrorIf(TextOk(shipping, true), "shipping_address")
      + ErrorIf(TextOk(billing, true), "billing_address")
      + ErrorIf(TextOk(phone, true) && |phone| <= PHONE_MAX, "phone_number")
      + ErrorIf(TextOk(notes, false), "notes")
  }

  /** Validating the cleaned values: the form's data, or the fields in
      error. The notes column is a `TextField`, whose form field cleans
      empty input to "" even though the column is nullable, so the notes
      are never null here. */
  function BindValues(shipping: string, billing: string, phone: string, notes: string)
    : Result<OrderFormData, seq<string>>
  {
    var errors := FieldErrors(shipping, billing, phone, notes);
    if errors != [] then Err(errors)
    else Ok(OrderFormData(shipping, billing, phone, Some(notes)))
  }

  /** Binding and validating the posted data. */
  function BindOrderForm(data: map<string, string>): Result<OrderFormData, seq<string>>
  {
    BindValues(Cleaned(data, "shipping_address"), Cleaned(data, "billing_address"),
               Cleaned(data, "phone_number"), Cleaned(data, "notes"))
  }

  /** The cleaned values are accepted exactly when the three required ones
      are non-empty, the phone number has at most 20 characters and none
      holds a NUL; what is accepted is those values. Otherwise only fields
      of the form are named. */
  lemma BindValuesResult(shipping: string, billing: string, phone: string, notes: string)
    ensures var r := BindValues(shipping, billing, phone, notes);
            && (r.Ok? <==> (&& TextOk(shipping, true) && TextOk(billing, true) && TextOk(phone, true)
                            && |phone| <= PHONE_MAX && TextOk(notes, false)))
            && (r.Ok? ==> && r.value.shippingAddress == shipping != ""
                          && r.value.billingAddress == billing != ""
                          && r.value.phoneNumber == phone != ""
                          && |r.value.phoneNumber| <= PHONE_MAX
                          && r.value.notes == Some(notes))
            && (r.Err? ==> r.error != [] && forall e :: e in r.error ==> e in ORDER_FORM_FIELDS)
  {
    var fields := ORDER_FORM_FIELDS;
    assert fields[0] == "shipping_address" && fields[1] == "billing_address"
        && fields[2] == "phone_number" && fields[3] == "notes";
  }

  /** The form accepts exactly the data whose three required fields are
      non-empty once stripped, with a phone number of at most 20
      characters and no NUL anywhere; what it accepts is the stripped
      text. Otherwise it names only fields of the form. */
  lemma BindOrderFormResult(data: map<string, string>)
    ensures var r := BindOrderForm(data);
            && (r.Ok? <==> (&& TextOk(Cleaned(data, "shipping_address"), true)
                            && TextOk(Cleaned(data, "billing_address"), true)
                            && TextOk(Cleaned(data, "phone_number"), true)
                            && |Cleaned(data, "phone_number")| <= PHONE_MAX
                            && TextOk(Cleaned(data, "notes"), false)))
            && (r.Ok? ==> && r.value.shippingAddress == Cleaned(data, "shipping_address") != ""
                          && r.value.billingAddress == Cleaned(data, "billing_address") != ""
                          && r.value.phoneNumber == Cleaned(data, "phone_number") != ""
                          && |r.value.phoneNumber| <= PHONE_MAX
                          && r.value.notes == Some(Cleaned(data, "notes")))
            && (r.Err? ==> r.error != [] && forall e :: e in r.error ==> e in ORDER_FORM_FIELDS)
  {
    BindValuesResult(Cleaned(data, "shipping_address"), Cleaned(data, "billing_address"),
                     Cleaned(data, "phone_number"), Cleaned(data, "notes"));
  }

  /** Keys outside the form's fields are ignored. */
  lemma BindIgnoresOtherKeys(data: map<string, string>, extra: map<string, string>)
    requires forall k :: k in extra ==> k !in ORDER_FORM_FIELDS
    ensures BindOrderForm(data + extra) == BindOrderForm(data - extra.Keys)
  {
    var d1 := data + extra;
    var d2 := data - extra.Keys;
    forall name | name in ORDER_FORM_FIELDS
      ensures Cleaned(d1, name) == Cleaned(d2, name)
    {
      assert name !in extra;
    }
    assert Cleaned(d1, "shipping_address") == Cleaned(d2, "shipping_address");
    assert Cleaned(d1, "billing_address") == Cleaned(d2, "billing_address");
    assert Cleaned(d1, "phone_number") == Cleaned(d2, "phone_number");
    assert Cleaned(d1, "notes") == Cleaned(d2, "notes");
  }

  // ---------------------------------------------------------------------
  // OrderForm: pre-filling from the profile

  /** The text columns of a user's profile. */
  datatype Profile = Profile(phoneNumber: Option<string>, address: Option<string>, city: Option<string>,
                             state: Option<string>, postalCode: Option<string>, country: Option<string>)

  /** The attributes a profile has: its model's fields. */
  const PROFILE_FIELDS: set<string> := {
    "id", "user", "image", "phone_number", "address", "city", "state", "postal_code",
    "country", "bio", "date_of_birth", "email_verified", "created_at", "updated_at"
  }

  /** Who opens the form: nobody passed in, an anonymous visitor, or a
      signed-in user with their profile. */
  datatype Requester = Anonymous | Authenticated(profile: Profile)

  const ATTRIBUTE_ERROR := "AttributeError"

  /** Reading a text attribute of a profile: its value, or Python's
      AttributeError for a name the profile does not have. */
  function ProfileAttr(p: Profile, name: string): (r: Result<Option<string>, string>)
    ensures r.Err? <==> name !in PROFILE_FIELDS
  {
    if name !in PROFILE_FIELDS then Err(ATTRIBUTE_ERROR)
    else if name == "phone_number" then Ok(p.phoneNumber)
    else if name == "address" then Ok(p.address)
    else if name == "city" then Ok(p.city)
    else if name == "state" then Ok(p.state)
    else if name == "postal_code" then Ok(p.postalCode)
    else if name == "country" then Ok(p.country)
    else Ok(None)
  }

  /** A value Python treats as true: present and not empty. */
  predicate Truthy(v: Option<string>)
  {
    v.Some? && v.value != ""
  }

  /** One step of the pre-filling: copies the profile's attribute `name`
      into the field's initial value when it is truthy. */
  function PrefillOne(initial: map<string, string>, p: Profile, name: string): Result<map<string, string>, string>
  {
    match ProfileAttr(p, name)
    case Err(e) => Err(e)
    case Ok(v) => Ok(if Truthy(v) then initial[name := v.value] else initial)
  }

  /** The pre-filling as written: for a signed-in user, the shipping
      address, the billing address and the phone number of the profile, in
      that order. */
  function PrefillAsWritten(user: Option<Requester>): Result<map<string, string>, string>
  {
    if user.None? || user.value.Anonymous? then Ok(map[])
    else
      var p := user.value.profile;
      match PrefillOne(map[], p, "shipping_address")
      case Err(e) => Err(e)
      case Ok(m1) =>
        match PrefillOne(m1, p, "billing_address")
        case Err(e) => Err(e)
        case Ok(m2) => PrefillOne(m2, p, "phone_number")
  }

  /** A profile has no address attribute of either kind: for any signed-in
      user the form raises before it is built. */
  lemma PrefillAsWrittenFails(p: Profile)
    ensures PrefillAsWritten(Some(Authenticated(p))) == Err(ATTRIBUTE_ERROR)
  {
    assert "shipping_address" !in PROFILE_FIELDS;
  }

  /** An attribute the profile lacks reads as absent. */
  function ProfileValue(p: Profile, name: string): Option<string>
  {
    match ProfileAttr(p, name)
    case Err(_) => None
    case Ok(v) => v
  }

  function CopyIfTruthy(initial: map<string, string>, name: string, v: Option<string>): map<string, string>
  {
    if Truthy(v) then initial[name := v.value] else initial
  }

  /** The pre-filling as intended: each of the three fields the profile
      holds a non-empty value for starts with that value. */
  function Prefill(user: Option<Requester>): map<string, string>
  {
    if user.None? || user.value.Anonymous? then map[]
    else
      var p := user.value.profile;
      var m1 := CopyIfTruthy(map[], "shipping_address", ProfileValue(p, "shipping_address"));
      var m2 := CopyIfTruthy(m1, "billing_address", ProfileValue(p, "billing_address"));
      CopyIfTruthy(m2, "phone_number", ProfileValue(p, "phone_number"))
  }

  /** Nothing is pre-filled without a signed-in user; a signed-in user's
      form starts with the profile's phone number when it has one, and the
      addresses start empty. */
  lemma PrefillResult(user: Option<Requester>)
    ensures user.None? || user.value.Anonymous? ==> Prefill(user) == map[]
    ensures user.Some? && user.value.Authenticated? ==>
              var p := user.value.profile;
              && "shipping_address" !in Prefill(user) && "billing_address" !in Prefill(user)
              && ("phone_number" in Prefill(user) <==> Truthy(p.phoneNumber))
              && (Truthy(p.phoneNumber) ==> Prefill(user)["phone_number"] == p.phoneNumber.value)
  {
    if user.Some? && user.value.Authenticated? {
      assert "shipping_address" !in PROFILE_FIELDS && "billing_address" !in PROFILE_FIELDS;
      assert "phone_number" in PROFILE_FIELDS;
    }
  }

  /** Where the code as written gets through, it pre-fills what the
      intended version does. */
  lemma PrefillAgrees(user: Option<Requester>)
    ensures PrefillAsWritten(user).Ok? ==> PrefillAsWritten(user).value == Prefill(user)
  {
    if user.Some? && user.value.Authenticated? {
      PrefillAsWrittenFails(user.value.profile);
    }
  }

  // ---------------------------------------------------------------------
  // OrderStatusUpdateForm: the status choices

  /** The empty choice a required choice field without a default gets. */
  const BLANK_CHOICE: (string, string) := ("", "---------")

  /** The choices other than `current`, in order. */
  function WithoutStatus(choices: seq<(string, string)>, current: string): seq<(string, string)>
  {
    if choices == [] then []
    else (if choices[0].0 == current then [] else [choices[0]]) + WithoutStatus(choices[1..], current)
  }

  /** A choice is kept exactly when its value is not `current`. */
  lemma {:induction false} WithoutStatusMembers(choices: seq<(string, string)>, current: string)
    ensures forall c :: c in WithoutStatus(choices, current) <==> c in choices && c.0 != current
  {
    if choices != [] {
      WithoutStatusMembers(choices[1..], current);
      assert choices == [choices[0]] + choices[1..];
    }
  }

  /** A list without the value is kept as it is. */
  lemma {:induction false} WithoutAbsent(choices: seq<(string, string)>, current: string)
    requires current !in ChoiceKeys(choices)
    ensures WithoutStatus(choices, current) == choices
  {
    if choices != [] {
      assert ChoiceKeys(choices)[1..] == ChoiceKeys(choices[1..]);
      WithoutAbsent(choices[1..], current);
      assert choices == [choices[0]] + choices[1..];
    }
  }

  /** With distinct values, exactly the one entry holding `current` is
      dropped and the others keep their order. */
  lemma {:induction false} WithoutOnce(choices: seq<(string, string)>, current: string, i: nat)
    requires i < |choices| && choices[i].0 == current
    requires forall j :: 0 <= j < |choices| && j != i ==> choices[j].0 != current
    ensures WithoutStatus(choices, current) == choices[..i] + choices[i + 1..]
  {
    if i == 0 {
      assert current !in ChoiceKeys(choices[1..]);
      WithoutAbsent(choices[1..], current);
    } else {
      WithoutOnce(choices[1..], current, i - 1);
      assert choices[1..][..i - 1] == choices[1..i];
      assert choices[..i] == [choices[0]] + choices[1..i];
      assert choices[1..][i..] == choices[i + 1..];
    }
  }

  /** The order statuses are five distinct values. */
  lemma StatusKeysDistinct()
    ensures forall i, j :: 0 <= i < j < |STATUS_CHOICES| ==> STATUS_CHOICES[i].0 != STATUS_CHOICES[j].0
  {
  }

  /** Dropping a value held by exactly one entry of a list with distinct
      values leaves the entries before and after it. */
  lemma ListedShape(choices: seq<(string, string)>, s: string)
    requires s in ChoiceKeys(choices)
    requires forall i, j :: 0 <= i < j < |choices| ==> choices[i].0 != choices[j].0
    ensures exists i :: 0 <= i < |choices| && choices[i].0 == s
                        && [BLANK_CHOICE] + WithoutStatus(choices, s) == [BLANK_CHOICE] + choices[..i] + choices[i + 1..]
  {
    var i :| 0 <= i < |choices| && ChoiceKeys(choices)[i] == s;
    assert choices[i].0 == s;
    forall j | 0 <= j < |choices| && j != i
      ensures choices[j].0 != s
    {
      if j < i {
        assert choices[j].0 != choices[i].0;
      } else {
        assert choices[i].0 != choices[j].0;
      }
    }
    WithoutOnce(choices, s, i);
    var before, after := choices[..i], choices[i + 1..];
    ConcatAssoc([BLANK_CHOICE], before, after);
  }

  /** The choices of the status field: the empty choice, then the order
      statuses, without the order's current one when an order is given. */
  function StatusUpdateChoices(order: Option<Order>): seq<(string, string)>
  {
    [BLANK_CHOICE] + (if order.Some? then WithoutStatus(STATUS_CHOICES, order.value.status) else STATUS_CHOICES)
  }

  /** With an order, the field offers the empty choice first and then
      exactly the order statuses other than the current one. */
  lemma StatusUpdateChoicesOffered(order: Order)
    ensures StatusUpdateChoices(Some(order))[0] == BLANK_CHOICE
    ensures forall c :: c in StatusUpdateChoices(Some(order))[1..] <==> (c in STATUS_CHOICES && c.0 != order.status)
  {
    WithoutStatusMembers(STATUS_CHOICES, order.status);
    assert StatusUpdateChoices(Some(order))[1..] == WithoutStatus(STATUS_CHOICES, order.status);
  }

  /** The statuses keep the model's order: for an order in a listed status
      the field offers the empty choice and the four others; for any other
      value, and without an order, all five. */
  lemma StatusUpdateChoicesShape(order: Option<Order>)
    ensures order.None? ==> StatusUpdateChoices(order) == [BLANK_CHOICE] + STATUS_CHOICES
    ensures order.Some? && IsOrderStatus(order.value.status) ==>
              exists i :: 0 <= i < |STATUS_CHOICES| && STATUS_CHOICES[i].0 == order.value.status
                          && StatusUpdateChoices(order) == [BLANK_CHOICE] + STATUS_CHOICES[..i] + STATUS_CHOICES[i + 1..]
    ensures order.Some? && !IsOrderStatus(order.value.status) ==>
              StatusUpdateChoices(order) == [BLANK_CHOICE] + STATUS_CHOICES
  {
    if order.Some? {
      var s := order.value.status;
      var r := StatusUpdateChoices(order);
      if IsOrderStatus(s) {
        StatusKeysDistinct();
        ListedShape(STATUS_CHOICES, s);
      } else {
        WithoutAbsent(STATUS_CHOICES, s);
      }
    }
  }

  /** The status form's field, once built. */
  class StatusUpdateForm {
    var statusChoices: seq<(string, string)>

    /** `OrderStatusUpdateForm(order=...)`. */
    constructor (order: Option<Order>)
      ensures statusChoices == StatusUpdateChoices(order)
    {
      var choices := STATUS_CHOICES;
      if order.Some? {
        choices := WithoutStatus(choices, order.value.status);
      }
      statusChoices := [BLANK_CHOICE] + choices;
    }
  }
}
