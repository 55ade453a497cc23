/** The administrator's "Create New User" dialog (`CreateUserModal`): six
    fields, their rules, and the request sent when all of them pass. */
module CreateUserModal {
  import opened Wrappers
  import opened Validation
  import Api
  import AppRoutes

  const NameRule := LengthRule(20, 60)
  const RoleRule := Required

  /** The values the role `<select>` offers; the first is the placeholder. */
  const RoleOptions := ["", "admin", "user", "store_owner"]

  /** The rule of each field (the confirmation is checked on its own). */
  const Rules: map<string, Rule> :=
    map["name" := NameRule, "email" := EmailRule, "password" := PasswordRule,
        "address" := AddressRule, "role" := RoleRule]

  /** Every registered field; all of them are sent. */
  const Fields: set<string> := {"name", "email", "password", "confirmPassword", "address", "role"}

  /** `handleSubmit` lets the form through. */
  predicate Valid(form: Form) {
    AllAccepted(Rules, form)
    && ConfirmAccepts(FieldValue(form, "confirmPassword"), FieldValue(form, "password"))
  }

  /** The form passes exactly when the name has 20 to 60 characters, the
      e-mail has the shape of an address, the password meets the policy and
      is repeated, the address has at most 400 characters and a role is
      chosen. */
  lemma {:induction false} ValidMeaning(form: Form)
    ensures Valid(form) <==>
      && 20 <= |FieldValue(form, "name")| <= 60
      && EmailShape(FieldValue(form, "email"))
      && 8 <= |FieldValue(form, "password")| <= 16 && PasswordRegex(FieldValue(form, "password"))
      && FieldValue(form, "confirmPassword") == FieldValue(form, "password")
      && |FieldValue(form, "address")| <= 400
      && FieldValue(form, "role") != ""
  {
    var name, email, password := FieldValue(form, "name"), FieldValue(form, "email"), FieldValue(form, "password");
    var address := FieldValue(form, "address");
    var role := FieldValue(form, "role");
    assert AllAccepted(Rules, form) <==>
              Accepts(NameRule, name) && Accepts(EmailRule, email)
              && Accepts(PasswordRule, password) && Accepts(AddressRule, address)
              && Accepts(RoleRule, role) by {
      assert Rules.Keys == {"name", "email", "password", "address", "role"};
    }
    var confirm := FieldValue(form, "confirmPassword");
    assert Valid(form) <==>
              Accepts(NameRule, name) && Accepts(EmailRule, email)
              && Accepts(PasswordRule, password) && Accepts(AddressRule, address)
              && Accepts(RoleRule, role) && confirm != "" && confirm == password;
    LengthRuleMeaning(20, 60, name);
    EmailRuleMeaning(email);
    PasswordRuleMeaning(password);
    AddressRuleMeaning(address);
    RequiredMeaning(role);
  }

  /** Of the offered values only the three roles pass, and each of them is
      a role the route table sends to its own dashboard. */
  lemma RoleChoices(o: string)
    requires o in RoleOptions
    ensures Accepts(RoleRule, o) <==> o in {"admin", "user", "store_owner"}
    ensures Accepts(RoleRule, o) ==> AppRoutes.KnownRole(Some(o))
  {
  }

  class CreateUserModalState {
    var loading: bool
    /** The last error toast raised by the dialog. */
    var toast: Option<string>

    constructor ()
      ensures !loading && toast == None
    {
      loading := false;
      toast := None;
    }

    /** `disabled={loading}`. */
    predicate SubmitDisabled()
      reads this
    {
      loading
    }

    /** A press of "Create User": `handleSubmit(onSubmit)` up to the `await`.
        The button is disabled while a request is in flight; otherwise an
        invalid form only shows its errors, and a valid one sends the whole
        form data, the confirmation included. */
    method BeginSubmit(form: Form) returns (request: Option<Api.Request>)
      modifies this
      ensures request.Some? <==> !old(loading) && Valid(form)
      ensures request.Some? ==> request.value == Api.Call(Api.CreateUser, FormBody(form, Fields), map[])
      ensures request.Some? ==> "confirmPassword" in request.value.body && SubmitDisabled()
      ensures request.None? ==> loading == old(loading)
      ensures toast == old(toast)
    {
      if loading || !Valid(form) {
        request := None;
        return;
      }
      loading := true;
      request := Some(Api.Call(Api.CreateUser, FormBody(form, Fields), map[]));
    }

    /** The rest of `onSubmit` once the request settles: `onSuccess` runs
        (the result is `true`) only on success; a failure shows its message;
        `loading` is reset either way. */
    method FinishSubmit(reply: Result<()>) returns (onSuccess: bool)
      modifies this
      ensures onSuccess <==> reply.Ok?
      ensures toast == (if reply.Err? then Some(reply.message) else old(toast))
      ensures !loading
    {
      onSuccess := reply.Ok?;
      if reply.Err? {
        toast := Some(reply.message);
      }
      loading := false;
    }
  }
}
