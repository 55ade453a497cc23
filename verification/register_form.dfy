/** The sign-up page (`Register`): its field rules, the request it sends and
    the session it opens. */
module RegisterForm {
  import opened Wrappers
  import opened Validation
  import Api
  import AuthContext
  import CreateUserModal

  const NameRule := LengthRule(3, 60)

  /** The rule of each field (the confirmation is checked on its own). */
  const Rules: map<string, Rule> :=
    map["name" := NameRule, "email" := EmailRule, "password" := PasswordRule, "address" := AddressRule]

  /** The fields copied into the request; the confirmation is not one. */
  const SentFields: set<string> := {"name", "email", "password", "address"}

  predicate Valid(form: Form) {
    AllAccepted(Rules, form)
    && ConfirmAccepts(FieldValue(form, "confirmPassword"), FieldValue(form, "password"))
  }

  /** The form passes exactly when the name has 3 to 60 characters, the
      e-mail has the shape of an address, the password meets the policy and
      is repeated, and the address has at most 400 characters. */
  lemma {:induction false} ValidMeaning(form: Form)
    ensures Valid(form) <==>
      && 3 <= |FieldValue(form, "name")| <= 60
      && EmailShape(FieldValue(form, "email"))
      && 8 <= |FieldValue(form, "password")| <= 16 && PasswordRegex(FieldValue(form, "password"))
      && FieldValue(form, "confirmPassword") == FieldValue(form, "password")
      && |FieldValue(form, "address")| <= 400
  {
    var name, email, password := FieldValue(form, "name"), FieldValue(form, "email"), FieldValue(form, "password");
    var address := FieldValue(form, "address");
    assert AllAccepted(Rules, form) <==>
              Accepts(NameRule, name) && Accepts(EmailRule, email)
              && Accepts(PasswordRule, password) && Accepts(AddressRule, address) by {
      assert Rules.Keys == {"name", "email", "password", "address"};
    }
    var confirm := FieldValue(form, "confirmPassword");
    assert Valid(form) <==>
              Accepts(NameRule, name) && Accepts(EmailRule, email)
              && Accepts(PasswordRule, password) && Accepts(AddressRule, address)
              && confirm != "" && confirm == password;
    LengthRuleMeaning(3, 60, name);
    EmailRuleMeaning(email);
    PasswordRuleMeaning(password);
    AddressRuleMeaning(address);
  }

  /** Every name the administrator's form accepts is accepted here, not the
      other way round; the password policy is the same rule in both. */
  lemma {:induction false} NamesWiderThanAdminForm(v: string)
    ensures Accepts(CreateUserModal.NameRule, v) ==> Accepts(NameRule, v)
    ensures Accepts(NameRule, "Ann") && !Accepts(CreateUserModal.NameRule, "Ann")
    ensures Rules["password"] == CreateUserModal.Rules["password"]
  {
    LengthRuleMeaning(20, 60, v);
    LengthRuleMeaning(3, 60, v);
    LengthRuleMeaning(3, 60, "Ann");
    LengthRuleMeaning(20, 60, "Ann");
  }

  class RegisterFormState {
    const session: AuthContext.AuthProvider
    var loading: bool
    /** The last error toast raised by the page. */
    var toast: Option<string>

    constructor (session: AuthContext.AuthProvider)
      ensures this.session == session && !loading && toast == None
    {
      this.session := session;
      loading := false;
      toast := None;
    }

    /** `disabled={loading}`. */
    predicate SubmitDisabled()
      reads this
    {
      loading
    }

    /** A press of "Create account" up to the `await`: a valid form sends
        name, e-mail, password and address, and never the confirmation. */
    method BeginSubmit(form: Form) returns (request: Option<Api.Request>)
      modifies this
      ensures request.Some? <==> !old(loading) && Valid(form)
      ensures request.Some? ==> request.value == Api.Call(Api.Register, FormBody(form, SentFields), map[])
      ensures request.Some? ==> "confirmPassword" !in request.value.body && SubmitDisabled()
      ensures request.None? ==> loading == old(loading)
      ensures toast == old(toast)
    {
      if loading || !Valid(form) {
        request := None;
        return;
      }
      loading := true;
      request := Some(Api.Call(Api.Register, FormBody(form, SentFields), map[]));
    }

    /** The rest of `onSubmit`: on success the session logs in with the
        returned user and token; on failure the session is untouched and the
        message is shown; `loading` is reset either way. */
    method FinishSubmit(reply: Result<AuthContext.AuthReply>)
      modifies this, session, session.api, session.api.window
      ensures reply.Ok? ==>
                session.State() == AuthContext.LoggedIn(old(session.State()), reply.value.user, reply.value.token)
      ensures reply.Err? ==> session.State() == old(session.State())
      ensures toast == (if reply.Err? then Some(reply.message) else old(toast))
      ensures !loading
    {
      if reply.Ok? {
        session.Login(reply.value.user, reply.value.token);
      } else {
        toast := Some(reply.message);
      }
      loading := false;
    }
  }
}
