/** The "Change Password" dialog (`PasswordModal`): the new password, its
    confirmation, and a request carrying the password alone. */
module PasswordModal {
  import opened Wrappers
  import opened Validation
  import Api

  const Rules: map<string, Rule> := map["password" := PasswordRule]

  /** The only field sent. */
  const SentFields: set<string> := {"password"}

  predicate Valid(form: Form) {
    AllAccepted(Rules, form)
    && ConfirmAccepts(FieldValue(form, "confirmPassword"), FieldValue(form, "password"))
  }

  /** The form passes exactly when the password meets the policy and is
      repeated; on one line the policy is 8 to 16 characters with a capital
      letter and a special character. */
  lemma {:induction false} ValidMeaning(form: Form)
    ensures Valid(form) <==>
      && 8 <= |FieldValue(form, "password")| <= 16 && PasswordRegex(FieldValue(form, "password"))
      && FieldValue(form, "confirmPassword") == FieldValue(form, "password")
    ensures SingleLine(FieldValue(form, "password")) ==>
      (Valid(form) <==>
        && 8 <= |FieldValue(form, "password")| <= 16
        && Contains(Upper, FieldValue(form, "password")) && Contains(Special, FieldValue(form, "password"))
        && FieldValue(form, "confirmPassword") == FieldValue(form, "password"))
  {
    PasswordRuleMeaning(FieldValue(form, "password"));
    assert Rules.Keys == {"password"};
  }

  class PasswordModalState {
    var loading: bool
    /** The last error toast raised by the dialog. */
    var toast: Option<string>

    constructor ()
      ensures !loading && toast == None
    {
      loading := false;
      toast := None;
    }

    /** `disabled={loading}`. */
    predicate SubmitDisabled()
      reads this
    {
      loading
    }

    /** A press of "Update Password" up to the `await`: a valid form sends
        `{ password }` and nothing else. */
    method BeginSubmit(form: Form) returns (request: Option<Api.Request>)
      modifies this
      ensures request.Some? <==> !old(loading) && Valid(form)
      ensures request.Some? ==> request.value == Api.Call(Api.UpdatePassword, FormBody(form, SentFields), map[])
      ensures request.Some? ==> request.value.body.Keys == {"password"} && SubmitDisabled()
      ensures request.None? ==> loading == old(loading)
      ensures toast == old(toast)
    {
      if loading || !Valid(form) {
        request := None;
        return;
      }
      loading := true;
      request := Some(Api.Call(Api.UpdatePassword, FormBody(form, SentFields), map[]));
    }

    /** The rest of `onSubmit`: the dialog asks to be closed (the result is
        `true`) only after success; a failure keeps it open and shows the
        message; `loading` is reset either way. */
    method FinishSubmit(reply: Result<()>) returns (close: bool)
      modifies this
      ensures close <==> reply.Ok?
      ensures toast == (if reply.Err? then Some(reply.message) else old(toast))
      ensures !loading
    {
      close := reply.Ok?;
      if reply.Err? {
        toast := Some(reply.message);
      }
      loading := false;
    }
  }
}
