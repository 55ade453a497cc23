/** The sign-in page (`Login`): an e-mail and a password, sent as typed, and
    the session it opens. */
module LoginForm {
  import opened Wrappers
  import opened Validation
  import Api
  import AuthContext
  import AppRoutes

  /** Sign-in asks only for a password, with no length or character rule. */
  const Rules: map<string, Rule> := map["email" := EmailRule, "password" := Required]

  /** The registered fields: the form data is sent unchanged. */
  const Fields: set<string> := {"email", "password"}

  predicate Valid(form: Form) {
    AllAccepted(Rules, form)
  }

  /** The form passes exactly when the e-mail has the shape of an address
      and the password is not empty; a password the sign-up policy rejects
      still passes here. */
  lemma {:induction false} ValidMeaning(form: Form)
    ensures Valid(form) <==> EmailShape(FieldValue(form, "email")) && FieldValue(form, "password") != ""
    ensures Accepts(Rules["password"], "a") && !Accepts(PasswordRule, "a")
  {
    EmailRuleMeaning(FieldValue(form, "email"));
    RequiredMeaning(FieldValue(form, "password"));
    assert Rules.Keys == Fields;
  }

  /** Once the session holds the returned user, the sign-in page redirects
      to that user's dashboard route. */
  lemma SignedInLeavesLoginPage(s: AuthContext.Session, r: AuthContext.AuthReply)
    ensures AppRoutes.Screen(false, AuthContext.LoggedIn(s, r.user, r.token).user, "/login")
            == AppRoutes.Shell(true, AppRoutes.Redirect(AppRoutes.DashboardRoute(Some(r.user))))
  {
    AppRoutes.SignedInLeavesPublicPages(Some(r.user), "/login");
  }

  class LoginFormState {
    const session: AuthContext.AuthProvider
    var loading: bool
    /** The last error toast raised by the page. */
    var toast: Option<string>

    constructor (session: AuthContext.AuthProvider)
      ensures this.session == session && !loading && toast == None
    {
      this.session := session;
      loading := false;
      toast := None;
    }

    /** `disabled={loading}`. */
    predicate SubmitDisabled()
      reads this
    {
      loading
    }

    /** A press of "Log in" up to the `await`. */
    method BeginSubmit(form: Form) returns (request: Option<Api.Request>)
      modifies this
      ensures request.Some? <==> !old(loading) && Valid(form)
      ensures request.Some? ==> request.value == Api.Call(Api.Login, FormBody(form, Fields), map[])
      ensures request.Some? ==> SubmitDisabled()
      ensures request.None? ==> loading == old(loading)
      ensures toast == old(toast)
    {
      if loading || !Valid(form) {
        request := None;
        return;
      }
      loading := true;
      request := Some(Api.Call(Api.Login, FormBody(form, Fields), map[]));
    }

    /** The rest of `onSubmit`: on success the session logs in with the
        returned user and token; on failure the session is untouched and the
        message is shown; `loading` is reset either way. */
    method FinishSubmit(reply: Result<AuthContext.AuthReply>)
      modifies this, session, session.api, session.api.window
      ensures reply.Ok? ==>
                session.State() == AuthContext.LoggedIn(old(session.State()), reply.value.user, reply.value.token)
      ensures reply.Err? ==> session.State() == old(session.State())
      ensures toast == (if reply.Err? then Some(reply.message) else old(toast))
      ensures !loading
    {
      if reply.Ok? {
        session.Login(reply.value.user, reply.value.token);
      } else {
        toast := Some(reply.message);
      }
      loading := false;
    }
  }
}
