/** The administrator's "Create New Store" dialog (`CreateStoreModal`): four
    fields, the owner's e-mail among them optional. */
module CreateStoreModal {
  import opened Wrappers
  import opened Validation
  import Api

  const NameRule := LengthRule(20, 60)

  /** The owner's e-mail: a pattern but no `required`. */
  const OwnerEmailRule := Rule(false, None, None, Some(EmailPattern))

  const Rules: map<string, Rule> :=
    map["name" := NameRule, "email" := EmailRule, "address" := AddressRule, "owner_email" := OwnerEmailRule]

  /** Every registered field; all of them are sent. */
  const Fields: set<string> := {"name", "email", "address", "owner_email"}

  predicate Valid(form: Form) {
    AllAccepted(Rules, form)
  }

  /** A blank owner e-mail passes; any other value must have the shape of
      an address. */
  lemma {:induction false} OwnerEmailOptional(v: string)
    ensures Accepts(OwnerEmailRule, v) <==> v == "" || EmailShape(v)
  {
    EmailRegexIsShape(v);
  }

  /** The form passes exactly when the store name has 20 to 60 characters,
      the store e-mail has the shape of an address, the address has at most
      400 characters and the owner e-mail is blank or an address. */
  lemma {:induction false} ValidMeaning(form: Form)
    ensures Valid(form) <==>
      && 20 <= |FieldValue(form, "name")| <= 60
      && EmailShape(FieldValue(form, "email"))
      && |FieldValue(form, "address")| <= 400
      && (FieldValue(form, "owner_email") == "" || EmailShape(FieldValue(form, "owner_email")))
  {
    LengthRuleMeaning(20, 60, FieldValue(form, "name"));
    EmailRuleMeaning(FieldValue(form, "email"));
    AddressRuleMeaning(FieldValue(form, "address"));
    OwnerEmailOptional(FieldValue(form, "owner_email"));
    assert Rules.Keys == Fields;
  }

  class CreateStoreModalState {
    var loading: bool
    /** The last error toast raised by the dialog. */
    var toast: Option<string>

    constructor ()
      ensures !loading && toast == None
    {
      loading := false;
      toast := None;
    }

    /** `disabled={loading}`. */
    predicate SubmitDisabled()
      reads this
    {
      loading
    }

    /** A press of "Create Store" up to the `await`: a valid form sends the
        whole form data. */
    method BeginSubmit(form: Form) returns (request: Option<Api.Request>)
      modifies this
      ensures request.Some? <==> !old(loading) && Valid(form)
      ensures request.Some? ==> request.value == Api.Call(Api.CreateStore, FormBody(form, Fields), map[])
      ensures request.Some? ==> SubmitDisabled()
      ensures request.None? ==> loading == old(loading)
      ensures toast == old(toast)
    {
      if loading || !Valid(form) {
        request := None;
        return;
      }
      loading := true;
      request := Some(Api.Call(Api.CreateStore, FormBody(form, Fields), map[]));
    }

    /** The rest of `onSubmit`: `onSuccess` runs only on success; a failure
        shows its message; `loading` is reset either way. */
    method FinishSubmit(reply: Result<()>) returns (onSuccess: bool)
      modifies this
      ensures onSuccess <==> reply.Ok?
      ensures toast == (if reply.Err? then Some(reply.message) else old(toast))
      ensures !loading
    {
      onSuccess := reply.Ok?;
      if reply.Err? {
        toast := Some(reply.message);
      }
      loading := false;
    }
  }
}
