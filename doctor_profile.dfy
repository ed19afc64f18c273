/**
 * The doctor's profile page (frontend/src/pages/Doctor/DoctorProfilePage.tsx):
 * component state `loading` and `form`, the load that fills the form from the
 * `me` document, the field-by-field `onChange` update and the submit payload,
 * which drops an empty password. `getMe` and `updateMe` are remote calls: the
 * settled promise of getMe is an input, and updateMe is a function from the
 * payload to its settled promise.
 */
module DoctorProfile {
  import opened Wrappers
  import opened JsValues
  import ApiClient

  type Form = map<string, JsValue>

  /** The fields filled from `me.user`, and those filled from `me.doctor`. */
  const UserFields: set<string> := {"first_name", "last_name", "email"}
  const DoctorFields: set<string> := {"phone", "address", "city", "state", "zip_code", "bio", "consultation_fee"}

  /** The eleven form fields: the user's, the doctor's and the password. */
  const FormFields: set<string> := UserFields + {"password"} + DoctorFields

  const LoadErrorMessage: string := "Erreur lors du chargement du profil médecin"
  const UpdateSuccessMessage: string := "Profil médecin mis à jour"

  /** The form before anything is loaded: every field an empty string. */
  function InitialForm(): (f: Form)
    ensures f.Keys == FormFields
    ensures forall k :: k in f ==> f[k] == Str("")
  {
    map k | k in FormFields :: Str("")
  }

  /** `value || ''`. */
  function OrEmpty(v: JsValue): (r: JsValue)
    ensures Truthy(v) ==> r == v
    ensures !Truthy(v) ==> r == Str("")
  {
    Or(v, Str(""))
  }

  /**
   * The object literal passed to setForm. Reading a field of `me.user` or
   * `me.doctor` throws when that object is null or undefined (or `me` is), and
   * the load then fails as a whole.
   */
  function LoadedForm(me: JsValue): (r: Result<Form, TypeError>)
    ensures r.Success? <==> !Nullish(me) && !Nullish(OptionalMember(me, "user")) && !Nullish(OptionalMember(me, "doctor"))
    ensures r.Success? ==> r.value.Keys == FormFields
    ensures r.Success? ==> r.value["password"] == Str("")
    ensures r.Success? ==> forall k :: k in UserFields ==> r.value[k] == OrEmpty(OptionalMember(OptionalMember(me, "user"), k))
    ensures r.Success? ==> forall k :: k in DoctorFields ==> r.value[k] == OrEmpty(OptionalMember(OptionalMember(me, "doctor"), k))
    ensures r.Success? ==> forall k :: k in r.value ==> r.value[k] == Str("") || Truthy(r.value[k])
  {
    if Nullish(me) then Failure(TypeError)
    else
      var user := OptionalMember(me, "user");
      var doctor := OptionalMember(me, "doctor");
      if Nullish(user) || Nullish(doctor) then Failure(TypeError)
      else
        var f := map k | k in FormFields ::
                   if k in UserFields then OrEmpty(OptionalMember(user, k))
                   else if k in DoctorFields then OrEmpty(OptionalMember(doctor, k))
                   else Str("");
        Success(f)
  }

  /** A fee of 0 loads as the empty string, while a non-zero fee is kept as it is. */
  lemma ZeroFeeLoadsEmpty(me: JsValue, fee: int)
    requires LoadedForm(me).Success?
    requires OptionalMember(OptionalMember(me, "doctor"), "consultation_fee") == Num(fee)
    ensures LoadedForm(me).value["consultation_fee"] == (if fee == 0 then Str("") else Num(fee))
  {
  }

  /** The payload sent on submit: a copy of the form, without `password` when that is falsy. */
  function SubmitPayload(form: Form): (p: Form)
    ensures "password" in p <==> "password" in form && Truthy(form["password"])
    ensures forall k :: k in p ==> k in form && p[k] == form[k]
    ensures forall k :: k in form && k != "password" ==> k in p
  {
    if "password" in form && Truthy(form["password"]) then form else form - {"password"}
  }

  class DoctorProfilePage {
    var loading: bool
    var form: Form

    constructor ()
      ensures loading && form == InitialForm()
    {
      loading := true;
      form := InitialForm();
    }

    /**
     * The effect run on mount: `setLoading(true)`, await getMe, fill the form or
     * raise the error toast, and `setLoading(false)` in `finally`.
     */
    method Load(me: ApiClient.Outcome) returns (toast: Option<string>)
      modifies this
      ensures !loading
      ensures me.Resolved? && LoadedForm(me.value).Success? ==> form == LoadedForm(me.value).value && toast.None?
      ensures me.Rejected? || LoadedForm(me.value).Failure? ==> form == old(form) && toast == Some(LoadErrorMessage)
    {
      loading := true;
      toast := None;
      if me.Rejected? {
        toast := Some(LoadErrorMessage);
      } else {
        var loaded := LoadedForm(me.value);
        if loaded.Success? {
          form := loaded.value;
        } else {
          toast := Some(LoadErrorMessage);
        }
      }
      loading := false;
    }

    /** `setForm(f => ({ ...f, [name]: value }))`: exactly the named field changes. */
    method OnChange(name: string, value: JsValue)
      modifies this
      ensures form.Keys == old(form).Keys + {name}
      ensures form[name] == value
      ensures forall k :: k in old(form) && k != name ==> form[k] == old(form)[k]
      ensures loading == old(loading)
    {
      form := form[name := value];
    }

    /**
     * The submit handler builds the payload from a copy, awaits updateMe with
     * it and raises the success toast when the call resolves; a rejection is
     * caught silently (the response interceptor already reported it). The form
     * state is left as it is.
     */
    method OnSubmit(updateMe: Form -> ApiClient.Outcome) returns (payload: Form, toast: Option<string>)
      ensures payload == SubmitPayload(form)
      ensures "password" in payload <==> "password" in form && Truthy(form["password"])
      ensures toast.Some? <==> updateMe(payload).Resolved?
      ensures toast.Some? ==> toast.value == UpdateSuccessMessage
    {
      payload := form;
      if !("password" in payload && Truthy(payload["password"])) {
        payload := payload - {"password"};
      }
      var outcome := updateMe(payload);
      if outcome.Resolved? {
        toast := Some(UpdateSuccessMessage);
      } else {
        toast := None;
      }
    }
  }

  /** Right after a load, submitting sends every loaded field except the always-empty password. */
  lemma SubmitAfterLoadDropsPassword(me: JsValue)
    requires LoadedForm(me).Success?
    ensures SubmitPayload(LoadedForm(me).value).Keys == FormFields - {"password"}
  {
  }
}
