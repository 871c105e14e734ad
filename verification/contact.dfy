/**
  The contact form: three controlled fields, a loading flag, the e-mail
  request built on submit and how the send's outcome settles the form. The
  e-mail service is outside the model; its answer is an `Outcome` parameter.
 */
module Contact {
  import opened Options

  datatype Form = Form(name: string, email: string, message: string)

  const EmptyForm: Form := Form("", "", "")

  /** The `name` attribute of each input. */
  datatype Field = Name | Email | Message

  datatype State = State(form: Form, loading: bool)

  const Initial: State := State(EmptyForm, false)

  function Get(f: Form, field: Field): string {
    match field
    case Name => f.name
    case Email => f.email
    case Message => f.message
  }

  /** `setForm({ ...form, [name]: value })`. */
  function HandleChange(st: State, field: Field, value: string): (r: State)
    ensures Get(r.form, field) == value
    ensures forall other :: other != field ==> Get(r.form, other) == Get(st.form, other)
    ensures r.loading == st.loading
  {
    match field
    case Name => st.(form := st.form.(name := value))
    case Email => st.(form := st.form.(email := value))
    case Message => st.(form := st.form.(message := value))
  }

  // ----- the request -------------------------------------------------------

  const ToName: string := "Ramish"
  const ToEmail: string := "ramishbinsiddique24@gmail.com"
  const ServiceId: string := "service_plos0tn"
  const TemplateId: string := "template_wev6vmr"
  const PublicKey: string := "YYJQi5ny3if9_eHwl"

  /** The e-mail template's variables. */
  datatype TemplateParams = TemplateParams(
    fromName: string, toName: string, fromEmail: string, toEmail: string, message: string)

  datatype Request = Request(service: string, template: string, params: TemplateParams, publicKey: string)

  function Params(f: Form): (p: TemplateParams)
    ensures p.fromName == f.name && p.fromEmail == f.email && p.message == f.message
    ensures p.toName == ToName && p.toEmail == ToEmail
  {
    TemplateParams(f.name, ToName, f.email, ToEmail, f.message)
  }

  /** Submitting: the form turns to loading and the request carries the
      form's fields, addressed to the fixed recipient. */
  function HandleSubmit(st: State): (r: (State, Request))
    ensures r.0.loading && r.0.form == st.form
    ensures r.1.params == Params(st.form)
    ensures r.1.service == ServiceId && r.1.template == TemplateId && r.1.publicKey == PublicKey
  {
    (st.(loading := true), Request(ServiceId, TemplateId, Params(st.form), PublicKey))
  }

  /** What the browser lets through to `handleSubmit`: every field is
      `required`, so none may be empty, and the submit button is disabled
      while a send is in flight. The address format of `type="email"` is
      not checked here. */
  predicate Submittable(st: State) {
    !st.loading && st.form.name != "" && st.form.email != "" && st.form.message != ""
  }

  /** The form's submit event: the browser blocks it unless the state is
      submittable, and otherwise the handler runs. */
  function FormSubmit(st: State): (r: Option<(State, Request)>)
    ensures r.Some? <==> Submittable(st)
    ensures r.Some? ==> r.value.0.loading && r.value.0.form == st.form && r.value.1.params == Params(st.form)
  {
    if Submittable(st) then Some(HandleSubmit(st)) else None
  }

  // ----- the outcome -------------------------------------------------------

  datatype Outcome = Sent | Failed

  datatype Toast = SuccessToast(text: string) | ErrorToast(text: string)

  /** The promise settling: loading ends either way; a sent message clears
      the form, a failed one keeps what is in it. */
  function Settle(st: State, outcome: Outcome): (r: (State, Toast))
    ensures !r.0.loading
    ensures outcome == Sent ==> r.0.form == EmptyForm && r.1.SuccessToast?
    ensures outcome == Failed ==> r.0.form == st.form && r.1.ErrorToast?
  {
    match outcome
    case Sent => (State(EmptyForm, false), SuccessToast("Thank you! I'll get back to you as soon as possible"))
    case Failed => (st.(loading := false), ErrorToast("Error sending email!"))
  }

  /** The submit button: disabled and saying "Sending..." exactly while a
      send is in flight. */
  function SubmitButton(st: State): (r: (bool, string))
    ensures r.0 <==> st.loading
    ensures r.1 == "Sending..." <==> st.loading
    ensures r.1 == "Send Message" <==> !st.loading
  {
    (st.loading, if st.loading then "Sending..." else "Send Message")
  }

  // ----- lemmas ------------------------------------------------------------

  /** A successful send returns the component to its initial state. */
  lemma SentResets(st: State)
    ensures Settle(HandleSubmit(st).0, Sent).0 == Initial
  {
  }

  /** A failed send gives the user back exactly what they had typed. */
  lemma FailedKeeps(st: State)
    ensures Settle(HandleSubmit(st).0, Failed).0 == st.(loading := false)
  {
  }

  /** The button is disabled from submit until the outcome arrives. */
  lemma ButtonDuringSend(st: State, outcome: Outcome)
    ensures SubmitButton(HandleSubmit(st).0) == (true, "Sending...")
    ensures SubmitButton(Settle(HandleSubmit(st).0, outcome).0) == (false, "Send Message")
  {
  }

  /** Typing while a send is in flight is lost if the send succeeds: the
      reset clears the current form, not the one that was sent. */
  lemma EditDuringSendLost(st: State, field: Field, value: string)
    ensures Settle(HandleChange(HandleSubmit(st).0, field, value), Sent).0.form == EmptyForm
    ensures Get(Settle(HandleChange(HandleSubmit(st).0, field, value), Failed).0.form, field) == value
  {
  }

  /** Filling the three fields from the initial state sends exactly what was
      typed. */
  lemma FilledFormRequest(name: string, email: string, message: string)
    ensures var st := HandleChange(HandleChange(HandleChange(Initial, Name, name), Email, email), Message, message);
            HandleSubmit(st).1.params == TemplateParams(name, ToName, email, ToEmail, message)
  {
  }

  /** A send in flight blocks a second one until it settles; a failure
      makes the same form submittable again, a success empties it so the
      browser blocks the next submit until the fields are filled. */
  lemma SendBlocksResubmit(st: State, outcome: Outcome)
    requires Submittable(st)
    ensures FormSubmit(HandleSubmit(st).0).None?
    ensures outcome == Failed ==> FormSubmit(Settle(HandleSubmit(st).0, outcome).0).Some?
    ensures outcome == Sent ==> FormSubmit(Settle(HandleSubmit(st).0, outcome).0).None?
  {
  }

  /** Filling the three fields with non-empty text from the initial state
      makes the form submittable, and the request carries the typed text. */
  lemma FilledFormSubmits(name: string, email: string, message: string)
    requires name != "" && email != "" && message != ""
    ensures var st := HandleChange(HandleChange(HandleChange(Initial, Name, name), Email, email), Message, message);
            FormSubmit(st).Some? && FormSubmit(st).value.1.params == TemplateParams(name, ToName, email, ToEmail, message)
  {
  }

  /** Edits to different fields commute. */
  lemma ChangesCommute(st: State, f: Field, g: Field, a: string, b: string)
    requires f != g
    ensures HandleChange(HandleChange(st, f, a), g, b) == HandleChange(HandleChange(st, g, b), f, a)
  {
  }
}
