/** The login page: its two-field form and the submit-time check, which
    tests for empty strings without trimming. */
module Login {

  datatype LoginForm = LoginForm(email: string, password: string)
  {
    function Field(f: LoginField): string
    {
      match f
      case Email => email
      case Password => password
    }
  }

  datatype LoginField = Email | Password

  const InitialForm := LoginForm("", "")

  /** `{...userData, [name]: value}`: the form after the input `f` reports `v`. */
  function Change(form: LoginForm, f: LoginField, v: string): (r: LoginForm)
    ensures r.Field(f) == v
    ensures forall g :: g != f ==> r.Field(g) == form.Field(g)
  {
    match f
    case Email => form.(email := v)
    case Password => form.(password := v)
  }

  datatype SubmitOutcome = Toast(message: string) | DispatchLogin(data: LoginForm)

  const AllRequired := "All fields are required!"

  /** The submit handler: both fields must be non-empty, and the dispatched
      credentials are exactly the form's, untrimmed. */
  function Submit(form: LoginForm): (r: SubmitOutcome)
    ensures r == Toast(AllRequired) <==> form.email == "" || form.password == ""
    ensures r.DispatchLogin? <==> form.email != "" && form.password != ""
    ensures r.DispatchLogin? ==> r.data == form
  {
    if form.email == "" || form.password == "" then Toast(AllRequired) else DispatchLogin(form)
  }

  /** The fresh form cannot be submitted, and filling both fields makes it
      dispatch what was typed. */
  lemma FillingBothFieldsDispatches(email: string, password: string)
    ensures Submit(InitialForm) == Toast(AllRequired)
    ensures email != "" && password != "" ==>
              Submit(Change(Change(InitialForm, Email, email), Password, password)) ==
              DispatchLogin(LoginForm(email, password))
  {
  }
}
