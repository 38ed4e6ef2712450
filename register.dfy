/** The registration page: its four-field form and the submit-time checks,
    which test for empty strings without trimming. */
module Register {

  datatype RegisterForm = RegisterForm(name: string, email: string, password: string, confirmPassword: string)
  {
    function Field(f: RegisterField): string
    {
      match f
      case Name => name
      case Email => email
      case Password => password
      case ConfirmPassword => confirmPassword
    }
  }

  /** The names of the page's inputs. */
  datatype RegisterField = Name | Email | Password | ConfirmPassword

  const InitialForm := RegisterForm("", "", "", "")

  /** `{...userData, [name]: value}`: the form after the input `f` reports `v`. */
  function Change(form: RegisterForm, f: RegisterField, v: string): (r: RegisterForm)
    ensures r.Field(f) == v
    ensures forall g :: g != f ==> r.Field(g) == form.Field(g)
  {
    match f
    case Name => form.(name := v)
    case Email => form.(email := v)
    case Password => form.(password := v)
    case ConfirmPassword => form.(confirmPassword := v)
  }

  datatype SubmitOutcome = Toast(message: string) | DispatchRegister(data: RegisterForm)

  const AllRequired := "All fields are required!"
  const Mismatch := "Password do not match"

  /** Some field is the empty string (`!value` on a string). */
  predicate AnyEmpty(form: RegisterForm)
  {
    form.name == "" || form.email == "" || form.password == "" || form.confirmPassword == ""
  }

  /** The submit handler: the emptiness check comes first, then the password
      match, then the dispatch of the form as it stands. */
  function Submit(form: RegisterForm): (r: SubmitOutcome)
    ensures r == Toast(AllRequired) <==> AnyEmpty(form)
    ensures r == Toast(Mismatch) <==> !AnyEmpty(form) && form.password != form.confirmPassword
    ensures r.DispatchRegister? <==> !AnyEmpty(form) && form.password == form.confirmPassword
    ensures r.DispatchRegister? ==> r.data == form
  {
    if AnyEmpty(form) then Toast(AllRequired)
    else if form.password != form.confirmPassword then Toast(Mismatch)
    else DispatchRegister(form)
  }

  /** Whitespace is not trimmed: a form of single spaces goes through. */
  lemma WhitespaceOnlyPasses()
    ensures Submit(RegisterForm(" ", " ", " ", " ")) == DispatchRegister(RegisterForm(" ", " ", " ", " "))
  {
  }

  /** Typing into every field a non-empty value, with matching passwords,
      takes the fresh form to a dispatch of exactly what was typed. */
  lemma TypedFormDispatches(name: string, email: string, password: string)
    requires name != "" && email != "" && password != ""
    ensures var form := Change(Change(Change(Change(InitialForm, Name, name), Email, email), Password, password),
                               ConfirmPassword, password);
            Submit(form) == DispatchRegister(RegisterForm(name, email, password, password))
  {
  }
}
