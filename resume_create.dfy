/** The resume creation page: its seven-field form, the submit-time
    validation chain and the four-step wizard counter. */
module ResumeCreate {
  import opened JsValues

  datatype ResumeForm = ResumeForm(
    title: string,
    template: string,
    education: string,
    experience: string,
    projects: string,
    skills: string,
    certifications: string)
  {
    function Field(f: FormField): string
    {
      match f
      case Title => title
      case Template => template
      case Education => education
      case Experience => experience
      case Projects => projects
      case Skills => skills
      case Certifications => certifications
    }

    /** The form after an input named `f` reports the value `v`. */
    function With(f: FormField, v: string): (r: ResumeForm)
      ensures r.Field(f) == v
      ensures forall g :: g != f ==> r.Field(g) == Field(g)
    {
      match f
      case Title => this.(title := v)
      case Template => this.(template := v)
      case Education => this.(education := v)
      case Experience => this.(experience := v)
      case Projects => this.(projects := v)
      case Skills => this.(skills := v)
      case Certifications => this.(certifications := v)
    }
  }

  /** The names of the form's inputs; each input is named after its field. */
  datatype FormField = Title | Template | Education | Experience | Projects | Skills | Certifications

  const InitialForm := ResumeForm("", "modern-2", "", "", "", "", "")

  lemma InitialFormEmptyButTemplate()
    ensures forall f :: f != Template ==> InitialForm.Field(f) == ""
    ensures InitialForm.Field(Template) == "modern-2"
  {
  }

  /** What a submit does: show an error toast, or dispatch the create thunk. */
  datatype SubmitOutcome = Toast(message: string) | DispatchCreate(form: ResumeForm)

  /** `!value.trim()`: empty once the JavaScript whitespace is trimmed off. */
  predicate Blank(s: string)
  {
    Trim(s) == ""
  }

  const TitleRequired := "Resume title is required"
  const EducationRequired := "Education information is required"
  const ExperienceRequired := "Work experience is required"
  const SkillsRequired := "Skills are required"

  /** The submit handler's early-return chain. */
  function Submit(form: ResumeForm): (r: SubmitOutcome)
    ensures r == Toast(TitleRequired) <==> Blank(form.title)
    ensures r == Toast(EducationRequired) <==> !Blank(form.title) && Blank(form.education)
    ensures r == Toast(ExperienceRequired) <==>
              !Blank(form.title) && !Blank(form.education) && Blank(form.experience)
    ensures r == Toast(SkillsRequired) <==>
              !Blank(form.title) && !Blank(form.education) && !Blank(form.experience) && Blank(form.skills)
    ensures r.DispatchCreate? <==>
              !Blank(form.title) && !Blank(form.education) && !Blank(form.experience) && !Blank(form.skills)
    ensures r.DispatchCreate? ==> r.form == form
  {
    if Blank(form.title) then Toast(TitleRequired)
    else if Blank(form.education) then Toast(EducationRequired)
    else if Blank(form.experience) then Toast(ExperienceRequired)
    else if Blank(form.skills) then Toast(SkillsRequired)
    else DispatchCreate(form)
  }

  /** A required field holding only whitespace counts as missing. */
  lemma WhitespaceTitleIsMissing(form: ResumeForm)
    requires forall j :: 0 <= j < |form.title| ==> form.title[j] in JsWhitespace
    ensures Submit(form) == Toast(TitleRequired)
  {
    BlankIffAllWhitespace(form.title);
  }

  /** The projects, certifications and template fields never decide whether
      a submit goes through, nor which message it shows. */
  lemma OptionalFieldsNeverBlock(form: ResumeForm, projects: string, certifications: string, template: string)
    ensures var other := form.(projects := projects, certifications := certifications, template := template);
            && Submit(other).DispatchCreate? == Submit(form).DispatchCreate?
            && (Submit(form).Toast? ==> Submit(other) == Submit(form))
  {
  }

  const TotalSteps := 4

  datatype StepMove = Next | Prev

  /** `nextStep` and `prevStep` on a step number. */
  function Move(step: int, m: StepMove): int
  {
    match m
    case Next => if step < TotalSteps then step + 1 else step
    case Prev => if step > 1 then step - 1 else step
  }

  function Walk(step: int, moves: seq<StepMove>): int
    decreases |moves|
  {
    if moves == [] then step else Walk(Move(step, moves[0]), moves[1..])
  }

  /** The wizard stays on one of its four steps whatever buttons are pressed. */
  lemma {:induction false} WalkInRange(step: int, moves: seq<StepMove>)
    requires 1 <= step <= TotalSteps
    ensures 1 <= Walk(step, moves) <= TotalSteps
    decreases |moves|
  {
    if moves != [] {
      WalkInRange(Move(step, moves[0]), moves[1..]);
    }
  }

  /** Next on the last step and Prev on the first are no-ops. */
  lemma MoveAtEnds()
    ensures Move(TotalSteps, Next) == TotalSteps
    ensures Move(1, Prev) == 1
  {
  }

  /** Enough Next presses reach the last step and stay there. */
  lemma {:induction false} NextReachesLast(step: int, n: nat)
    requires 1 <= step <= TotalSteps
    requires n >= TotalSteps - step
    ensures Walk(step, seq(n, _ => Next)) == TotalSteps
    decreases n
  {
    if n > 0 {
      var moves := seq(n, _ => Next);
      assert moves[1..] == seq(n - 1, _ => Next);
      NextReachesLast(Move(step, Next), n - 1);
    }
  }

  /** The page's component state. */
  class ResumeCreatePage {
    var formData: ResumeForm
    var currentStep: int

    predicate Valid()
      reads this
    {
      1 <= currentStep <= TotalSteps
    }

    constructor ()
      ensures Valid()
      ensures formData == InitialForm && currentStep == 1
    {
      formData := InitialForm;
      currentStep := 1;
    }

    method NextStep()
      requires Valid()
      modifies this
      ensures Valid()
      ensures currentStep == Move(old(currentStep), Next)
      ensures old(currentStep) == TotalSteps ==> currentStep == TotalSteps
      ensures formData == old(formData)
    {
      if currentStep < TotalSteps {
        currentStep := currentStep + 1;
      }
    }

    method PrevStep()
      requires Valid()
      modifies this
      ensures Valid()
      ensures currentStep == Move(old(currentStep), Prev)
      ensures old(currentStep) == 1 ==> currentStep == 1
      ensures formData == old(formData)
    {
      if currentStep > 1 {
        currentStep := currentStep - 1;
      }
    }

    /** An input named `f` changed to `v`: only that field of the form changes. */
    method HandleChange(f: FormField, v: string)
      modifies this
      ensures formData == old(formData).With(f, v)
      ensures formData.Field(f) == v
      ensures forall g :: g != f ==> formData.Field(g) == old(formData).Field(g)
      ensures currentStep == old(currentStep)
    {
      formData := formData.With(f, v);
    }
  }
}
