/** The model classes of the resume schema file: the profile, resume and
    section records, the section kinds, and the request and response bodies
    of resume generation. Under the validation rules modelled here an
    `Optional[X]` annotation without a default is required, though it
    admits `None`. */
module ResumeSchema {
  import opened Wrappers
  import opened JsValues
  import opened Schema

  function Req(name: string, ty: FieldType): FieldSpec
  {
    FieldSpec(name, ty, false, Required, NoConstraint)
  }

  /** `Optional[X]` without a default. */
  function ReqOrNone(name: string, ty: FieldType): FieldSpec
  {
    FieldSpec(name, ty, true, Required, NoConstraint)
  }

  /** `Optional[X] = d`. */
  function OptDefault(name: string, ty: FieldType, d: Value): FieldSpec
  {
    FieldSpec(name, ty, true, Default(d), NoConstraint)
  }

  const PhoneField := FieldSpec("phone", StrType, true, Default(Null), Length(6, Some(24)))

  const ProfileSchema := [
    Req("userId", StrType), Req("name", StrType), Req("email", StrType),
    OptDefault("bio", StrType, Null), PhoneField, OptDefault("address", StrType, Null),
    OptDefault("linkedin", StrType, Null), OptDefault("github", StrType, Null)]

  const ResumeRecordSchema := [
    Req("resumeId", StrType), Req("UserId", StrType), Req("title", StrType), Req("template", StrType),
    ReqOrNone("createdAt", DateTimeType), ReqOrNone("updatedAt", DateTimeType)]

  const SectionKinds := ["education", "experience", "skills", "projects", "certifications", "summary"]
  const SectionTypeField := FieldSpec("type", StrType, false, Required, OneOf(SectionKinds))

  const SectionSchema := [Req("sectionId", StrType), Req("resumeId", StrType), SectionTypeField, Req("order", IntType)]

  const EducationSchema := [
    Req("sectionId", StrType), Req("school", StrType), Req("degree", StrType), Req("fieldOfStudy", StrType),
    Req("startDate", DateType), ReqOrNone("endDate", DateType), ReqOrNone("grade", StrType),
    ReqOrNone("description", StrType)]

  const ExperienceSchema := [
    Req("sectionId", StrType), Req("company", StrType), Req("role", StrType), Req("startDate", DateType),
    ReqOrNone("endDate", DateTimeType), Req("responsibilities", StrListType)]

  const ProjectSchema := [
    Req("sectionId", StrType), Req("name", StrType), Req("description", StrType),
    Req("technologies", StrListType), ReqOrNone("link", StrType)]

  const SkillLevels := ["Beginner", "Intermediate", "Advanced", "Expert"]
  const SkillLevelField := FieldSpec("level", StrType, false, Required, OneOf(SkillLevels))

  const SkillSchema := [Req("sectionId", StrType), Req("name", StrType), SkillLevelField]

  const CertificationSchema := [
    Req("sectionId", StrType), Req("title", StrType), Req("issuer", StrType), Req("date", DateType),
    ReqOrNone("credentialId", StrType), ReqOrNone("link", StrType)]

  const Templates := ["modern-1", "modern-2", "modern-3"]
  const TemplateField := FieldSpec("template", StrType, false, Required, OneOf(Templates))

  const ResumeInputSchema := [
    Req("title", StrType), TemplateField, Req("education", StrType), Req("experience", StrType),
    Req("projects", StrType), Req("skills", StrType), ReqOrNone("certifications", StrType)]

  const OutputTextFields := [
    "title", "name", "email", "phone", "linkedin", "github", "professionalsummary", "skills",
    "workexperience", "projects", "education"]

  function Blank(name: string): FieldSpec
  {
    OptDefault(name, StrType, Str(""))
  }

  /** The response model's fields in three runs: the contact details, the
      section texts, and the certifications, error and owner. */
  const OutputContact := [
    Blank("title"), Blank("name"), Blank("email"), Blank("phone"), Blank("linkedin"), Blank("github")]

  const OutputSections := [
    Blank("professionalsummary"), Blank("skills"), Blank("workexperience"), Blank("projects"), Blank("education")]

  const OutputTail := [OptDefault("certifications", StrType, Null), Blank("error"), Req("user_id", StrType)]

  const ResumeOutputSchema := OutputContact + OutputSections + OutputTail

  /** The template must be one of the three styles, spelled exactly. */
  lemma TemplateChoices(v: Value)
    ensures FieldOk(TemplateField, v) <==> v == Str("modern-1") || v == Str("modern-2") || v == Str("modern-3")
  {
  }

  lemma SectionKindChoices(v: Value)
    ensures FieldOk(SectionTypeField, v) <==> v.Str? && v.s in SectionKinds
    ensures !FieldOk(SectionTypeField, Str("Education")) && !FieldOk(SectionTypeField, Str("summary\n"))
  {
    assert "Education" != "education";
    assert "summary\n" != "summary";
  }

  lemma SkillLevelChoices(v: Value)
    ensures FieldOk(SkillLevelField, v) <==> v.Str? && v.s in SkillLevels
    ensures !FieldOk(SkillLevelField, Str("expert"))
  {
    assert "expert" != "Expert";
  }

  /** The phone may be left out or be `None`; a supplied string must have 6
      to 24 code points. */
  lemma PhoneRule(input: map<string, Value>)
    ensures "phone" !in input ==> FieldValue(PhoneField, input) == Some(Null)
    ensures "phone" in input ==>
              (FieldValue(PhoneField, input).Some? <==>
               input["phone"].Null? || (input["phone"].Str? && 6 <= |input["phone"].s| <= 24))
  {
  }

  /** The generation request: the five text fields must be strings, the
      template one of the styles, and the certifications a string or `None`
      (but supplied). */
  lemma ResumeInputRule(input: map<string, Value>)
    ensures Accepts(ResumeInputSchema, input) <==>
              && "title" in input && input["title"].Str?
              && "template" in input && input["template"].Str? && input["template"].s in Templates
              && "education" in input && input["education"].Str?
              && "experience" in input && input["experience"].Str?
              && "projects" in input && input["projects"].Str?
              && "skills" in input && input["skills"].Str?
              && "certifications" in input && (input["certifications"].Null? || input["certifications"].Str?)
  {
    var schema := ResumeInputSchema;
    if Accepts(schema, input) {
      assert FieldValue(schema[0], input).Some?;
      assert FieldValue(schema[1], input).Some?;
      assert FieldValue(schema[2], input).Some?;
      assert FieldValue(schema[3], input).Some?;
      assert FieldValue(schema[4], input).Some?;
      assert FieldValue(schema[5], input).Some?;
      assert FieldValue(schema[6], input).Some?;
    }
  }

  lemma OutputNamesDistinct()
    ensures DistinctNames(ResumeOutputSchema)
  {
    OutputRunsDistinct();
    OutputContactSectionsDisjoint();
    OutputTailDisjoint();
    DistinctNamesAppend(OutputContact, OutputSections);
    DistinctNamesAppend(OutputContact + OutputSections, OutputTail);
  }

  lemma OutputRunsDistinct()
    ensures DistinctNames(OutputContact) && DistinctNames(OutputSections) && DistinctNames(OutputTail)
  {
  }

  lemma OutputContactSectionsDisjoint()
    ensures forall i, j :: 0 <= i < |OutputContact| && 0 <= j < |OutputSections| ==>
              OutputContact[i].name != OutputSections[j].name
  {
  }

  lemma OutputTailDisjoint()
    ensures forall i, j :: 0 <= i < |OutputContact + OutputSections| && 0 <= j < |OutputTail| ==>
              (OutputContact + OutputSections)[i].name != OutputTail[j].name
  {
  }

  lemma OutputTextFieldsBlank()
    ensures forall i :: 0 <= i < |OutputTextFields| ==> ResumeOutputSchema[i] == Blank(OutputTextFields[i])
  {
  }

  lemma OutputAcceptsOwnerOnly(userId: string)
    ensures Accepts(ResumeOutputSchema, map["user_id" := Str(userId)])
  {
    assert forall i :: 0 <= i < 13 ==>
             ResumeOutputSchema[i].name != "user_id" && ResumeOutputSchema[i].presence.Default?;
  }

  /** Every field of the generation response has a default except the
      owner's id: the text fields default to "", the certifications to `None`. */
  lemma ResumeOutputDefaults(userId: string)
    ensures var r := Validate(ResumeOutputSchema, map["user_id" := Str(userId)]);
            && r.Some?
            && (forall i :: 0 <= i < |OutputTextFields| ==>
                  OutputTextFields[i] in r.value && r.value[OutputTextFields[i]] == Str(""))
            && "certifications" in r.value && r.value["certifications"] == Null
            && "error" in r.value && r.value["error"] == Str("")
            && "user_id" in r.value && r.value["user_id"] == Str(userId)
    ensures Validate(ResumeOutputSchema, map[]).None?
  {
    var schema := ResumeOutputSchema;
    OutputNamesDistinct();
    OutputAcceptsOwnerOnly(userId);
    OutputTextFieldsBlank();
    assert schema[11].name == "certifications" && schema[12].name == "error" && schema[13].name == "user_id";
    RequiredFieldMissing(schema, map[], 13);
  }
}
