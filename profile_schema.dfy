/** The model classes of the profile schema file. They repeat the resume
    schema file's classes with different requirements: the profile's bio,
    picture, phone and links must all be supplied, and a resume's
    timestamps may not be `None`. */
module ProfileSchema {
  import opened Wrappers
  import opened JsValues
  import opened Schema
  import ResumeSchema

  /** `Optional[str] = Field(..., min_length=6, max_length=24)`: required,
      `None` allowed, otherwise 6 to 24 code points. */
  const PhoneField := FieldSpec("phone", StrType, true, Required, Length(6, Some(24)))

  const ProfileSchema := [
    ResumeSchema.Req("userId", StrType), ResumeSchema.Req("name", StrType), ResumeSchema.Req("email", StrType),
    ResumeSchema.Req("bio", StrType), ResumeSchema.ReqOrNone("profilePicture", StrType), PhoneField,
    ResumeSchema.ReqOrNone("address", StrType), ResumeSchema.ReqOrNone("linkedin", StrType),
    ResumeSchema.ReqOrNone("github", StrType)]

  const CreatedAtField := ResumeSchema.Req("createdAt", DateTimeType)

  const ResumeRecordSchema := [
    ResumeSchema.Req("resumeId", StrType), ResumeSchema.Req("UserId", StrType), ResumeSchema.Req("title", StrType),
    ResumeSchema.Req("template", StrType), CreatedAtField, ResumeSchema.Req("updatedAt", DateTimeType)]

  /** The section classes are declared as in the resume schema file. */
  const SectionSchema := ResumeSchema.SectionSchema
  const EducationSchema := ResumeSchema.EducationSchema
  const ExperienceSchema := ResumeSchema.ExperienceSchema
  const ProjectSchema := ResumeSchema.ProjectSchema
  const SkillSchema := ResumeSchema.SkillSchema
  const CertificationSchema := ResumeSchema.CertificationSchema

  /** The phone must be supplied; it may be `None`, and a supplied string
      must have 6 to 24 code points. */
  lemma PhoneRule(input: map<string, Value>)
    ensures "phone" !in input ==> FieldValue(PhoneField, input).None?
    ensures "phone" in input ==>
              (FieldValue(PhoneField, input).Some? <==>
               input["phone"].Null? || (input["phone"].Str? && 6 <= |input["phone"].s| <= 24))
  {
  }

  /** A profile without a phone is rejected here, although the resume
      schema file's profile class fills it with `None`. */
  lemma MissingPhoneRejected(input: map<string, Value>)
    requires "phone" !in input
    ensures Validate(ProfileSchema, input).None?
    ensures FieldValue(ResumeSchema.PhoneField, input) == Some(Null)
  {
    assert ProfileSchema[5] == PhoneField;
    RequiredFieldMissing(ProfileSchema, input, 5);
  }

  /** The bio must be a string: neither left out nor `None`. */
  lemma BioRequired(input: map<string, Value>)
    requires "bio" !in input || input["bio"].Null?
    ensures Validate(ProfileSchema, input).None?
  {
    assert ProfileSchema[3] == ResumeSchema.Req("bio", StrType);
    if "bio" in input {
      SuppliedFieldRejected(ProfileSchema, input, 3);
    } else {
      RequiredFieldMissing(ProfileSchema, input, 3);
    }
  }

  /** A resume record's creation time may not be `None` here, while the
      resume schema file's record accepts `None` for it. */
  lemma TimestampNotNullable(input: map<string, Value>)
    requires "createdAt" in input && input["createdAt"].Null?
    ensures Validate(ResumeRecordSchema, input).None?
    ensures FieldValue(ResumeSchema.ResumeRecordSchema[4], input) == Some(Null)
  {
    assert ResumeRecordSchema[4] == CreatedAtField;
    SuppliedFieldRejected(ResumeRecordSchema, input, 4);
  }
}
