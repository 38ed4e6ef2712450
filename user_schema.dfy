/** The model classes of the user schema file: the registration and login
    bodies and the authentication response. */
module UserSchema {
  import opened Wrappers
  import opened JsValues
  import opened Schema

  const NameField := FieldSpec("name", StrType, false, Required, Length(2, Some(100)))

  function Password(name: string): FieldSpec
  {
    FieldSpec(name, StrType, false, Required, Length(8, None))
  }

  const CreateUserSchema := [
    FieldSpec("email", StrType, false, Required, NoConstraint), NameField,
    Password("password"), Password("confirm_password")]

  const AuthResponseSchema := [
    FieldSpec("success", BoolType, false, Required, NoConstraint),
    FieldSpec("message", StrType, false, Required, NoConstraint),
    FieldSpec("error", StrOrDictType, true, Default(Null), NoConstraint),
    FieldSpec("userInfo", DictType, true, Default(Null), NoConstraint)]

  const UserLoginSchema := [FieldSpec("email", StrType, false, Required, NoConstraint), Password("password")]

  /** A registration body is accepted exactly when the email is a string,
      the name has 2 to 100 code points and both passwords have at least 8.
      Nothing relates the two passwords, nor checks the email's form. */
  lemma CreateUserRule(input: map<string, Value>)
    ensures Accepts(CreateUserSchema, input) <==>
              && "email" in input && input["email"].Str?
              && "name" in input && input["name"].Str? && 2 <= |input["name"].s| <= 100
              && "password" in input && input["password"].Str? && |input["password"].s| >= 8
              && "confirm_password" in input && input["confirm_password"].Str? && |input["confirm_password"].s| >= 8
  {
    var schema := CreateUserSchema;
    if Accepts(schema, input) {
      assert FieldValue(schema[0], input).Some?;
      assert FieldValue(schema[1], input).Some?;
      assert FieldValue(schema[2], input).Some?;
      assert FieldValue(schema[3], input).Some?;
    }
  }

  /** Two different passwords pass validation. */
  lemma MismatchedPasswordsAccepted()
    ensures var input := map["email" := Str("x"), "name" := Str("ab"),
                             "password" := Str("12345678"), "confirm_password" := Str("abcdefgh")];
            && input["password"] != input["confirm_password"]
            && Accepts(CreateUserSchema, input)
  {
    var input := map["email" := Str("x"), "name" := Str("ab"),
                     "password" := Str("12345678"), "confirm_password" := Str("abcdefgh")];
    assert "12345678"[0] != "abcdefgh"[0];
    CreateUserRule(input);
  }

  /** A login body is accepted exactly when the email is a string and the
      password has at least 8 code points. */
  lemma LoginRule(input: map<string, Value>)
    ensures Accepts(UserLoginSchema, input) <==>
              && "email" in input && input["email"].Str?
              && "password" in input && input["password"].Str? && |input["password"].s| >= 8
  {
    var schema := UserLoginSchema;
    if Accepts(schema, input) {
      assert FieldValue(schema[0], input).Some?;
      assert FieldValue(schema[1], input).Some?;
    }
  }

  lemma AuthResponseNamesDistinct()
    ensures DistinctNames(AuthResponseSchema)
  {
  }

  lemma AuthResponseAccepts(success: bool, message: string)
    ensures Accepts(AuthResponseSchema, map["success" := Bool(success), "message" := Str(message)])
  {
    var schema := AuthResponseSchema;
    var input := map["success" := Bool(success), "message" := Str(message)];
    assert FieldValue(schema[0], input).Some? && FieldValue(schema[1], input).Some?;
    assert FieldValue(schema[2], input).Some? && FieldValue(schema[3], input).Some?;
  }

  /** The response needs its success flag and message; the error and the
      user's data default to `None`. */
  lemma AuthResponseDefaults(success: bool, message: string)
    ensures var r := Validate(AuthResponseSchema, map["success" := Bool(success), "message" := Str(message)]);
            && r.Some?
            && "error" in r.value && r.value["error"] == Null
            && "userInfo" in r.value && r.value["userInfo"] == Null
            && "success" in r.value && r.value["success"] == Bool(success)
    ensures Validate(AuthResponseSchema, map["success" := Bool(success)]).None?
  {
    AuthResponseNamesDistinct();
    AuthResponseAccepts(success, message);
    assert AuthResponseSchema[2].name == "error" && AuthResponseSchema[3].name == "userInfo";
    RequiredFieldMissing(AuthResponseSchema, map["success" := Bool(success)], 1);
  }
}
