/**
 * The bodies of the authentication requests: the zod schemas for signup, forgotten
 * password, password reset, password change and login. Every field is a string;
 * the password rules are a length of 8 to 64 with an upper-case letter and a digit.
 */
module AuthValidation {
  import opened Wrappers
  import opened Json
  import opened Zod

  datatype SignupRequest = SignupRequest(fullName: string, email: string, password: string)
  datatype ForgotPasswordRequest = ForgotPasswordRequest(email: string)
  datatype ResetPasswordRequest = ResetPasswordRequest(accessToken: string, newPassword: string)
  datatype ChangePasswordRequest = ChangePasswordRequest(currentPassword: string, newPassword: string)
  datatype LoginRequest = LoginRequest(email: string, password: string)

  /** The rule every new password follows: 8 to 64 characters, an upper-case letter
      (`/[A-Z]/`) and a digit (`/[0-9]/`). */
  predicate StrongPassword(p: string) {
    8 <= |p| <= 64 && HasCharIn(p, 'A', 'Z') && HasCharIn(p, '0', '9')
  }

  /** `.min(8).max(64).regex(/[A-Z]/).regex(/[0-9]/)` with the given messages. */
  function PasswordChecks(short: Option<string>, long: Option<string>, upper: Option<string>, digit: Option<string>): seq<StringCheck> {
    [MinLength(8, short), MaxLength(64, long), RegexRange('A', 'Z', upper), RegexRange('0', '9', digit)]
  }

  function SignupFields(isEmail: string -> bool): seq<FieldSpec> {
    [ FieldSpec("full_name", StringSchema(Some("Full name is required"),
        [MinLength(2, Some("Full name too short")), MaxLength(50, Some("Full name too long"))])),
      FieldSpec("email", StringSchema(Some("Email is required"), [Format(isEmail, Some("Invalid email format"))])),
      FieldSpec("password", StringSchema(Some("Password is required"),
        PasswordChecks(Some("Password must be at least 8 characters"), Some("Password too long"),
          Some("Password must contain an uppercase letter"), Some("Password must contain a number")))) ]
  }

  function ForgotPasswordFields(isEmail: string -> bool): seq<FieldSpec> {
    [FieldSpec("email", StringSchema(None, [Format(isEmail, Some("Invalid email"))]))]
  }

  function ResetPasswordFields(): seq<FieldSpec> {
    [ FieldSpec("access_token", StringSchema(None, [])),
      FieldSpec("new_password", StringSchema(None,
        PasswordChecks(None, None, Some("Must contain uppercase"), Some("Must contain number")))) ]
  }

  function ChangePasswordFields(): seq<FieldSpec> {
    [ FieldSpec("current_password", StringSchema(None, [MinLength(1, None)])),
      FieldSpec("new_password", StringSchema(None, PasswordChecks(None, None, None, None))) ]
  }

  function LoginFields(isEmail: string -> bool): seq<FieldSpec> {
    [ FieldSpec("email", StringSchema(Some("Email is required"), [Format(isEmail, Some("Invalid email format"))])),
      FieldSpec("password", StringSchema(Some("Password is required"), [MinLength(1, Some("Password is required"))])) ]
  }

  function ParseSignup(body: Json, isEmail: string -> bool): Result<SignupRequest, seq<Issue>> {
    match ParseStringObject(body, SignupFields(isEmail))
    case Success(v) => Success(SignupRequest(v[0], v[1], v[2]))
    case Failure(e) => Failure(e)
  }

  function ParseForgotPassword(body: Json, isEmail: string -> bool): Result<ForgotPasswordRequest, seq<Issue>> {
    match ParseStringObject(body, ForgotPasswordFields(isEmail))
    case Success(v) => Success(ForgotPasswordRequest(v[0]))
    case Failure(e) => Failure(e)
  }

  function ParseResetPassword(body: Json): Result<ResetPasswordRequest, seq<Issue>> {
    match ParseStringObject(body, ResetPasswordFields())
    case Success(v) => Success(ResetPasswordRequest(v[0], v[1]))
    case Failure(e) => Failure(e)
  }

  function ParseChangePassword(body: Json): Result<ChangePasswordRequest, seq<Issue>> {
    match ParseStringObject(body, ChangePasswordFields())
    case Success(v) => Success(ChangePasswordRequest(v[0], v[1]))
    case Failure(e) => Failure(e)
  }

  function ParseLogin(body: Json, isEmail: string -> bool): Result<LoginRequest, seq<Issue>> {
    match ParseStringObject(body, LoginFields(isEmail))
    case Success(v) => Success(LoginRequest(v[0], v[1]))
    case Failure(e) => Failure(e)
  }

  /** The string under `key`, when the body has one. */
  predicate HasString(m: map<string, Json>, key: string) {
    key in m && m[key].String?
  }

  /** The four password checks pass exactly on a strong password, whatever their messages. */
  lemma PasswordChecksIff(p: string, path: string, short: Option<string>, long: Option<string>, upper: Option<string>, digit: Option<string>)
    ensures StringIssues(p, PasswordChecks(short, long, upper, digit), path) == [] <==> StrongPassword(p)
  {
    var cs := PasswordChecks(short, long, upper, digit);
    assert (forall k :: 0 <= k < |cs| ==> Passes(p, cs[k]))
      <==> Passes(p, cs[0]) && Passes(p, cs[1]) && Passes(p, cs[2]) && Passes(p, cs[3]);
  }

  /** Signup accepts a body exactly when the full name has 2 to 50 characters, the
      email is an email and the password is strong; it then returns those strings. */
  lemma SignupAcceptsIff(body: Json, isEmail: string -> bool)
    ensures ParseSignup(body, isEmail).Success? <==>
      && body.Object?
      && HasString(body.members, "full_name") && 2 <= |body.members["full_name"].s| <= 50
      && HasString(body.members, "email") && isEmail(body.members["email"].s)
      && HasString(body.members, "password") && StrongPassword(body.members["password"].s)
    ensures ParseSignup(body, isEmail).Success? ==>
      ParseSignup(body, isEmail).value
        == SignupRequest(body.members["full_name"].s, body.members["email"].s, body.members["password"].s)
  {
    var fs := SignupFields(isEmail);
    if body.Object? {
      var m := body.members;
      assert (forall k :: 0 <= k < |fs| ==> FieldAccepted(m, fs[k]))
        <==> FieldAccepted(m, fs[0]) && FieldAccepted(m, fs[1]) && FieldAccepted(m, fs[2]);
      SignupFieldsIff(m, isEmail);
    }
  }

  lemma SignupFieldsIff(m: map<string, Json>, isEmail: string -> bool)
    ensures FieldAccepted(m, SignupFields(isEmail)[0]) <==> HasString(m, "full_name") && 2 <= |m["full_name"].s| <= 50
    ensures FieldAccepted(m, SignupFields(isEmail)[1]) <==> HasString(m, "email") && isEmail(m["email"].s)
    ensures FieldAccepted(m, SignupFields(isEmail)[2]) <==> HasString(m, "password") && StrongPassword(m["password"].s)
  {
    var fs := SignupFields(isEmail);
    if HasString(m, "full_name") {
      var cs := fs[0].schema.checks;
      assert (forall k :: 0 <= k < |cs| ==> Passes(m["full_name"].s, cs[k]))
        <==> Passes(m["full_name"].s, cs[0]) && Passes(m["full_name"].s, cs[1]);
    }
    if HasString(m, "email") {
      var cs := fs[1].schema.checks;
      assert (forall k :: 0 <= k < |cs| ==> Passes(m["email"].s, cs[k])) <==> Passes(m["email"].s, cs[0]);
    }
    if HasString(m, "password") {
      PasswordChecksIff(m["password"].s, "password", Some("Password must be at least 8 characters"),
        Some("Password too long"), Some("Password must contain an uppercase letter"), Some("Password must contain a number"));
    }
  }

  /** Forgotten password accepts a body exactly when its email is an email. */
  lemma ForgotPasswordAcceptsIff(body: Json, isEmail: string -> bool)
    ensures ParseForgotPassword(body, isEmail).Success? <==>
      body.Object? && HasString(body.members, "email") && isEmail(body.members["email"].s)
    ensures ParseForgotPassword(body, isEmail).Success? ==>
      ParseForgotPassword(body, isEmail).value == ForgotPasswordRequest(body.members["email"].s)
  {
    var fs := ForgotPasswordFields(isEmail);
    if body.Object? && HasString(body.members, "email") {
      var cs := fs[0].schema.checks;
      var s := body.members["email"].s;
      assert (forall k :: 0 <= k < |cs| ==> Passes(s, cs[k])) <==> Passes(s, cs[0]);
    }
  }

  /** Reset accepts a body exactly when it has an access token and a strong new password. */
  lemma ResetPasswordAcceptsIff(body: Json)
    ensures ParseResetPassword(body).Success? <==>
      && body.Object?
      && HasString(body.members, "access_token")
      && HasString(body.members, "new_password") && StrongPassword(body.members["new_password"].s)
    ensures ParseResetPassword(body).Success? ==>
      ParseResetPassword(body).value
        == ResetPasswordRequest(body.members["access_token"].s, body.members["new_password"].s)
  {
    var fs := ResetPasswordFields();
    if body.Object? {
      var m := body.members;
      assert (forall k :: 0 <= k < |fs| ==> FieldAccepted(m, fs[k]))
        <==> FieldAccepted(m, fs[0]) && FieldAccepted(m, fs[1]);
      if HasString(m, "new_password") {
        PasswordChecksIff(m["new_password"].s, "new_password", None, None, Some("Must contain uppercase"), Some("Must contain number"));
      }
    }
  }

  /** Change accepts a body exactly when the current password is not empty and the new
      one is strong. */
  lemma ChangePasswordAcceptsIff(body: Json)
    ensures ParseChangePassword(body).Success? <==>
      && body.Object?
      && HasString(body.members, "current_password") && body.members["current_password"].s != []
      && HasString(body.members, "new_password") && StrongPassword(body.members["new_password"].s)
    ensures ParseChangePassword(body).Success? ==>
      ParseChangePassword(body).value
        == ChangePasswordRequest(body.members["current_password"].s, body.members["new_password"].s)
  {
    var fs := ChangePasswordFields();
    if body.Object? {
      var m := body.members;
      assert (forall k :: 0 <= k < |fs| ==> FieldAccepted(m, fs[k]))
        <==> FieldAccepted(m, fs[0]) && FieldAccepted(m, fs[1]);
      if HasString(m, "current_password") {
        var cs := fs[0].schema.checks;
        var s := m["current_password"].s;
        assert (forall k :: 0 <= k < |cs| ==> Passes(s, cs[k])) <==> Passes(s, cs[0]);
      }
      if HasString(m, "new_password") {
        PasswordChecksIff(m["new_password"].s, "new_password", None, None, None, None);
      }
    }
  }

  /** Login accepts a body exactly when its email is an email and its password is not
      empty; it does not apply the strength rule. */
  lemma LoginAcceptsIff(body: Json, isEmail: string -> bool)
    ensures ParseLogin(body, isEmail).Success? <==>
      && body.Object?
      && HasString(body.members, "email") && isEmail(body.members["email"].s)
      && HasString(body.members, "password") && body.members["password"].s != []
    ensures ParseLogin(body, isEmail).Success? ==>
      ParseLogin(body, isEmail).value == LoginRequest(body.members["email"].s, body.members["password"].s)
  {
    var fs := LoginFields(isEmail);
    if body.Object? {
      var m := body.members;
      assert (forall k :: 0 <= k < |fs| ==> FieldAccepted(m, fs[k]))
        <==> FieldAccepted(m, fs[0]) && FieldAccepted(m, fs[1]);
      if HasString(m, "email") {
        var cs := fs[0].schema.checks;
        assert (forall k :: 0 <= k < |cs| ==> Passes(m["email"].s, cs[k])) <==> Passes(m["email"].s, cs[0]);
      }
      if HasString(m, "password") {
        var cs := fs[1].schema.checks;
        assert (forall k :: 0 <= k < |cs| ==> Passes(m["password"].s, cs[k])) <==> Passes(m["password"].s, cs[0]);
      }
    }
  }

  /** The credentials a signup accepts are accepted by login, and its email by the
      forgotten-password request. */
  lemma SignupThenLogin(body: Json, isEmail: string -> bool)
    requires ParseSignup(body, isEmail).Success?
    ensures ParseLogin(body, isEmail).Success?
    ensures ParseLogin(body, isEmail).value.email == ParseSignup(body, isEmail).value.email
    ensures ParseLogin(body, isEmail).value.password == ParseSignup(body, isEmail).value.password
    ensures ParseForgotPassword(body, isEmail).Success?
  {
    SignupAcceptsIff(body, isEmail);
    LoginAcceptsIff(body, isEmail);
    ForgotPasswordAcceptsIff(body, isEmail);
  }

  /** A new password that is accepted on reset is accepted on change and the other
      way round: the two schemas differ only in their messages. */
  lemma NewPasswordRuleShared(p: string)
    ensures StringIssues(p, ResetPasswordFields()[1].schema.checks, "new_password") == []
        <==> StringIssues(p, ChangePasswordFields()[1].schema.checks, "new_password") == []
  {
    PasswordChecksIff(p, "new_password", None, None, Some("Must contain uppercase"), Some("Must contain number"));
    PasswordChecksIff(p, "new_password", None, None, None, None);
  }

  /** Signing up with the password "abc" reports its three failed checks, in order. */
  lemma ShortPasswordIssues(isEmail: string -> bool)
    ensures StringIssues("abc", SignupFields(isEmail)[2].schema.checks, "password") == [
      Issue("password", TooSmall, Some("Password must be at least 8 characters")),
      Issue("password", InvalidString, Some("Password must contain an uppercase letter")),
      Issue("password", InvalidString, Some("Password must contain a number"))]
  {
    var cs := SignupFields(isEmail)[2].schema.checks;
    var p := "abc";
    assert !HasCharIn(p, 'A', 'Z');
    assert !HasCharIn(p, '0', '9');
    assert StringIssues(p, cs[3..], "password") == [CheckIssue("password", cs[3])] + StringIssues(p, [], "password");
    assert StringIssues(p, cs[2..], "password") == [CheckIssue("password", cs[2])] + StringIssues(p, cs[3..], "password");
    assert StringIssues(p, cs[1..], "password") == [] + StringIssues(p, cs[2..], "password");
    assert StringIssues(p, cs, "password") == [CheckIssue("password", cs[0])] + StringIssues(p, cs[1..], "password");
  }

  /** Login takes a one-letter password that signup refuses. */
  lemma LoginWeakerThanSignup(isEmail: string -> bool)
    ensures var body := Object(map["email" := String("a@b.c"), "password" := String("x")]);
      isEmail("a@b.c") ==> ParseLogin(body, isEmail).Success? && !ParseSignup(body, isEmail).Success?
  {
    var body := Object(map["email" := String("a@b.c"), "password" := String("x")]);
    LoginAcceptsIff(body, isEmail);
    SignupAcceptsIff(body, isEmail);
  }

  /** A missing email gets `required_error` on login, but zod's default message on the
      forgotten-password request, which declares none. */
  lemma MissingEmail(body: Json, isEmail: string -> bool)
    requires body.Object? && "email" !in body.members
    ensures ParseLogin(body, isEmail).Failure?
    ensures ParseLogin(body, isEmail).error[0] == Issue("email", InvalidType, Some("Email is required"))
    ensures ParseForgotPassword(body, isEmail) == Failure([Issue("email", InvalidType, None)])
  {
    var m := body.members;
    var login := LoginFields(isEmail);
    var forgot := ForgotPasswordFields(isEmail);
    assert forgot[1..] == [];
    assert ParseFields(m, forgot) == Failure([Issue("email", InvalidType, None)] + []);
    assert [Issue("email", InvalidType, None)] + [] == [Issue("email", InvalidType, None)];
    assert ParseFields(m, login).error
      == [Issue("email", InvalidType, Some("Email is required"))] + IssuesOf(ParseFields(m, login[1..]));
  }
}
