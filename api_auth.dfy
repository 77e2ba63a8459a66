/** The authentication API of api/auth.ts: registration, credential and
    Google sign-in, profile fetch and sign-out, and the translation of server
    and SDK failures into typed errors. */
module AuthApi {
  import opened Wrappers
  import opened JsStrings
  import opened JsValues
  import opened Errors
  import opened Store
  import opened RequestClient

  const INVALID_CREDENTIALS: ErrorObject :=
    ErrorObject("INVALID_CREDENTIALS", "Email hoặc mật khẩu không chính xác")
  const EMAIL_NOT_VERIFIED: ErrorObject :=
    ErrorObject("EMAIL_NOT_VERIFIED",
                "Email chưa được xác thực\nVui lòng kiểm tra hòm thư của bạn để xác thực tài khoản")
  const INVALID_REGISTRATION_SCHEMA: ErrorObject :=
    ErrorObject("INVALID_REGISTRATION_SCHEMA", "Invalid registration schema")

  const NON_FIELD_ERRORS: string := "non_field_errors"
  const NOT_VERIFIED: string := "not verified"

  function InvalidCredentialsError(): AppError { Coded(AuthErrorsClass, INVALID_CREDENTIALS, map[]) }
  function EmailNotVerifiedError(): AppError { Coded(AuthErrorsClass, EMAIL_NOT_VERIFIED, map[]) }

  /** `AuthErrors.invalidCredentials(data)`: destructuring `null` throws; a
      truthy `non_field_errors` whose first element (`x[0]`) mentions "not
      verified" means an unverified email; `.includes` on a first element
      that is neither a string nor an array throws. */
  function InvalidCredentials(data: Json): (r: Eval<AppError>)
    ensures data.JNull? ==> r.Crash?
    ensures r.Value? ==> r.value == EmailNotVerifiedError() || r.value == InvalidCredentialsError()
    ensures !data.JNull? && !TruthyOpt(Prop(data, NON_FIELD_ERRORS)) ==> r == Value(InvalidCredentialsError())
  {
    match Read(data, NON_FIELD_ERRORS)
    case Crash => Crash
    case Value(nfe) =>
      if !TruthyOpt(nfe) then Value(InvalidCredentialsError())
      else match Includes(First(nfe.value), NOT_VERIFIED)
        case Crash => Crash
        case Value(b) => Value(if b then EmailNotVerifiedError() else InvalidCredentialsError())
  }

  /** The server's list of messages: the first message decides. */
  lemma CredentialsFromMessageList(data: Json, items: seq<Json>, m: string)
    requires data.JObj? && NON_FIELD_ERRORS in data.fields && data.fields[NON_FIELD_ERRORS] == JArr(items)
    requires |items| > 0 && items[0] == JStr(m)
    ensures InvalidCredentials(data) ==
      Value(if Contains(m, NOT_VERIFIED) then EmailNotVerifiedError() else InvalidCredentialsError())
  {
  }

  /** A needle longer than the text never occurs in it. */
  lemma ContainsNeedsRoom(s: string, needle: string)
    requires |s| < |needle|
    ensures !Contains(s, needle)
  {
  }

  /** A single message sent as a string is read through its first character
      only, so it never yields the unverified-email error. */
  lemma CredentialsFromMessageString(data: Json, m: string)
    requires data.JObj? && NON_FIELD_ERRORS in data.fields && data.fields[NON_FIELD_ERRORS] == JStr(m)
    ensures InvalidCredentials(data) == Value(InvalidCredentialsError())
  {
    if m != "" {
      ContainsNeedsRoom(m[..1], NOT_VERIFIED);
    }
  }

  /** An empty message list is truthy and has no first element, so the
      `.includes` call throws. */
  lemma CredentialsCrashOnEmptyList(data: Json)
    requires data.JObj? && NON_FIELD_ERRORS in data.fields && data.fields[NON_FIELD_ERRORS] == JArr([])
    ensures InvalidCredentials(data).Crash?
  {
  }

  /** The field errors of a registration error, under the form's names. */
  function RegistrationFields(data: Json): map<string, Json> {
    var p0 := SetIfTruthy(map[], "email", Prop(data, "email"));
    var p1 := SetIfTruthy(p0, "password", Prop(data, "password1"));
    SetIfTruthy(p1, "confirmPassword", Prop(data, "password2"))
  }

  /** `AuthErrors.invalidRegistrationSchema(data)`: destructuring `null`
      throws; truthy `non_field_errors` become a schema error of the base
      class; otherwise a registration error carrying the truthy field errors
      under the form's names. */
  function InvalidRegistrationSchema(data: Json): (r: Eval<AppError>)
    ensures r.Crash? <==> data.JNull?
    ensures !data.JNull? && TruthyOpt(Prop(data, NON_FIELD_ERRORS)) ==>
      r == Value(InvalidSchema(AppErrorsClass, Prop(data, NON_FIELD_ERRORS)))
    ensures !data.JNull? && !TruthyOpt(Prop(data, NON_FIELD_ERRORS)) ==>
      r.Value? && r.value.Coded? && r.value.cls == AuthErrorsClass
      && r.value.obj == INVALID_REGISTRATION_SCHEMA
  {
    match Read(data, NON_FIELD_ERRORS)
    case Crash => Crash
    case Value(nfe) =>
      if TruthyOpt(nfe) then Value(InvalidSchema(AppErrorsClass, nfe))
      else Value(Coded(AuthErrorsClass, INVALID_REGISTRATION_SCHEMA, RegistrationFields(data)))
  }

  /** The properties of a registration error: `email`, `password` and
      `confirmPassword` exactly for the truthy `email`, `password1` and
      `password2` of the body, with their values. */
  lemma RegistrationProperties(data: Json)
    requires data.JObj? && !TruthyOpt(Prop(data, NON_FIELD_ERRORS))
    ensures var props := InvalidRegistrationSchema(data).value.properties;
      (forall k :: k in props <==>
         (k == "email" && TruthyOpt(Prop(data, "email")))
         || (k == "password" && TruthyOpt(Prop(data, "password1")))
         || (k == "confirmPassword" && TruthyOpt(Prop(data, "password2"))))
      && ("email" in props ==> props["email"] == data.fields["email"])
      && ("password" in props ==> props["password"] == data.fields["password1"])
      && ("confirmPassword" in props ==> props["confirmPassword"] == data.fields["password2"])
  {
  }

  /** The catch blocks of `register` and `loginWithCreds` leave every failure
      typed, except a 400 whose body the mapper cannot read: a `null` body,
      and for the credentials mapper also a body it crashes on (an empty
      message list, for one). */
  lemma AuthFailuresTyped(t: Thrown)
    ensures TranslateFailure(t, InvalidRegistrationSchema) == TypeError <==>
      IsAxiosStatus(t, 400) && t.response.value.data.JNull?
    ensures TranslateFailure(t, InvalidCredentials) == TypeError <==>
      IsAxiosStatus(t, 400) && InvalidCredentials(t.response.value.data).Crash?
  {
  }

  /** `register(schema)`: on success the session is signed in with the new
      tokens and profile; failures go through the registration catch block. */
  method Register(s: Session, reply: Transport<LoginResponse>, script: seq<Transport<RefreshTokenResponse>>)
    returns (r: Settled<LoginResponse>)
    modifies s
    ensures r == Settle(RequestOutcome(None, reply, script), InvalidRegistrationSchema)
    ensures reply.Delivered? ==> s.State() == WithSignIn(old(s.State()), reply.data.user, TokenOf(reply.data))
    ensures reply.Failed? && StateAfterRequest(old(s.State()), None, reply, script).Some? ==>
      s.State() == StateAfterRequest(old(s.State()), None, reply, script).value
  {
    var o := Request(s, None, reply, script);
    match o
    case Resolved(_, body) =>
      s.SignIn(body.user, TokenOf(body));
      r := Fulfilled(body);
    case Rejected(t) =>
      r := Raised(TranslateFailure(t, InvalidRegistrationSchema));
    case Exhausted =>
      r := Undetermined;
  }

  /** `loginWithCreds(schema)`: as `register`, with the credentials catch block. */
  method LoginWithCreds(s: Session, reply: Transport<LoginResponse>, script: seq<Transport<RefreshTokenResponse>>)
    returns (r: Settled<LoginResponse>)
    modifies s
    ensures r == Settle(RequestOutcome(None, reply, script), InvalidCredentials)
    ensures reply.Delivered? ==> s.State() == WithSignIn(old(s.State()), reply.data.user, TokenOf(reply.data))
    ensures reply.Failed? && StateAfterRequest(old(s.State()), None, reply, script).Some? ==>
      s.State() == StateAfterRequest(old(s.State()), None, reply, script).value
  {
    var o := Request(s, None, reply, script);
    match o
    case Resolved(_, body) =>
      s.SignIn(body.user, TokenOf(body));
      r := Fulfilled(body);
    case Rejected(t) =>
      r := Raised(TranslateFailure(t, InvalidCredentials));
    case Exhausted =>
      r := Undetermined;
  }

  /** The Google Sign-In SDK's status codes, whose values the SDK defines per
      platform. */
  datatype SdkStatusCodes = SdkStatusCodes(signInCancelled: string, signInRequired: string)

  /** `GoogleSigninErrors.SignInRequired` and `.SignInNetworkError`. */
  const SIGN_IN_REQUIRED_CODE: string := "getTokens"
  const SIGN_IN_NETWORK_ERROR_CODE: string := "7"

  function SignInCancelledObject(codes: SdkStatusCodes): ErrorObject {
    ErrorObject("SIGN_IN_CANCELLED", codes.signInCancelled)
  }

  function SignInRequiredObject(codes: SdkStatusCodes): ErrorObject {
    ErrorObject("SIGN_IN_REQUIRED", codes.signInRequired)
  }

  /** The first case label of the switch in `getGoogleTokens`:
      `statusCodes.SIGN_IN_CANCELLED || GoogleSigninErrors.SignInRequired`,
      which is one string, the second only when the first is empty. */
  function CancelledLabel(codes: SdkStatusCodes): string {
    if codes.signInCancelled != "" then codes.signInCancelled else SIGN_IN_REQUIRED_CODE
  }

  /** The catch block of `getGoogleTokens` as written: a strict-equality
      switch over the SDK error code; an error without a code, or with any
      other code, becomes the unknown error. */
  function GoogleTokensErrorAsWritten(codes: SdkStatusCodes, code: Option<string>): Thrown {
    match code
    case None => App(UnknownError())
    case Some(c) =>
      if c == CancelledLabel(codes) then SignInError(SignInCancelledObject(codes))
      else if c == codes.signInRequired then SignInError(SignInRequiredObject(codes))
      else if c == SIGN_IN_NETWORK_ERROR_CODE then App(NetworkError)
      else App(UnknownError())
  }

  /** As written, the code "getTokens" (which the SDK's `getTokens` uses when
      no user is signed in) is not recognised: with the SDK's non-empty cancel
      code the first label is only that code. */
  lemma GetTokensCodeAsWrittenIsUnknown(codes: SdkStatusCodes)
    requires codes.signInCancelled != "" && codes.signInCancelled != SIGN_IN_REQUIRED_CODE
    requires codes.signInRequired != SIGN_IN_REQUIRED_CODE
    ensures GoogleTokensErrorAsWritten(codes, Some(SIGN_IN_REQUIRED_CODE)) == App(UnknownError())
  {
  }

  /** The catch block of `getGoogleTokens` with both codes of the first label
      recognised, as its two alternatives intend. */
  function GoogleTokensError(codes: SdkStatusCodes, code: Option<string>): (r: Thrown)
    ensures r == SignInError(SignInCancelledObject(codes)) <==>
      code.Some? && (code.value == codes.signInCancelled || code.value == SIGN_IN_REQUIRED_CODE)
    ensures r == SignInError(SignInRequiredObject(codes)) && codes.signInRequired != codes.signInCancelled ==>
      code == Some(codes.signInRequired)
    ensures code.Some? && code.value == codes.signInRequired && code.value != codes.signInCancelled
            && code.value != SIGN_IN_REQUIRED_CODE ==>
      r == SignInError(SignInRequiredObject(codes))
    ensures r == App(NetworkError) <==>
      code == Some(SIGN_IN_NETWORK_ERROR_CODE) && SIGN_IN_NETWORK_ERROR_CODE != codes.signInCancelled
      && SIGN_IN_NETWORK_ERROR_CODE != codes.signInRequired
    ensures r.App? ==> r == App(NetworkError) || r == App(UnknownError())
  {
    match code
    case None => App(UnknownError())
    case Some(c) =>
      if c == codes.signInCancelled || c == SIGN_IN_REQUIRED_CODE then SignInError(SignInCancelledObject(codes))
      else if c == codes.signInRequired then SignInError(SignInRequiredObject(codes))
      else if c == SIGN_IN_NETWORK_ERROR_CODE then App(NetworkError)
      else App(UnknownError())
  }

  /** The two versions differ exactly on the code "getTokens". */
  lemma GoogleTokensErrorDiffers(codes: SdkStatusCodes, code: Option<string>)
    requires codes.signInCancelled != ""
    ensures GoogleTokensErrorAsWritten(codes, code) != GoogleTokensError(codes, code) ==>
      code == Some(SIGN_IN_REQUIRED_CODE)
  {
  }

  /** One step of the Google Sign-In SDK: it completes with a value or throws
      an error (with its code when it has one). */
  datatype SdkStep<T> = Done(value: T) | SdkThrew(code: Option<string>)

  /** `getGoogleTokens()`: a previous sign-in is signed out first (a failure
      there propagates as it is); then `signIn` and `getTokens`, whose
      failure goes through the catch block as written. A failure of that
      step is a sign-in error, the network error or the unknown error, and
      the code "getTokens" is the unknown error. */
  function GetGoogleTokens(codes: SdkStatusCodes, hasPreviousSignIn: bool, signOut: SdkStep<()>,
                           tokens: SdkStep<string>): (r: Settled<string>)
    ensures r != Undetermined
    ensures r.Fulfilled? <==> !(hasPreviousSignIn && signOut.SdkThrew?) && tokens.Done?
    ensures r.Fulfilled? ==> r.value == tokens.value
    ensures hasPreviousSignIn && signOut.SdkThrew? ==> r == Raised(SdkFailure(signOut.code))
    ensures !(hasPreviousSignIn && signOut.SdkThrew?) && tokens.SdkThrew? ==>
      r == Raised(GoogleTokensErrorAsWritten(codes, tokens.code))
      && (r.error.SignInError? || r.error == App(NetworkError) || r.error == App(UnknownError()))
    ensures !(hasPreviousSignIn && signOut.SdkThrew?) && tokens == SdkThrew(Some(SIGN_IN_REQUIRED_CODE))
            && codes.signInCancelled != "" && codes.signInCancelled != SIGN_IN_REQUIRED_CODE
            && codes.signInRequired != SIGN_IN_REQUIRED_CODE ==>
      r == Raised(App(UnknownError()))
  {
    if hasPreviousSignIn && signOut.SdkThrew? then Raised(SdkFailure(signOut.code))
    else match tokens
      case Done(token) => Fulfilled(token)
      case SdkThrew(code) => Raised(GoogleTokensErrorAsWritten(codes, code))
  }

  /** `loginWithGoogle()`: the SDK token is sent to the backend; a response
      signs the session in; a failure of either step propagates untranslated. */
  method LoginWithGoogle(s: Session, codes: SdkStatusCodes, hasPreviousSignIn: bool, signOut: SdkStep<()>,
                         tokens: SdkStep<string>, reply: Transport<LoginResponse>,
                         script: seq<Transport<RefreshTokenResponse>>)
    returns (r: Settled<LoginResponse>)
    modifies s
    ensures GetGoogleTokens(codes, hasPreviousSignIn, signOut, tokens).Raised? ==>
      r == Raised(GetGoogleTokens(codes, hasPreviousSignIn, signOut, tokens).error)
      && s.State() == old(s.State())
    ensures GetGoogleTokens(codes, hasPreviousSignIn, signOut, tokens).Fulfilled? ==>
      match RequestOutcome(None, reply, script)
      case Resolved(_, body) =>
        r == Fulfilled(body) && s.State() == WithSignIn(old(s.State()), body.user, TokenOf(body))
      case Rejected(t) =>
        r == Raised(t) && s.State() == StateAfterRequest(old(s.State()), None, reply, script).value
      case Exhausted => r == Undetermined
  {
    var token := GetGoogleTokens(codes, hasPreviousSignIn, signOut, tokens);
    if token.Raised? {
      return Raised(token.error);
    }
    RequestOutcomeCases(s.State(), None, reply, script);
    var o := Request(s, None, reply, script);
    match o
    case Resolved(_, body) =>
      s.SignIn(body.user, TokenOf(body));
      r := Fulfilled(body);
    case Rejected(t) =>
      r := Raised(t);
    case Exhausted =>
      r := Undetermined;
  }

  /** `getUserInfo()`: the fetched profile replaces the one in memory and in
      storage; failures propagate untranslated. */
  method GetUserInfo(s: Session, reply: Transport<UserInfo>, script: seq<Transport<RefreshTokenResponse>>)
    returns (r: Settled<UserInfo>)
    modifies s
    ensures match RequestOutcome(None, reply, script)
      case Resolved(_, user) => r == Fulfilled(user) && s.State() == WithUser(old(s.State()), user)
      case Rejected(t) => r == Raised(t) && s.State() == StateAfterRequest(old(s.State()), None, reply, script).value
      case Exhausted => r == Undetermined
  {
    RequestOutcomeCases(s.State(), None, reply, script);
    var o := Request(s, None, reply, script);
    match o
    case Resolved(_, user) =>
      s.SetUserInfo(user);
      r := Fulfilled(user);
    case Rejected(t) =>
      r := Raised(t);
    case Exhausted =>
      r := Undetermined;
  }

  /** `logout()` of api/auth.ts: the Google session is signed out first, then
      the backend; only when both succeed is the session cleared, in memory
      and in storage. */
  method Logout<B>(s: Session, hasPreviousSignIn: bool, signOut: SdkStep<()>, reply: Transport<B>,
                   script: seq<Transport<RefreshTokenResponse>>)
    returns (r: Settled<()>)
    modifies s
    ensures hasPreviousSignIn && signOut.SdkThrew? ==>
      r == Raised(SdkFailure(signOut.code)) && s.State() == old(s.State())
    ensures !(hasPreviousSignIn && signOut.SdkThrew?) ==>
      match RequestOutcome(None, reply, script)
      case Resolved(_, _) => r == Fulfilled(()) && s.State() == WithSignOut(old(s.State()))
      case Rejected(t) => r == Raised(t) && s.State() == StateAfterRequest(old(s.State()), None, reply, script).value
      case Exhausted => r == Undetermined
  {
    if hasPreviousSignIn && signOut.SdkThrew? {
      return Raised(SdkFailure(signOut.code));
    }
    RequestOutcomeCases(s.State(), None, reply, script);
    var o := Request(s, None, reply, script);
    match o
    case Resolved(_, _) =>
      s.SignOut();
      r := Fulfilled(());
    case Rejected(t) =>
      r := Raised(t);
    case Exhausted =>
      r := Undetermined;
  }
}
