/** The account API of api/account.ts: profile update, e-mail verification,
    password reset (request, token check, confirmation) and password change,
    with the translation of 400 responses into AccountErrors. */
module AccountApi {
  import opened Wrappers
  import opened JsStrings
  import opened JsValues
  import opened Errors
  import opened Store
  import opened RequestClient

  const INVALID_UPDATE_ACCOUNT: ErrorObject := ErrorObject("INVALID_UPDATE_ACCOUNT", "")
  const INVALID_PASSWORD: ErrorObject := ErrorObject("INVALID_PASSWORD", "Mật khẩu không đúng định dạng")
  const INVALID_TOKEN: ErrorObject :=
    ErrorObject("INVALID_RESET_PASSWORD_TOKEN", "Token không chính xác hoặc đã hết hạn")

  const NON_FIELD_ERRORS: string := "non_field_errors"

  /** A schema error, `this.invalidSchema(...)`, built by AccountErrors. */
  function AccountSchemaError(nonFieldErrors: Option<Json>): AppError {
    InvalidSchema(AccountErrorsClass, nonFieldErrors)
  }

  /** Field errors of a profile update, under the form's names. */
  function UpdateAccountFields(data: Json): map<string, Json> {
    SetIfTruthy(SetIfTruthy(map[], "firstName", Prop(data, "first_name")), "lastName", Prop(data, "last_name"))
  }

  /** Field errors of a password change, under the form's names. */
  function PasswordFields(data: Json): map<string, Json> {
    SetIfTruthy(SetIfTruthy(map[], "newPassword", Prop(data, "new_password1")),
                "confirmNewPassword", Prop(data, "new_password2"))
  }

  /** The shape shared by `invalidUpdateAccount` and `invalidPassword`:
      destructuring `null` throws; truthy `non_field_errors` give a schema
      error; otherwise an AccountErrors with `obj` and the field errors. */
  function FieldErrors(data: Json, obj: ErrorObject, fields: map<string, Json>): (r: Eval<AppError>)
    ensures r.Crash? <==> data.JNull?
    ensures !data.JNull? && TruthyOpt(Prop(data, NON_FIELD_ERRORS)) ==>
      r == Value(AccountSchemaError(Prop(data, NON_FIELD_ERRORS)))
    ensures !data.JNull? && !TruthyOpt(Prop(data, NON_FIELD_ERRORS)) ==>
      r == Value(Coded(AccountErrorsClass, obj, fields))
  {
    match Read(data, NON_FIELD_ERRORS)
    case Crash => Crash
    case Value(nfe) =>
      if TruthyOpt(nfe) then Value(AccountSchemaError(nfe)) else Value(Coded(AccountErrorsClass, obj, fields))
  }

  /** `AccountErrors.invalidUpdateAccount(data)` as written: the field errors
      are wrapped in the InvalidPassword object. */
  function InvalidUpdateAccountAsWritten(data: Json): Eval<AppError> {
    FieldErrors(data, INVALID_PASSWORD, UpdateAccountFields(data))
  }

  /** `AccountErrors.invalidUpdateAccount(data)` with the object the class
      declares for it. */
  function InvalidUpdateAccount(data: Json): Eval<AppError> {
    FieldErrors(data, INVALID_UPDATE_ACCOUNT, UpdateAccountFields(data))
  }

  /** `AccountErrors.invalidPassword(data)`. */
  function InvalidPassword(data: Json): Eval<AppError> {
    FieldErrors(data, INVALID_PASSWORD, PasswordFields(data))
  }

  /** A profile-update error carries `firstName` and `lastName` exactly for
      the truthy `first_name` and `last_name` of the body, with their values.
      As written it carries the INVALID_PASSWORD object; with the object
      declared for it, the INVALID_UPDATE_ACCOUNT code, and nothing else
      differs. */
  lemma UpdateAccountErrorContents(data: Json)
    requires data.JObj? && !TruthyOpt(Prop(data, NON_FIELD_ERRORS))
    ensures InvalidUpdateAccountAsWritten(data).Value? && InvalidUpdateAccount(data).Value?
    ensures InvalidUpdateAccountAsWritten(data).value.obj == INVALID_PASSWORD
    ensures InvalidUpdateAccount(data).value.obj.code == "INVALID_UPDATE_ACCOUNT"
    ensures InvalidUpdateAccount(data).value
         == InvalidUpdateAccountAsWritten(data).value.(obj := INVALID_UPDATE_ACCOUNT)
    ensures var e := InvalidUpdateAccountAsWritten(data).value;
      e.Coded? && e.cls == AccountErrorsClass
      && (forall k :: k in e.properties <==>
            (k == "firstName" && TruthyOpt(Prop(data, "first_name")))
            || (k == "lastName" && TruthyOpt(Prop(data, "last_name"))))
      && ("firstName" in e.properties ==> e.properties["firstName"] == data.fields["first_name"])
      && ("lastName" in e.properties ==> e.properties["lastName"] == data.fields["last_name"])
  {
  }

  /** A password error carries `newPassword` and `confirmNewPassword` exactly
      for the truthy `new_password1` and `new_password2` of the body. */
  lemma PasswordErrorContents(data: Json)
    requires data.JObj? && !TruthyOpt(Prop(data, NON_FIELD_ERRORS))
    ensures InvalidPassword(data).Value?
    ensures var e := InvalidPassword(data).value;
      e.Coded? && e.cls == AccountErrorsClass && e.obj == INVALID_PASSWORD
      && (forall k :: k in e.properties <==>
            (k == "newPassword" && TruthyOpt(Prop(data, "new_password1")))
            || (k == "confirmNewPassword" && TruthyOpt(Prop(data, "new_password2"))))
      && ("newPassword" in e.properties ==> e.properties["newPassword"] == data.fields["new_password1"])
      && ("confirmNewPassword" in e.properties ==>
            e.properties["confirmNewPassword"] == data.fields["new_password2"])
  {
  }

  /** With its own object, a failed profile update is never mistaken for a
      password error. */
  lemma UpdateErrorDistinctFromPasswordError(data: Json, other: Json)
    requires !data.JNull? && !TruthyOpt(Prop(data, NON_FIELD_ERRORS))
    ensures InvalidUpdateAccount(data) != InvalidPassword(other)
  {
  }

  /** As written, a failed profile update with no field errors is the very
      same error as a password error with none. */
  lemma UpdateErrorAsWrittenIsPasswordError()
    ensures InvalidUpdateAccountAsWritten(JObj(map[])) == InvalidPassword(JObj(map[]))
    ensures InvalidUpdateAccountAsWritten(JObj(map[])).value.obj.code == "INVALID_PASSWORD"
  {
  }

  /** `AccountErrors.invalidToken(data)`: destructuring `null` throws; a
      truthy `token` entry is replaced by the fixed message. */
  function InvalidToken(data: Json): (r: Eval<AppError>)
    ensures r.Crash? <==> data.JNull?
    ensures r.Value? ==> r.value.Coded? && r.value.cls == AccountErrorsClass && r.value.obj == INVALID_TOKEN
    ensures r.Value? ==>
      (forall k :: k in r.value.properties <==> k == "token" && TruthyOpt(Prop(data, "token")))
      && ("token" in r.value.properties ==> r.value.properties["token"] == JStr(INVALID_TOKEN.message))
  {
    match Read(data, "token")
    case Crash => Crash
    case Value(token) =>
      var props: map<string, Json> := if TruthyOpt(token) then map["token" := JStr(INVALID_TOKEN.message)] else map[];
      Value(Coded(AccountErrorsClass, INVALID_TOKEN, props))
  }

  /** The 400 handler of `emailVerification` and `resetPassword`:
      `data?.non_field_errors` does not throw on a `null` body. */
  function NonFieldSchemaError(data: Json): Eval<AppError> {
    Value(AccountSchemaError(Prop(data, NON_FIELD_ERRORS)))
  }

  /** The catch block of `resetPasswordConfirm`: a 400 reads `data.token`
      (throwing on a `null` body) and throws a token error when it is truthy,
      a password error otherwise; an AppErrors is rethrown; every other
      failure is swallowed (None), so the call resolves. */
  function ResetConfirmFailure(t: Thrown): (r: Option<Thrown>)
    ensures r.None? <==> !IsAxiosStatus(t, 400) && !IsAppErrors(t)
    ensures !IsAxiosStatus(t, 400) && IsAppErrors(t) ==> r == Some(t)
    ensures IsAxiosStatus(t, 400) && t.response.value.data.JNull? ==> r == Some(TypeError)
    ensures IsAxiosStatus(t, 400) && !t.response.value.data.JNull? ==>
      r.Some? && r.value.App? && ClassOf(r.value.error) == AccountErrorsClass
  {
    if IsAxiosStatus(t, 400) then
      var data := t.response.value.data;
      match Read(data, "token")
      case Crash => Some(TypeError)
      case Value(token) => Some(ThrowEval(if TruthyOpt(token) then InvalidToken(data) else InvalidPassword(data)))
    else if IsAppErrors(t) then Some(t)
    else None
  }

  /** Which error a rejected reset confirmation reports for a 400 body: the
      token error exactly when the body's `token` is truthy. */
  lemma ResetConfirmBadRequest(t: Thrown)
    requires IsAxiosStatus(t, 400) && t.response.value.data.JObj?
    ensures var data := t.response.value.data;
      ResetConfirmFailure(t) ==
        Some(App(if TruthyOpt(Prop(data, "token")) then InvalidToken(data).value else InvalidPassword(data).value))
  {
  }

  /** The catch block of `checkPasswordResetToken`: only a 400 whose body has
      a truthy `token` (reading it throws on a `null` body) becomes a token
      error; an AppErrors is rethrown; everything else, including a 400
      without a token, is swallowed (None), so the call resolves. */
  function TokenCheckFailure(t: Thrown): (r: Option<Thrown>)
    ensures !IsAxiosStatus(t, 400) ==> r == (if IsAppErrors(t) then Some(t) else None)
    ensures IsAxiosStatus(t, 400) && t.response.value.data.JNull? ==> r == Some(TypeError)
    ensures IsAxiosStatus(t, 400) && !t.response.value.data.JNull? ==>
      (r.Some? <==> TruthyOpt(Prop(t.response.value.data, "token")))
      && (r.Some? ==> r == Some(App(InvalidToken(t.response.value.data).value)))
  {
    if IsAxiosStatus(t, 400) then
      var data := t.response.value.data;
      match Read(data, "token")
      case Crash => Some(TypeError)
      case Value(token) => if TruthyOpt(token) then Some(ThrowEval(InvalidToken(data))) else None
    else if IsAppErrors(t) then Some(t)
    else None
  }

  /** The two handles from a reset link: `temp[0]` and `temp[1]` of
      `token.split(";")`; the second is `undefined` (None) without a `;`. */
  datatype ResetPair = ResetPair(uid: string, token: Option<string>)

  function SplitResetToken(s: string): ResetPair {
    var parts := Split(s, ';');
    ResetPair(parts[0], if |parts| > 1 then Some(parts[1]) else None)
  }

  /** Splitting `uid;token` gives back both parts, and anything after a
      second `;` is dropped. */
  lemma {:induction false} SplitResetTokenRoundTrip(uid: string, token: string, rest: string)
    requires ';' !in uid && ';' !in token
    ensures SplitResetToken(uid + ";" + token) == ResetPair(uid, Some(token))
    ensures SplitResetToken(uid + ";" + token + ";" + rest) == ResetPair(uid, Some(token))
  {
    SplitAfterPiece(uid, token, ';');
    SplitWithoutSep(token, ';');
    assert uid + ";" + token == uid + [';'] + token;
    SplitAfterPiece(token, rest, ';');
    assert uid + ";" + token + ";" + rest == uid + [';'] + (token + [';'] + rest);
    SplitAfterPiece(uid, token + [';'] + rest, ';');
  }

  /** Without a `;` the whole string is the uid and there is no token. */
  lemma SplitResetTokenWithoutSeparator(s: string)
    requires ';' !in s
    ensures SplitResetToken(s) == ResetPair(s, None)
  {
    SplitWithoutSep(s, ';');
  }

  /** `updateAccount(schema)`: the returned profile replaces the one in
      memory and in storage; failures go through the profile catch block as
      written, so a 400 without `non_field_errors` throws the INVALID_PASSWORD
      error. */
  method UpdateAccount(s: Session, reply: Transport<UserInfo>, script: seq<Transport<RefreshTokenResponse>>)
    returns (r: Settled<UserInfo>)
    modifies s
    ensures r == Settle(RequestOutcome(None, reply, script), InvalidUpdateAccountAsWritten)
    ensures forall body: map<string, Json> ::
      reply == Failed(ERR_BAD_REQUEST, Some(ErrorResponse(400, JObj(body))))
      && !TruthyOpt(Prop(JObj(body), NON_FIELD_ERRORS)) ==>
        r.Raised? && r.error.App? && r.error.error.Coded? && r.error.error.obj == INVALID_PASSWORD
    ensures reply.Delivered? ==> s.State() == WithUser(old(s.State()), reply.data)
    ensures reply.Failed? && StateAfterRequest(old(s.State()), None, reply, script).Some? ==>
      s.State() == StateAfterRequest(old(s.State()), None, reply, script).value
  {
    var o := Request(s, None, reply, script);
    match o
    case Resolved(_, user) =>
      s.SetUserInfo(user);
      r := Fulfilled(user);
    case Rejected(t) =>
      r := Raised(TranslateFailure(t, InvalidUpdateAccountAsWritten));
    case Exhausted =>
      r := Undetermined;
  }

  /** `emailVerification(schema)`: the response body, or a schema error for
      a 400. */
  method EmailVerification<B>(s: Session, reply: Transport<B>, script: seq<Transport<RefreshTokenResponse>>)
    returns (r: Settled<B>)
    modifies s
    ensures r == Settle(RequestOutcome(None, reply, script), NonFieldSchemaError)
    ensures StateAfterRequest(old(s.State()), None, reply, script).Some? ==>
      s.State() == StateAfterRequest(old(s.State()), None, reply, script).value
  {
    var o := Request(s, None, reply, script);
    r := Settle(o, NonFieldSchemaError);
  }

  /** `resetPassword(schema)`: as `emailVerification`, for the reset e-mail. */
  method ResetPassword<B>(s: Session, reply: Transport<B>, script: seq<Transport<RefreshTokenResponse>>)
    returns (r: Settled<B>)
    modifies s
    ensures r == Settle(RequestOutcome(None, reply, script), NonFieldSchemaError)
    ensures StateAfterRequest(old(s.State()), None, reply, script).Some? ==>
      s.State() == StateAfterRequest(old(s.State()), None, reply, script).value
  {
    var o := Request(s, None, reply, script);
    r := Settle(o, NonFieldSchemaError);
  }

  /** `resetPasswordConfirm(schema)`: resolves with nothing on success and
      on every swallowed failure. */
  method ResetPasswordConfirm<B>(s: Session, reply: Transport<B>, script: seq<Transport<RefreshTokenResponse>>)
    returns (r: Settled<()>)
    modifies s
    ensures match RequestOutcome(None, reply, script)
      case Resolved(_, _) => r == Fulfilled(())
      case Rejected(t) => r == (if ResetConfirmFailure(t).Some? then Raised(ResetConfirmFailure(t).value) else Fulfilled(()))
      case Exhausted => r == Undetermined
    ensures StateAfterRequest(old(s.State()), None, reply, script).Some? ==>
      s.State() == StateAfterRequest(old(s.State()), None, reply, script).value
  {
    var o := Request(s, None, reply, script);
    match o
    case Resolved(_, _) =>
      r := Fulfilled(());
    case Rejected(t) =>
      var e := ResetConfirmFailure(t);
      r := if e.Some? then Raised(e.value) else Fulfilled(());
    case Exhausted =>
      r := Undetermined;
  }

  /** `checkPasswordResetToken(schema)`: the split handles on success,
      nothing (None) when a failure is swallowed. */
  method CheckPasswordResetToken<B>(s: Session, resetToken: string, reply: Transport<B>,
                                    script: seq<Transport<RefreshTokenResponse>>)
    returns (r: Settled<Option<ResetPair>>)
    modifies s
    ensures match RequestOutcome(None, reply, script)
      case Resolved(_, _) => r == Fulfilled(Some(SplitResetToken(resetToken)))
      case Rejected(t) => r == (if TokenCheckFailure(t).Some? then Raised(TokenCheckFailure(t).value) else Fulfilled(None))
      case Exhausted => r == Undetermined
    ensures StateAfterRequest(old(s.State()), None, reply, script).Some? ==>
      s.State() == StateAfterRequest(old(s.State()), None, reply, script).value
  {
    var pair := SplitResetToken(resetToken);
    var o := Request(s, None, reply, script);
    match o
    case Resolved(_, _) =>
      r := Fulfilled(Some(pair));
    case Rejected(t) =>
      var e := TokenCheckFailure(t);
      r := if e.Some? then Raised(e.value) else Fulfilled(None);
    case Exhausted =>
      r := Undetermined;
  }

  /** `changePassword(schema)`: the response body, or a password error for a
      400. */
  method ChangePassword<B>(s: Session, reply: Transport<B>, script: seq<Transport<RefreshTokenResponse>>)
    returns (r: Settled<B>)
    modifies s
    ensures r == Settle(RequestOutcome(None, reply, script), InvalidPassword)
    ensures StateAfterRequest(old(s.State()), None, reply, script).Some? ==>
      s.State() == StateAfterRequest(old(s.State()), None, reply, script).value
  {
    var o := Request(s, None, reply, script);
    r := Settle(o, InvalidPassword);
  }
}
