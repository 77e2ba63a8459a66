/** The typed errors of the application as one closed datatype, and the values a
    rejected call can carry. The error classes (AppErrors and the per-domain
    subclasses) are kept as a tag, so that the `instanceof` tests of the source
    can be stated. */
module Errors {
  import opened Wrappers
  import opened JsValues

  /** The class an error object was constructed with. */
  datatype ErrorClass =
    | AppErrorsClass
    | AuthErrorsClass
    | AccountErrorsClass
    | PlantErrorsClass

  /** A static error description: a stable code and a display message. */
  datatype ErrorObject = ErrorObject(code: string, message: string)

  const UnknownErrorObject: ErrorObject :=
    ErrorObject("UNKNOWN_ERROR", "Lỗi không xác định.\nVui lòng kiểm tra lại kết nối internet và thử lại.")

  /** A typed error. `Coded` is `new C(object, properties)`; the other variants
      are built by helpers whose definitions are not part of this model, so only
      their identity (and, for InvalidSchema, the payload they receive) is kept. */
  datatype AppError =
    | Coded(cls: ErrorClass, obj: ErrorObject, properties: map<string, Json>)
    | InvalidSchema(cls: ErrorClass, nonFieldErrors: Option<Json>)
    | NetworkError
    | Unauthorized
    | SessionExpired

  /** `AppErrors.unknownError(...)`: the cause passed by callers is ignored by
      the visible definition. */
  function UnknownError(): (e: AppError)
    ensures e.Coded? && e.cls == AppErrorsClass && e.obj.code == "UNKNOWN_ERROR" && e.properties == map[]
  {
    Coded(AppErrorsClass, UnknownErrorObject, map[])
  }

  /** The class of an error value. */
  function ClassOf(e: AppError): ErrorClass {
    match e
    case Coded(c, _, _) => c
    case InvalidSchema(c, _) => c
    case _ => AppErrorsClass
  }

  /** The HTTP response carried by a rejected axios call. */
  datatype ErrorResponse = ErrorResponse(status: int, data: Json)

  /** What a rejected call can carry. `AxiosFailure` is an AxiosError with its
      `code` and optional `response`; `App` is an AppErrors instance (or one of
      its subclasses); `SdkFailure` is an error raised by the Google Sign-In SDK,
      with its code when it has one; `SignInError` is a GoogleSigninErrors
      instance built by the application (not an AppErrors); `TypeError` is a
      JavaScript TypeError raised by the code itself. */
  datatype Thrown =
    | AxiosFailure(code: string, response: Option<ErrorResponse>)
    | App(error: AppError)
    | SdkFailure(sdkCode: Option<string>)
    | SignInError(obj: ErrorObject)
    | TypeError

  /** `error instanceof AxiosError && error.response?.status === status`. */
  predicate IsAxiosStatus(t: Thrown, status: int) {
    t.AxiosFailure? && t.response.Some? && t.response.value.status == status
  }

  /** `error instanceof AppErrors`: every AppError variant is an AppErrors or a
      subclass of it. */
  predicate IsAppErrors(t: Thrown) {
    t.App?
  }

  /** `error instanceof C` for the error classes of the application; the
      per-domain classes are direct subclasses of AppErrors. */
  predicate InstanceOf(t: Thrown, c: ErrorClass) {
    t.App? && (c == AppErrorsClass || ClassOf(t.error) == c)
  }

  /** Turning an evaluation that may crash into what is thrown. */
  function ThrowEval(e: Eval<AppError>): (t: Thrown)
    ensures e.Value? ==> t == App(e.value)
    ensures e.Crash? ==> t == TypeError
  {
    match e
    case Value(err) => App(err)
    case Crash => TypeError
  }

  /** How an API function settles: with a value, by throwing, or after a
      token-refresh recursion the model does not follow. */
  datatype Settled<+T> = Fulfilled(value: T) | Raised(error: Thrown) | Undetermined

  /** The catch block shared by the API functions: an AxiosError with status
      400 becomes the domain error built from the response body (which may
      itself throw); an AppErrors is rethrown as it is; anything else becomes
      the unknown error. */
  function TranslateFailure(t: Thrown, onBadRequest: Json -> Eval<AppError>): (r: Thrown)
    ensures r.App? || r == TypeError
    ensures IsAxiosStatus(t, 400) ==> r == ThrowEval(onBadRequest(t.response.value.data))
    ensures !IsAxiosStatus(t, 400) && IsAppErrors(t) ==> r == t
    ensures !IsAxiosStatus(t, 400) && !IsAppErrors(t) ==> r == App(UnknownError())
  {
    if IsAxiosStatus(t, 400) then ThrowEval(onBadRequest(t.response.value.data))
    else if IsAppErrors(t) then t
    else App(UnknownError())
  }

  /** Translating an error that is already typed changes nothing, so a
      translated error passed through a second catch block comes out as it
      went in. */
  lemma TranslateTyped(t: Thrown, f: Json -> Eval<AppError>, g: Json -> Eval<AppError>)
    ensures IsAppErrors(t) ==> TranslateFailure(t, f) == t
    ensures TranslateFailure(t, f).App? ==> TranslateFailure(TranslateFailure(t, f), g) == TranslateFailure(t, f)
  {
  }

  /** `if (value) properties[key] = value`. */
  function SetIfTruthy(props: map<string, Json>, key: string, value: Option<Json>): map<string, Json> {
    if TruthyOpt(value) then props[key := value.value] else props
  }
}
