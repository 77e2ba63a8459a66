/** The e-mail verification and password-reset form of
    components/EmailVerificationForm.tsx: the send button with its 60-second
    countdown, the token check, and the global loading flag the handlers set.
    The form's own state is a class whose methods are specified by pure
    transitions on `FormState`, as the session store is. */
module EmailVerificationForm {
  import opened Wrappers
  import opened JsStrings
  import opened JsValues
  import opened Errors
  import opened Store
  import opened RequestClient
  import AccountApi
  import Utils

  /** The seconds of a countdown, always two digits. */
  function TwoDigits(n: nat): (r: string)
    requires n < 100
    ensures |r| == 2 && AllDigits(r) && DigitsValue(r) == n
  {
    var r := [DigitChar(n / 10), DigitChar(n % 10)];
    assert r[..1] == [DigitChar(n / 10)] && r[..1][..0] == [];
    assert DigitsValue(r[..1]) == n / 10;
    r
  }

  /** `formatTime(seconds)` of `CountdownTimer`. The countdown never goes
      below zero, so `seconds` is a natural number and JavaScript's `%`
      agrees with Dafny's. */
  function FormatTime(seconds: nat): string {
    var minutes := seconds / 60;
    var remainingSeconds := seconds % 60;
    (if minutes > 0 then NatToString(minutes) + "m:" else "")
    + (if remainingSeconds < 10 then "0" else "") + NatToString(remainingSeconds) + "s"
  }

  lemma SecondsPart(n: nat)
    requires n < 60
    ensures (if n < 10 then "0" else "") + NatToString(n) == TwoDigits(n)
  {
    if n >= 10 {
      assert NatToString(n) == NatToString(n / 10) + [DigitChar(n % 10)];
    }
  }

  /** The rendered time is `<m>m:` exactly from one minute on, then two digits
      of seconds, then `s`. */
  lemma FormatTimeShape(seconds: nat)
    ensures FormatTime(seconds) ==
      (if seconds >= 60 then NatToString(seconds / 60) + "m:" else "") + TwoDigits(seconds % 60) + "s"
    ensures seconds < 60 ==> |FormatTime(seconds)| == 3
    ensures 'm' in FormatTime(seconds) <==> seconds >= 60
  {
    SecondsPart(seconds % 60);
    var t := TwoDigits(seconds % 60) + "s";
    assert 'm' !in t by {
      assert forall k :: 0 <= k < |t| ==> t[k] == 's' || IsDigit(t[k]);
    }
    if seconds >= 60 {
      var p := NatToString(seconds / 60) + "m:";
      assert FormatTime(seconds) == p + t;
      assert (p + t)[|NatToString(seconds / 60)|] == 'm';
    }
  }

  /** Reading a rendered time back: the seconds before `s`, and the minutes
      before `m:` when there are more than three characters. */
  function ReadTime(r: string): Option<nat> {
    if |r| < 3 || r[|r| - 1] != 's' || !AllDigits(r[|r| - 3..|r| - 1]) then None
    else if |r| == 3 then Some(DigitsValue(r[|r| - 3..|r| - 1]))
    else if |r| >= 6 && r[|r| - 5..|r| - 3] == "m:" && AllDigits(r[..|r| - 5]) then
      Some(DigitsValue(r[..|r| - 5]) * 60 + DigitsValue(r[|r| - 3..|r| - 1]))
    else None
  }

  /** The rendered countdown determines the time left: distinct times are
      shown differently. */
  lemma FormatTimeRoundTrip(seconds: nat)
    ensures ReadTime(FormatTime(seconds)) == Some(seconds)
  {
    FormatTimeShape(seconds);
    var t := TwoDigits(seconds % 60);
    var r := FormatTime(seconds);
    if seconds >= 60 {
      var m := NatToString(seconds / 60);
      assert r == m + "m:" + t + "s";
      assert r[|r| - 3..|r| - 1] == t;
      assert r[|r| - 5..|r| - 3] == "m:";
      assert r[..|r| - 5] == m;
      DigitsValueOfNatToString(seconds / 60);
    } else {
      assert r == t + "s";
      assert r[|r| - 3..|r| - 1] == t;
    }
  }

  lemma FormatTimeInjective(a: nat, b: nat)
    requires FormatTime(a) == FormatTime(b)
    ensures a == b
  {
    FormatTimeRoundTrip(a);
    FormatTimeRoundTrip(b);
  }

  lemma FormatTimeExamples()
    ensures FormatTime(60) == "1m:00s"
    ensures FormatTime(5) == "05s"
    ensures FormatTime(125) == "2m:05s"
  {
    assert NatToString(1) == "1" && NatToString(2) == "2" && NatToString(0) == "0" && NatToString(5) == "5";
  }

  const INITIAL_TIME: nat := 60
  const RESET_CONFIRM_ROUTE: string := "/(auth)/password-reset-confirm/"

  /** The form's state: the send button's flags, the countdown's time, the
      token field and its error, and the route pushed last. */
  datatype FormState = FormState(
    canResend: bool,
    showTimer: bool,
    sendEmailSuccess: bool,
    time: nat,
    token: string,
    tokenError: Option<Json>,
    route: Option<string>)

  /** The state on mount: a reset form can always send; a verification form
      can send while the e-mail is unverified. */
  function Initial(isPasswordReset: bool, isVerified: bool): (st: FormState)
    ensures st.canResend <==> isPasswordReset || !isVerified
    ensures !st.showTimer && !st.sendEmailSuccess && st.token == "" && st.tokenError.None? && st.route.None?
  {
    FormState(isPasswordReset || !isVerified, false, false, INITIAL_TIME, "", None, None)
  }

  /** The send button is disabled exactly when the form cannot resend. */
  function SendDisabled(st: FormState): bool {
    !st.canResend
  }

  /** What a send handler does with `[error, response]`: nothing for an
      error (always an AccountErrors, the others having been rethrown); for a
      truthy response, the button is locked, the countdown starts from
      `initialTime` and, on the reset path, the token form is shown. */
  function AfterSend(st: FormState, caught: Utils.Caught<Json>, isPasswordReset: bool): FormState {
    match caught
    case CaughtError(_) => st
    case Succeeded(response) =>
      if Truthy(response)
      then st.(canResend := false, showTimer := true, time := INITIAL_TIME,
               sendEmailSuccess := st.sendEmailSuccess || isPasswordReset)
      else st
  }

  /** `handleTimerFinish`. */
  function TimerFinished(st: FormState): FormState {
    st.(canResend := true, showTimer := false)
  }

  /** One second of the mounted countdown: the time decreases while it is
      positive, and reaching 0 runs `onFinish`. */
  function Tick(st: FormState): FormState {
    if st.showTimer && st.time > 0 then
      if st.time == 1 then TimerFinished(st.(time := 0)) else st.(time := st.time - 1)
    else st
  }

  function Ticks(st: FormState, n: nat): FormState
    decreases n
  {
    if n == 0 then st else Ticks(Tick(st), n - 1)
  }

  /** While the countdown shows the button stays disabled, and the time
      shown is between 1 and 60 seconds. */
  predicate Consistent(st: FormState) {
    st.showTimer ==> !st.canResend && 0 < st.time <= INITIAL_TIME
  }

  lemma ConsistentPreserved(st: FormState, caught: Utils.Caught<Json>, isPasswordReset: bool, isVerified: bool)
    ensures Consistent(Initial(isPasswordReset, isVerified))
    ensures Consistent(st) ==> Consistent(AfterSend(st, caught, isPasswordReset))
    ensures Consistent(st) ==> Consistent(Tick(st))
    ensures Consistent(TimerFinished(st))
  {
  }

  /** A countdown with `k` seconds left ends after exactly `k` ticks: before
      that the button stays disabled, after it the button is enabled again
      and the countdown is gone. */
  lemma {:induction false} CountdownEnds(st: FormState, k: nat, n: nat)
    requires Consistent(st) && st.showTimer && st.time == k
    ensures n < k ==> Ticks(st, n).showTimer && !Ticks(st, n).canResend && Ticks(st, n).time == k - n
    ensures n >= k ==> Ticks(st, n) == st.(time := 0, canResend := true, showTimer := false)
    decreases n
  {
    if n > 0 {
      if k == 1 {
        var done := st.(time := 0, canResend := true, showTimer := false);
        assert Tick(st) == done;
        TicksIdle(done, n - 1);
      } else {
        CountdownEnds(Tick(st), k - 1, n - 1);
      }
    }
  }

  lemma {:induction false} TicksIdle(st: FormState, n: nat)
    requires !st.showTimer
    ensures Ticks(st, n) == st
    decreases n
  {
    if n > 0 {
      TicksIdle(Tick(st), n - 1);
    }
  }

  /** After a successful send the button is enabled again exactly 60 ticks
      later. */
  lemma ResendAfterOneMinute(st: FormState, response: Json, isPasswordReset: bool)
    requires Truthy(response)
    ensures var sent := AfterSend(st, Utils.Succeeded(response), isPasswordReset);
      !Ticks(sent, 59).canResend && Ticks(sent, 60).canResend && !Ticks(sent, 60).showTimer
  {
    var sent := AfterSend(st, Utils.Succeeded(response), isPasswordReset);
    CountdownEnds(sent, 60, 59);
    CountdownEnds(sent, 60, 60);
  }

  /** The `token` entry of a typed error's properties, when truthy: what the
      source renders (through `getErrorsString`, which is not part of this
      model) as the field error. */
  function TokenEntry(e: Thrown): (r: Option<Json>)
    ensures r.Some? ==> e.App? && e.error.Coded? && "token" in e.error.properties && Truthy(r.value)
  {
    if e.App? && e.error.Coded? && "token" in e.error.properties && Truthy(e.error.properties["token"])
    then Some(e.error.properties["token"]) else None
  }

  /** What the token handler does with `[error, response]`: an error clears
      the field and shows the token entry, if any; no error, whatever the
      response, navigates to the confirmation screen. */
  function AfterTokenCheck(st: FormState, caught: Utils.Caught<Option<AccountApi.ResetPair>>, token: string)
    : FormState
  {
    match caught
    case CaughtError(e) => st.(token := "", tokenError := TokenEntry(e))
    case Succeeded(_) => st.(route := Some(RESET_CONFIRM_ROUTE + token))
  }

  /** `[error, response]` of a send handler for a reply of the send call. */
  function SendCaught(reply: Transport<Json>, script: seq<Transport<RefreshTokenResponse>>)
    : Settled<Utils.Caught<Json>>
  {
    Utils.CatchErrorTyped(Settle(RequestOutcome(None, reply, script), AccountApi.NonFieldSchemaError),
                          Some([AccountErrorsClass]))
  }

  /** `[error, response]` of the token handler. */
  function TokenCaught<B>(token: string, reply: Transport<B>, script: seq<Transport<RefreshTokenResponse>>)
    : Settled<Utils.Caught<Option<AccountApi.ResetPair>>>
  {
    var settled := match RequestOutcome(None, reply, script)
      case Resolved(_, _) => Fulfilled(Some(AccountApi.SplitResetToken(token)))
      case Rejected(t) =>
        if AccountApi.TokenCheckFailure(t).Some? then Raised(AccountApi.TokenCheckFailure(t).value)
        else Fulfilled(None)
      case Exhausted => Undetermined;
    Utils.CatchErrorTyped(settled, Some([AccountErrorsClass]))
  }

  /** The send handlers' `popup.error()` branch is dead: a caught error is
      always an AccountErrors. Any other error, a network error among them,
      escapes the handler, so `isAppLoading` is never reset. */
  lemma SendErrors(reply: Transport<Json>, script: seq<Transport<RefreshTokenResponse>>)
    ensures SendCaught(reply, script).Fulfilled? && SendCaught(reply, script).value.CaughtError? ==>
      InstanceOf(SendCaught(reply, script).value.error, AccountErrorsClass)
    ensures SendCaught(reply, script).Raised? ==>
      !InstanceOf(SendCaught(reply, script).error, AccountErrorsClass)
    ensures reply.Failed? && reply.code == ERR_NETWORK ==> SendCaught(reply, script) == Raised(App(NetworkError))
    ensures reply.Failed? && reply.code == ERR_BAD_REQUEST && reply.response.Some? && reply.response.value.status == 400 ==>
      SendCaught(reply, script).Fulfilled? && SendCaught(reply, script).value.CaughtError?
  {
    assert [AccountErrorsClass][0] == AccountErrorsClass;
  }

  /** A server answer 400 to the token check whose body has no `token` entry
      is swallowed by `checkPasswordResetToken`, so the form navigates to the
      confirmation screen; with a `token` entry the field is cleared and shows
      the fixed message. */
  lemma TokenCheckOnBadRequest(token: string, body: map<string, Json>, script: seq<Transport<RefreshTokenResponse>>)
    ensures var reply: Transport<Json> := Failed(ERR_BAD_REQUEST, Some(ErrorResponse(400, JObj(body))));
      ("token" !in body ==> TokenCaught(token, reply, script) == Fulfilled(Utils.Succeeded(None)))
      && ("token" in body && Truthy(body["token"]) ==>
            TokenCaught(token, reply, script).Fulfilled?
            && TokenCaught(token, reply, script).value.CaughtError?
            && TokenEntry(TokenCaught(token, reply, script).value.error) == Some(JStr(AccountApi.INVALID_TOKEN.message)))
  {
    assert [AccountErrorsClass][0] == AccountErrorsClass;
  }

  class Form {
    const isPasswordReset: bool
    var canResend: bool
    var showTimer: bool
    var sendEmailSuccess: bool
    var time: nat
    var token: string
    var tokenError: Option<Json>
    var route: Option<string>

    function State(): FormState
      reads this
    {
      FormState(canResend, showTimer, sendEmailSuccess, time, token, tokenError, route)
    }

    /** Mounting the form; `isVerified` is the truthiness of
        `userInfo?.is_email_verified`. */
    constructor (isPasswordReset: bool, isVerified: bool)
      ensures this.isPasswordReset == isPasswordReset
      ensures State() == Initial(isPasswordReset, isVerified)
    {
      this.isPasswordReset := isPasswordReset;
      canResend := isPasswordReset || !isVerified;
      showTimer := false;
      sendEmailSuccess := false;
      time := INITIAL_TIME;
      token := "";
      tokenError := None;
      route := None;
    }

    method SetState(st: FormState)
      modifies this
      ensures State() == st
    {
      canResend, showTimer, sendEmailSuccess, time := st.canResend, st.showTimer, st.sendEmailSuccess, st.time;
      token, tokenError, route := st.token, st.tokenError, st.route;
    }

    /** `onSendEmailSubmit(values)`: raises the loading flag, runs
        `resetPassword` or `emailVerification` through `catchErrorTyped` with
        AccountErrors, applies the handler, and lowers the flag, unless the
        handler threw. */
    method OnSendEmailSubmit(s: Session, reply: Transport<Json>, script: seq<Transport<RefreshTokenResponse>>)
      returns (r: Settled<()>)
      modifies this, s
      ensures !SendCaught(reply, script).Undetermined? ==>
        (r.Raised? <==> SendCaught(reply, script).Raised?)
        && (r.Raised? ==> r.error == SendCaught(reply, script).error)
      ensures SendCaught(reply, script).Undetermined? ==> r.Undetermined?
      ensures r.Fulfilled? ==>
        State() == AfterSend(old(State()), SendCaught(reply, script).value, isPasswordReset)
      ensures !r.Fulfilled? ==> State() == old(State())
      ensures !r.Undetermined? ==>
        s.State() == StateAfterRequest(old(s.State()), None, reply, script).value.(isAppLoading := r.Raised?)
    {
      s.isAppLoading := true;
      var o;
      if isPasswordReset {
        o := AccountApi.ResetPassword(s, reply, script);
      } else {
        o := AccountApi.EmailVerification(s, reply, script);
      }
      RequestIgnoresLoading(old(s.State()), true, None, reply, script);
      var caught := Utils.CatchErrorTyped(o, Some([AccountErrorsClass]));
      match caught
      case Raised(e) =>
        r := Raised(e);
      case Undetermined =>
        r := Undetermined;
      case Fulfilled(c) =>
        SetState(AfterSend(State(), c, isPasswordReset));
        s.isAppLoading := false;
        r := Fulfilled(());
    }

    /** `onCheckTokenSubmit(values)`: as the send handler, for
        `checkPasswordResetToken`. */
    method OnCheckTokenSubmit<B>(s: Session, resetToken: string, reply: Transport<B>,
                                 script: seq<Transport<RefreshTokenResponse>>)
      returns (r: Settled<()>)
      modifies this, s
      ensures !TokenCaught(resetToken, reply, script).Undetermined? ==>
        (r.Raised? <==> TokenCaught(resetToken, reply, script).Raised?)
        && (r.Raised? ==> r.error == TokenCaught(resetToken, reply, script).error)
      ensures TokenCaught(resetToken, reply, script).Undetermined? ==> r.Undetermined?
      ensures r.Fulfilled? ==>
        State() == AfterTokenCheck(old(State()), TokenCaught(resetToken, reply, script).value, resetToken)
      ensures !r.Fulfilled? ==> State() == old(State())
      ensures !r.Undetermined? ==>
        s.State() == StateAfterRequest(old(s.State()), None, reply, script).value.(isAppLoading := r.Raised?)
    {
      s.isAppLoading := true;
      var o := AccountApi.CheckPasswordResetToken(s, resetToken, reply, script);
      RequestIgnoresLoading(old(s.State()), true, None, reply, script);
      var caught := Utils.CatchErrorTyped(o, Some([AccountErrorsClass]));
      match caught
      case Raised(e) =>
        r := Raised(e);
      case Undetermined =>
        r := Undetermined;
      case Fulfilled(c) =>
        SetState(AfterTokenCheck(State(), c, resetToken));
        s.isAppLoading := false;
        r := Fulfilled(());
    }

    /** `handleTimerFinish`. */
    method HandleTimerFinish()
      modifies this
      ensures State() == TimerFinished(old(State()))
    {
      canResend := true;
      showTimer := false;
    }

    /** One interval tick of the mounted countdown. */
    method OnTick()
      modifies this
      ensures State() == Tick(old(State()))
    {
      if showTimer && time > 0 {
        time := time - 1;
        if time == 0 {
          HandleTimerFinish();
        }
      }
    }
  }
}
