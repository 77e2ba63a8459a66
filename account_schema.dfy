/** The form schemas of schemas/account.schema.ts, as the list of issues a
    parse reports. Every string check of a field runs, so one field can carry
    several issues; the password-match refinement runs even when the fields
    already carry issues, because those issues leave the parse dirty, not
    aborted. An issue without a message takes the locale's default text. */
module AccountSchema {
  import opened Wrappers
  import opened JsStrings
  import AccountApi

  datatype IssueKind = TooShort(minimum: nat) | TooLong(maximum: nat) | BadEmail | BadPattern | Mismatch

  datatype Issue = Issue(path: string, kind: IssueKind, message: Option<string>)

  const EMAIL_EMPTY: string := "Email không được để trống"
  const NEW_PASSWORD_EMPTY: string := "Mật khẩu mới không được để trống"
  const CONFIRM_EMPTY: string := "Vui lòng xác nhận mật khẩu mới của bạn"
  const PASSWORDS_DIFFER: string := "Mật khẩu không trùng khớp."
  const TOKEN_INVALID: string := "Token không chính xác hoặc đã hết hạn"
  const FIRST_NAME_EMPTY: string := "Tên không được để trống"
  const LAST_NAME_EMPTY: string := "Họ không được để trống"

  /** `z.string().nonempty(emptyMessage).min(minimum).max(maximum)`, with
      `minimum` 1 standing for no `min` and `maximum` None for no `max`. */
  function LengthIssues(path: string, value: string, emptyMessage: Option<string>,
                        minimum: nat, maximum: Option<nat>): (r: seq<Issue>)
    ensures r == [] <==> |value| >= 1 && |value| >= minimum && (maximum.Some? ==> |value| <= maximum.value)
    ensures forall k :: 0 <= k < |r| ==> r[k].path == path
    ensures |value| == 0 ==> |r| > 0 && r[0] == Issue(path, TooShort(1), emptyMessage)
  {
    (if |value| < 1 then [Issue(path, TooShort(1), emptyMessage)] else [])
    + (if |value| < minimum then [Issue(path, TooShort(minimum), None)] else [])
    + (if maximum.Some? && |value| > maximum.value then [Issue(path, TooLong(maximum.value), None)] else [])
  }

  /** `emailOnlySchema`; `wellFormed` is the verdict of zod's e-mail pattern,
      which is not modelled. */
  function EmailOnlyIssues(email: string, wellFormed: bool): (r: seq<Issue>)
    ensures r == [] <==> |email| > 0 && wellFormed
    ensures email == "" ==> r[0] == Issue("email", TooShort(1), Some(EMAIL_EMPTY))
  {
    LengthIssues("email", email, Some(EMAIL_EMPTY), 1, None)
    + (if wellFormed then [] else [Issue("email", BadEmail, None)])
  }

  /** `checkPassword`: one issue on `confirmNewPassword` when the two differ. */
  function CheckPassword(newPassword: string, confirmNewPassword: string): (r: seq<Issue>)
    ensures r == [] <==> newPassword == confirmNewPassword
    ensures r != [] ==> r == [Issue("confirmNewPassword", Mismatch, Some(PASSWORDS_DIFFER))]
  {
    if confirmNewPassword != newPassword then [Issue("confirmNewPassword", Mismatch, Some(PASSWORDS_DIFFER))]
    else []
  }

  /** The two password fields and the match refinement, shared by
      `changePasswordSchema` and `setPasswordSchema`, which declare the same
      checks. */
  function PasswordPairIssues(newPassword: string, confirmNewPassword: string): seq<Issue> {
    LengthIssues("newPassword", newPassword, Some(NEW_PASSWORD_EMPTY), 6, Some(255))
    + LengthIssues("confirmNewPassword", confirmNewPassword, Some(CONFIRM_EMPTY), 1, None)
    + CheckPassword(newPassword, confirmNewPassword)
  }

  /** A password pair is accepted exactly when the new password has 6 to 255
      characters and the confirmation repeats it. */
  lemma PasswordPairAccepted(newPassword: string, confirmNewPassword: string)
    ensures PasswordPairIssues(newPassword, confirmNewPassword) == [] <==>
      6 <= |newPassword| <= 255 && confirmNewPassword == newPassword
  {
  }

  /** A mismatch is reported, on the confirmation field, whatever else is
      wrong with the fields; a matching pair never gets one. */
  lemma PasswordMismatchReported(newPassword: string, confirmNewPassword: string)
    ensures (exists k :: 0 <= k < |PasswordPairIssues(newPassword, confirmNewPassword)|
               && PasswordPairIssues(newPassword, confirmNewPassword)[k].kind == Mismatch)
      <==> newPassword != confirmNewPassword
    ensures newPassword != confirmNewPassword ==>
      PasswordPairIssues(newPassword, confirmNewPassword)[|PasswordPairIssues(newPassword, confirmNewPassword)| - 1]
        == Issue("confirmNewPassword", Mismatch, Some(PASSWORDS_DIFFER))
  {
    var a: seq<Issue> := LengthIssues("newPassword", newPassword, Some(NEW_PASSWORD_EMPTY), 6, Some(255));
    var b: seq<Issue> := LengthIssues("confirmNewPassword", confirmNewPassword, Some(CONFIRM_EMPTY), 1, None);
    var c := CheckPassword(newPassword, confirmNewPassword);
    var all := PasswordPairIssues(newPassword, confirmNewPassword);
    assert all == a + b + c;
    forall k | 0 <= k < |a + b|
      ensures (a + b)[k].kind != Mismatch
    {
      if k < |a| { assert (a + b)[k] == a[k]; } else { assert (a + b)[k] == b[k - |a|]; }
    }
    if newPassword != confirmNewPassword {
      assert all[|all| - 1] == c[0];
    } else {
      assert all == a + b;
    }
  }

  /** `resetPasswordConfirmSchema`: a non-empty uid and token, then the
      password pair. */
  function ResetPasswordConfirmIssues(uid: string, token: string, newPassword: string,
                                      confirmNewPassword: string): seq<Issue> {
    LengthIssues("uid", uid, None, 1, None)
    + LengthIssues("token", token, None, 1, None)
    + PasswordPairIssues(newPassword, confirmNewPassword)
  }

  lemma ResetPasswordConfirmAccepted(uid: string, token: string, newPassword: string, confirmNewPassword: string)
    ensures ResetPasswordConfirmIssues(uid, token, newPassword, confirmNewPassword) == [] <==>
      uid != "" && token != "" && 6 <= |newPassword| <= 255 && confirmNewPassword == newPassword
  {
    PasswordPairAccepted(newPassword, confirmNewPassword);
  }

  /** The characters JavaScript's `.` does not match. */
  predicate IsLineTerminator(c: char) {
    c == '\n' || c == '\r' || c == '\U{2028}' || c == '\U{2029}'
  }

  /** `/^.+?;.+$/`: no line terminator, and a `;` with at least one
      character before and one after it. */
  predicate ResetTokenPattern(s: string) {
    (forall k :: 0 <= k < |s| ==> !IsLineTerminator(s[k]))
    && exists i :: 1 <= i < |s| - 1 && s[i] == ';'
  }

  /** `checkPasswordTokenSchema`. */
  function CheckPasswordTokenIssues(token: string): (r: seq<Issue>)
    ensures r == [] <==> ResetTokenPattern(token)
    ensures r != [] ==> r == [Issue("token", BadPattern, Some(TOKEN_INVALID))]
  {
    if ResetTokenPattern(token) then [] else [Issue("token", BadPattern, Some(TOKEN_INVALID))]
  }

  lemma {:induction false} CountPositive(s: string, c: char)
    requires c in s
    ensures Count(s, c) > 0
  {
    if s[0] != c {
      assert c in s[1..];
      CountPositive(s[1..], c);
    }
  }

  /** A token the schema accepts always splits into a uid and a token. */
  lemma AcceptedTokenSplits(s: string)
    requires CheckPasswordTokenIssues(s) == []
    ensures AccountApi.SplitResetToken(s).token.Some?
  {
    var i :| 1 <= i < |s| - 1 && s[i] == ';';
    CountPositive(s, ';');
  }

  /** `uid;token` with non-empty parts, no `;` in the uid and no line
      terminator is accepted and splits back into its parts. */
  lemma PairTokenAccepted(uid: string, token: string)
    requires uid != "" && token != "" && ';' !in uid && ';' !in token
    requires forall k :: 0 <= k < |uid| ==> !IsLineTerminator(uid[k])
    requires forall k :: 0 <= k < |token| ==> !IsLineTerminator(token[k])
    ensures CheckPasswordTokenIssues(uid + ";" + token) == []
    ensures AccountApi.SplitResetToken(uid + ";" + token) == AccountApi.ResetPair(uid, Some(token))
  {
    var s := uid + ";" + token;
    assert s[|uid|] == ';';
    forall k | 0 <= k < |s|
      ensures !IsLineTerminator(s[k])
    {
      if k < |uid| { assert s[k] == uid[k]; }
      else if k > |uid| { assert s[k] == token[k - |uid| - 1]; }
    }
    AccountApi.SplitResetTokenRoundTrip(uid, token, "");
  }

  /** The pattern does not make the parts non-empty: a leading `;` is taken
      as part of the uid, so `;;x` passes and splits into an empty uid and an
      empty token, which `resetPasswordConfirmSchema` then rejects. */
  lemma EmptyPartsAccepted()
    ensures CheckPasswordTokenIssues(";;x") == []
    ensures AccountApi.SplitResetToken(";;x") == AccountApi.ResetPair("", Some(""))
    ensures ResetPasswordConfirmIssues("", "", "secret", "secret") != []
  {
    assert ";;x"[1] == ';';
    SplitAfterPiece("", ";x", ';');
    SplitAfterPiece("", "x", ';');
    SplitWithoutSep("x", ';');
    assert "" + [';'] + ";x" == ";;x" && "" + [';'] + "x" == ";x";
  }

  /** `updateAccountSchema`: each name has 2 to 50 characters. */
  function UpdateAccountIssues(firstName: string, lastName: string): seq<Issue> {
    LengthIssues("firstName", firstName, Some(FIRST_NAME_EMPTY), 2, Some(50))
    + LengthIssues("lastName", lastName, Some(LAST_NAME_EMPTY), 2, Some(50))
  }

  lemma UpdateAccountAccepted(firstName: string, lastName: string)
    ensures UpdateAccountIssues(firstName, lastName) == [] <==>
      2 <= |firstName| <= 50 && 2 <= |lastName| <= 50
    ensures firstName == "" ==>
      UpdateAccountIssues(firstName, lastName)[0] == Issue("firstName", TooShort(1), Some(FIRST_NAME_EMPTY))
  {
  }
}
