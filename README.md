# Plant Mate session, request and error layer in Dafny

Plant Mate is a React Native app for a plant collection and its care reminders. This
project models the layer under its screens:

- **HTTP client**: the axios wrapper, with its header builder, its failure
  classification and its token refresh.
- **Session stores**: the two zustand stores, plus the encrypted storage behind them.
- **Feature API functions**: authentication, account, plants. These translate a
  server's 400 answers into typed errors, and rethrow or swallow everything else.
- **Account form schemas**.
- **Weekly care-reminder scheduling**: over the Expo notification scheduler.
- **Promise combinators**: `catchError` and `catchErrorTyped`.
- **E-mail verification form**: its countdown and its button state.

Design in brief:

- **Session state.** Every change to the session is stated as a pure function
  on `Store.Snapshot`, the value of all store fields plus the storage. The
  methods of the `Store.Session` class, and the API methods that act on it,
  promise that the new snapshot is that function of the old one. Lemmas then
  prove what the application relies on: memory and storage stay in step, a
  sign-out forgets a sign-in, and hydration never signs a session out.
- **HTTP calls.** A call over the network is an input, `Transport`: either a
  response (status and body) or an AxiosError (code and optional response).
  The refresh request that `request` issues on a 401 calls `request` again
  with refresh enabled. Nothing in the code bounds this recursion, so the
  model takes the nested outcomes from a finite script. When the script runs
  out, the outcome is `Exhausted` (the settlement `Undetermined`).
- **Errors.** Typed errors form one closed datatype, `Errors.AppError`. A
  TypeError raised by evaluating a catch block is the `TypeError` value of
  `Errors.Thrown`.
- **Scheduler.** The Expo scheduler is a class with a sequence of scheduled
  notifications. The e-mail verification form is a class with the component's
  state variables.

Notes where the model follows the code rather than its intent (see "## Findings"):

- `lib/global-store.ts` calls `api.get` and `api.post`, but the client exported
  by `lib/axios.config.ts` has only `request` and `getHeaders`. The three global
  store actions take the called client's member set. Each contract states the
  outcome with the exported client, which is the code as written, and the
  outcome with an axios instance, which has both methods.
- `getGoogleTokens`, `updateAccount` and `addPlantToCollection` run their catch
  blocks as written. The corrected mappers (`AuthApi.GoogleTokensError`,
  `AccountApi.InvalidUpdateAccount`, `PlantsApi.AddPlantFailure`) appear only
  as the corrected members of the findings.
- The form's send handlers rethrow every error that is not an AccountErrors,
  a network error included. So `isAppLoading` stays raised
  (`EmailVerificationForm.SendErrors`).
- `checkPasswordResetToken` swallows a 400 without a `token` entry. The token
  form then navigates to the confirmation screen
  (`EmailVerificationForm.TokenCheckOnBadRequest`).

## Model

| member | source | states |
|---|---|---|
| JsStrings.NatToString | api/plants.ts:160 | `${n}` of a non-negative number is a non-empty digit string, one digit long exactly below 10 |
| JsStrings.IntToString | api/plants.ts:160 | `${i}`: the digits of a non-negative number, `-` and the digits of its magnitude otherwise |
| JsStrings.DigitsValueOfNatToString | api/plants.ts:160 | the decimal value of the rendered digits is the number rendered |
| JsStrings.NatToStringInjective | services/notification.service.ts:101 | distinct ids render as distinct strings, so distinct care schedules get distinct `data.id` tags |
| JsStrings.Split | api/account.ts:202 | `split` on one character yields one more piece than there are separators, none containing the separator |
| JsStrings.JoinSplit | api/account.ts:202 | joining the pieces of a split with the separator gives the string back |
| JsStrings.SplitAfterPiece | api/account.ts:202-204 | a separator-free prefix followed by the separator is the first piece, the rest is split on |
| JsStrings.SplitWithoutSep | api/account.ts:202-204 | a string without the separator is a single piece |
| JsStrings.NumberOf | services/notification.service.ts:105-106 | `Number`: the empty string is 0, a digit string its value, `undefined` NaN |
| JsStrings.ParseInt | api/plants.ts:158 | `parseInt` of a string starting with a digit is a non-negative number |
| JsStrings.ParseIntOfNatToString | api/plants.ts:158 | `parseInt(String(n))` is `n` |
| JsStrings.NumberOfNatToString | services/notification.service.ts:105-106 | `Number(String(n))` is `n` |
| JsValues.Prop | lib/axios.config.ts:130 | `x?.key` is defined exactly for an object holding the key, and is its value |
| JsValues.Read | api/auth.ts:32 | destructuring throws exactly on `null`, and otherwise reads like `?.` |
| JsValues.First | api/auth.ts:34 | `x[0]`: the first element of a non-empty array, the first character of a non-empty string |
| JsValues.Includes | api/auth.ts:34 | `includes` throws exactly on a value that is neither a string nor an array; substring search on strings, element search on arrays |
| JsValues.In | api/plants.ts:95 | `key in x` throws exactly on a primitive and tests an object's own keys |
| JsValues.LetterKeyNotInArray | api/plants.ts:93-97 | no key starting with a non-digit (other than "length") is `in` an array, whatever its elements |
| Errors.UnknownError | lib/errors.ts:10-18 | the unknown error is an AppErrors with code UNKNOWN_ERROR and no properties |
| Errors.ThrowEval | api/auth.ts:113 | a mapper that evaluates to an error throws it; one that crashes throws a TypeError |
| Errors.TranslateFailure | api/auth.ts:110-118 | the shared catch block: a 400 AxiosError becomes the domain error, an AppErrors is rethrown unchanged, anything else becomes UNKNOWN_ERROR; the result is always typed or a TypeError |
| Errors.TranslateTyped | api/auth.ts:116 | an AppErrors passes through unchanged, so translating a typed result again changes nothing |
| Store.Session.constructor | stores/index.ts:20-25 | the initial state: not initialized, not authenticated, not loading, no error, no profile, no token; storage as earlier runs left it |
| Store.PersistedPreserved | api/auth.ts:99-107 | sign-in, sign-out and a profile update keep the token and profile in memory equal to the stored ones; hydration from the stored profile does too |
| Store.SignOutForgetsSignIn | api/auth.ts:233-240 | a sign-out after a sign-in is the same state as the sign-out alone, and hydration after a sign-out restores nothing |
| Store.HydrationFacts | stores/index.ts:34-51 | hydration authenticates exactly when already authenticated or the cached profile is truthy; it never touches the token or the storage, and is idempotent |
| Store.SessionChangesKeepInitialized | lib/global-store.ts:166-185 | signing out twice is signing out once; sign-in, sign-out and profile updates keep `isInitialized`, and hydration sets it |
| Store.WithSignIn | api/auth.ts:99-107 | definition of a sign-in: the three fields together and both records; its properties are in PersistedPreserved, SignOutForgetsSignIn and SessionChangesKeepInitialized |
| Store.WithSignOut | lib/axios.config.ts:37-45 | definition of a sign-out: the three fields cleared and both records removed; properties in PersistedPreserved, SignOutForgetsSignIn and SessionChangesKeepInitialized |
| Store.WithUser | api/auth.ts:215-217 | definition of a profile update, in memory and in storage; properties in PersistedPreserved |
| Store.Hydrated | stores/index.ts:34-51 | definition of the offline hydration; properties in HydrationFacts |
| Store.Session.InitializeGlobalStore | stores/index.ts:29-52 | the new state is the offline hydration of the old one with the stored profile |
| Store.Session.SetAppErrorPopupOpen | stores/index.ts:56-62 | closing the popup clears `appError` and nothing else; opening it changes nothing |
| Store.Session.SignIn | api/auth.ts:99-107 | authenticated, profile and token set together, and both records stored |
| Store.Session.SignOut | lib/axios.config.ts:37-45 | flags and fields cleared and both records removed |
| Store.Session.SetUserInfo | api/auth.ts:215-217 | only the profile changes, in memory and in storage |
| RequestClient.GetHeaders | lib/axios.config.ts:61-77 | override with headers returns the caller's headers verbatim; otherwise the keys are Content-Type, Authorization exactly when `withToken` and a token is stored, and the caller's; the caller's values win; the defaults otherwise |
| RequestClient.EffectiveConfigs | lib/axios.config.ts:92 | the default configuration applies only when `configs` is omitted |
| RequestClient.RefreshDefault | lib/axios.config.ts:92 | refresh is on by default; a given configuration enables it exactly when it holds a truthy flag, so one without the flag disables it |
| RequestClient.RequestArgument | lib/axios.config.ts:99-101 | for `get` and `delete` the argument has the keys of both the configuration and the data, with the data's values winning; other verbs send the data unchanged |
| RequestClient.Classify | lib/axios.config.ts:118-136 | ERR_NETWORK always raises the network error; a refresh runs exactly for a non-network 401 whose body code is not `token_not_valid` with the flag on; everything else rethrows |
| RequestClient.RefreshError | lib/axios.config.ts:29-46 | a renewed token yields Unauthorized, an expired session SessionExpired |
| RequestClient.RefreshResult | lib/axios.config.ts:13-48 | definition of the nested refresh outcome over the scripted replies; properties in UnfollowedIffAllRefreshable, RenewedIffFirstDelivered and SettledPrefix |
| RequestClient.Refreshed | lib/axios.config.ts:22-46 | definition of the state after a refresh; properties in RefreshKeepsPersisted and SignOutAbsorbsRefresh |
| RequestClient.RequestOutcome | lib/axios.config.ts:88-138 | definition of what `request` settles with; properties in RequestOutcomeCases and NoRefreshWithoutFlag |
| RequestClient.StateAfterRequest | lib/axios.config.ts:118-136 | definition of the state `request` leaves; properties in RequestOutcomeCases and NoRefreshWithoutFlag |
| RequestClient.Settle | api/auth.ts:110-118 | definition of how an API function settles: data on a response, the shared catch block on a rejection |
| RequestClient.UnfollowedIffAllRefreshable | lib/axios.config.ts:17-20 | the refresh recursion stays unresolved exactly when every nested refresh request is itself answered with a refreshable 401 |
| RequestClient.RenewedIffFirstDelivered | lib/axios.config.ts:17-29 | only a refresh request answered at the first level renews the token, with the returned access token |
| RequestClient.SettledPrefix | lib/axios.config.ts:13-48 | once a refresh outcome is not a refreshable failure, later nested outcomes are never consulted |
| RequestClient.RequestOutcomeCases | lib/axios.config.ts:98-137 | a request resolves exactly when delivered; it rejects only with the network error, Unauthorized, SessionExpired or the original AxiosError; Unauthorized keeps authentication and holds a token; SessionExpired signs out |
| RequestClient.NoRefreshWithoutFlag | lib/axios.config.ts:129-134 | with a configuration lacking the flag, a request never changes the session and always settles |
| RequestClient.RefreshKeepsPersisted | lib/axios.config.ts:27-28 | both refresh transitions keep memory and storage in step |
| RequestClient.SignOutAbsorbsRefresh | lib/axios.config.ts:37-45 | signing out after a refresh is signing out of the state before it |
| RequestClient.Request | lib/axios.config.ts:88-138 | the request settles with the specified outcome and leaves the specified state: unchanged except on the refresh path |
| RequestClient.RefreshToken | lib/axios.config.ts:13-48 | a renewal stores `{access, refresh: ""}` in memory and storage and keeps profile and authentication; a failure signs out and removes both records |
| GlobalStore.CallApi | lib/global-store.ts:43 | calling a member of the client yields the transport outcome exactly when the member exists, a TypeError otherwise |
| GlobalStore.ServerCheck | lib/global-store.ts:40-66 | definition of the start-up server check for a client's members; properties in ServerCheckConfirms, ServerCheckAsWrittenNeverConfirms and ServerCheckDiscrepancy |
| GlobalStore.WithConfirmed | lib/global-store.ts:58-62 | definition of the state after a confirmed check; properties in InitializeOutcome |
| GlobalStore.LoginReply | lib/global-store.ts:90-124 | definition of what `login` returns for a client's members; properties in LoginReplyCases, LoginAsWrittenAlwaysFails and LoginDiscrepancy |
| GlobalStore.ServerCheckConfirms | lib/global-store.ts:40-66 | on the axios instance, the start-up check confirms exactly a 200 reply to a stored token, with the returned profile |
| GlobalStore.ServerCheckAsWrittenNeverConfirms | lib/global-store.ts:43 | on the exported client the start-up check never confirms anything |
| GlobalStore.ServerCheckDiscrepancy | lib/global-store.ts:43-62 | for a stored token and a 200 reply the two clients disagree |
| GlobalStore.InitializeGlobalStore | lib/global-store.ts:36-86 | for the called client's members: a profile the server check confirms signs in with the stored token, then the cached profile hydrates, then the store is initialized; with the exported client, as written, start-up is the offline hydration alone |
| GlobalStore.InitializeOutcome | lib/global-store.ts:40-85 | after start-up the store is initialized; it is authenticated exactly when it was, a profile is cached, or the client has `get` and a 200 confirms a stored token; the token changes only to the stored one; storage is untouched; with the exported client the outcome is the offline hydration |
| GlobalStore.LoginReplyCases | lib/global-store.ts:90-124 | on an axios instance (the corrected half), `login` succeeds exactly for a 200 reply and reports the fixed message exactly for ERR_BAD_REQUEST |
| GlobalStore.LoginAsWrittenAlwaysFails | lib/global-store.ts:96 | on the exported client `login` never succeeds and never reports a message |
| GlobalStore.LoginDiscrepancy | lib/global-store.ts:96-104 | for a 200 reply the two clients disagree |
| GlobalStore.HandleLoginResponse | lib/global-store.ts:188-220 | a non-200 status fails and changes nothing; a 200 signs in with both tokens and the profile, in memory and storage |
| GlobalStore.Login | lib/global-store.ts:90-124 | never throws; returns the reply for the called client's members, and the state changes only on success, to the sign-in; with the exported client, as written, it never succeeds, reports nothing and changes nothing |
| GlobalStore.LoginWithGoogle | lib/global-store.ts:125-165 | never reports an error; succeeds exactly for a signed-in SDK flow, a client with `post` and a 200 reply; only success changes the state; with the exported client, as written, it never succeeds |
| GlobalStore.Logout | lib/global-store.ts:166-185 | the fields are cleared on every path; the records are removed unless the Google sign-out throws |
| AuthApi.InvalidCredentials | api/auth.ts:31-38 | `null` crashes; the result is EMAIL_NOT_VERIFIED or INVALID_CREDENTIALS; without truthy `non_field_errors` it is INVALID_CREDENTIALS |
| AuthApi.CredentialsFromMessageList | api/auth.ts:34-37 | for a message list, the first message decides: EMAIL_NOT_VERIFIED exactly when it contains "not verified" |
| AuthApi.CredentialsFromMessageString | api/auth.ts:34-37 | a single message string is read through its first character, so it always yields INVALID_CREDENTIALS |
| AuthApi.CredentialsCrashOnEmptyList | api/auth.ts:34 | an empty message list is truthy and has no first element, so the mapper throws |
| AuthApi.InvalidRegistrationSchema | api/auth.ts:40-50 | `null` crashes; truthy `non_field_errors` gives the generic schema error; otherwise INVALID_REGISTRATION_SCHEMA with the renamed field errors |
| AuthApi.RegistrationProperties | api/auth.ts:45-47 | the properties hold exactly the truthy `email`, `password1`, `password2` entries, under `email`, `password`, `confirmPassword` |
| AuthApi.AuthFailuresTyped | api/auth.ts:110-117 | the catch blocks throw a TypeError exactly for a 400 whose body the mapper crashes on: a `null` body for registration; for the credentials mapper a `null` body or one it cannot read, such as an empty message list |
| AuthApi.Register | api/auth.ts:80-119 | settles by the shared catch block with the registration mapper; a response signs in with both tokens and the profile, persisted |
| AuthApi.LoginWithCreds | api/auth.ts:121-156 | as `register`, with the credentials mapper |
| AuthApi.GetTokensCodeAsWrittenIsUnknown | api/auth.ts:168 | as written, the code "getTokens" becomes the unknown error |
| AuthApi.GoogleTokensErrorAsWritten | api/auth.ts:166-176 | the as-written half of the line 168 finding: the switch with the first label reduced to the cancel code; properties in GetTokensCodeAsWrittenIsUnknown and GoogleTokensErrorDiffers |
| AuthApi.GoogleTokensError | api/auth.ts:166-176 | both codes of the first label give signInCancelled; SIGN_IN_REQUIRED gives signInRequired; "7" the network error; any other code the unknown error |
| AuthApi.GoogleTokensErrorDiffers | api/auth.ts:168 | the as-written and the intended mapping differ only on "getTokens" |
| AuthApi.GetGoogleTokens | api/auth.ts:158-178 | never unresolved; yields the SDK access token exactly when no step throws; a failed sign-out propagates as it is; a failure of `signIn`/`getTokens` goes through the switch as written, giving a sign-in error, the network error or the unknown error, and "getTokens" gives the unknown error |
| AuthApi.LoginWithGoogle | api/auth.ts:180-205 | an SDK failure, mapped by the switch as written, propagates with no state change; a backend response signs in; a backend failure propagates untranslated |
| AuthApi.GetUserInfo | api/auth.ts:207-219 | a response replaces only the profile, in memory and storage; failures propagate |
| AuthApi.Logout | api/auth.ts:221-241 | the session is cleared, with both records, only after the Google sign-out and the backend call succeed; otherwise nothing changes beyond the request's own effect |
| AccountApi.FieldErrors | api/account.ts:43-66 | `null` crashes; truthy `non_field_errors` gives the schema error; otherwise the given object with the renamed field errors |
| AccountApi.InvalidUpdateAccountAsWritten | api/account.ts:43-53 | the as-written half of the line 52 finding: the profile field errors wrapped in the InvalidPassword object; properties in UpdateAccountErrorContents and UpdateErrorAsWrittenIsPasswordError |
| AccountApi.InvalidUpdateAccount | api/account.ts:30-33 | the corrected half of the line 52 finding: the same errors with the object declared for them; properties in UpdateAccountErrorContents and UpdateErrorDistinctFromPasswordError |
| AccountApi.InvalidPassword | api/account.ts:55-66 | definition of the password mapper; properties in PasswordErrorContents |
| AccountApi.UpdateAccountErrorContents | api/account.ts:43-53 | a profile-update error holds exactly the truthy `first_name`/`last_name` entries as `firstName`/`lastName`; as written it carries the INVALID_PASSWORD object (line 52); the corrected version differs only in carrying INVALID_UPDATE_ACCOUNT |
| AccountApi.PasswordErrorContents | api/account.ts:55-66 | a password error holds exactly the truthy `new_password1`/`new_password2` entries as `newPassword`/`confirmNewPassword`, under INVALID_PASSWORD |
| AccountApi.UpdateErrorDistinctFromPasswordError | api/account.ts:43-53 | with its own object, a profile-update error never equals a password error |
| AccountApi.UpdateErrorAsWrittenIsPasswordError | api/account.ts:52 | as written, a profile-update error with no field errors is the INVALID_PASSWORD error |
| AccountApi.InvalidToken | api/account.ts:68-77 | `null` crashes; the code is INVALID_RESET_PASSWORD_TOKEN; `token` is a property exactly when the body's is truthy, and then holds the fixed message |
| AccountApi.NonFieldSchemaError | api/account.ts:131-135 | the 400 mapper of `emailVerification` and `resetPassword`: the schema error of `data?.non_field_errors`, which does not throw on a `null` body |
| AccountApi.ResetConfirmFailure | api/account.ts:187-197 | a 400 throws a typed account error (a TypeError for a `null` body); an AppErrors is rethrown; every other failure is swallowed |
| AccountApi.ResetConfirmBadRequest | api/account.ts:189-193 | a 400 gives the token error exactly when the body's `token` is truthy, the password error otherwise |
| AccountApi.TokenCheckFailure | api/account.ts:217-224 | a 400 with a `null` body throws a TypeError; a 400 with a truthy `token` throws the token error; an AppErrors is rethrown; every other failure is swallowed |
| AccountApi.SplitResetToken | api/account.ts:202-204 | definition of the two handles of a reset link; properties in SplitResetTokenRoundTrip and SplitResetTokenWithoutSeparator |
| AccountApi.SplitResetTokenRoundTrip | api/account.ts:202-204 | `uid;token` splits back into both parts, and a second `;` and what follows are dropped |
| AccountApi.SplitResetTokenWithoutSeparator | api/account.ts:202-204 | without a `;` the whole string is the uid and the token is undefined |
| AccountApi.UpdateAccount | api/account.ts:80-117 | settles by the shared catch block with the profile-update mapper as written, so a 400 without `non_field_errors` throws the INVALID_PASSWORD error; a response replaces only the profile, persisted |
| AccountApi.EmailVerification | api/account.ts:119-141 | settles by the shared catch block, a 400 giving the schema error of `non_field_errors`; only the request's own effect on the state |
| AccountApi.ResetPassword | api/account.ts:143-165 | as `emailVerification`, for the reset e-mail |
| AccountApi.ResetPasswordConfirm | api/account.ts:167-198 | resolves on success and on every swallowed failure, otherwise throws the reset-confirm error |
| AccountApi.CheckPasswordResetToken | api/account.ts:200-225 | resolves with the split handles on success, with nothing on a swallowed failure, otherwise throws the token-check error |
| AccountApi.ChangePassword | api/account.ts:227-256 | settles by the shared catch block with the password mapper |
| PlantsApi.PlantAlreadyInCollection | api/plants.ts:15-19 | code PLANT_ALREADY_IN_COLLECTION, with `nonFieldErrors` equal to its own message |
| PlantsApi.SettleKeepingTyped | api/plants.ts:31-39 | yields data exactly for a response; a rejection is thrown exactly when it is an AppErrors and otherwise resolves with nothing |
| PlantsApi.PlantCallFailures | api/plants.ts:38 | a failed read-only call throws the network error, Unauthorized or SessionExpired, or resolves with nothing |
| PlantsApi.FetchKeepingTyped | api/plants.ts:64-77 | the read-only call shape: settles as specified, with only the request's own effect on the state |
| PlantsApi.SearchByKeyword | api/plants.ts:22-40 | the read-only call with the default configuration |
| PlantsApi.SearchByImage | api/plants.ts:42-62 | its own configuration (30000 ms, multipart) switches refresh off: never unresolved, and the session is unchanged |
| PlantsApi.GetPlantById | api/plants.ts:64-77 | the read-only call with the default configuration |
| PlantsApi.GetUserPlants | api/plants.ts:105-118 | the read-only call with the default configuration |
| PlantsApi.GetUserPlantCares | api/plants.ts:135-148 | the read-only call with the default configuration |
| PlantsApi.AddPlantFailure | api/plants.ts:90-102 | the corrected catch block: for a 400, the duplicate-entry error is thrown exactly when the messages are truthy and mention "unique"; other failures throw only an AppErrors |
| PlantsApi.AddPlantFailureAsWritten | api/plants.ts:90-102 | the as-written half of the line 95 finding: for a 400, the duplicate-entry error exactly when `non_field_errors` is an object with a `unique` key, a TypeError exactly when it is a truthy primitive (a message string, for one), otherwise the failure is swallowed; other failures throw only an AppErrors |
| PlantsApi.AddPlantAsWrittenIgnoresLists | api/plants.ts:93-97 | as written, a message list never yields the duplicate-entry error |
| PlantsApi.AddPlantDiscrepancy | api/plants.ts:93-97 | on the server's duplicate-entry answer the as-written and the corrected catch blocks disagree |
| PlantsApi.AddPlantToCollection | api/plants.ts:79-103 | the response data; for a rejection, the error of the catch block as written, or nothing when it swallows the failure |
| PlantsApi.DeleteUserPlant | api/plants.ts:120-133 | never throws; `true` exactly for a response; otherwise `false` |
| PlantsApi.CareTimeSplits | api/plants.ts:160 | the `h:m` time splits on `:` into exactly these two numbers |
| PlantsApi.CareTime | api/plants.ts:160 | definition of the unpadded `h:m` time; properties in CareTimeSplits and TriggerTimeOfCareTime |
| PlantsApi.PlantCarePayload | api/plants.ts:157-162 | the body has exactly `user_plant`, `type`, `time`, `repeat`: `user_plant` is `parseInt` of the selection (NaN as `null`), `time` unpadded `h:m`, `repeat` element for element |
| PlantsApi.PayloadKeepsPlantId | api/plants.ts:158 | a plant id rendered from a number is sent as that number |
| PlantsApi.CreatePlantCare | api/plants.ts:150-175 | sends the specified payload and settles as a read-only call |
| AccountSchema.LengthIssues | schemas/account.schema.ts:10-14 | no issue exactly when the length is within bounds; an empty value reports the field's own message first |
| AccountSchema.EmailOnlyIssues | schemas/account.schema.ts:3-5 | accepted exactly when non-empty and well-formed; an empty e-mail reports its message |
| AccountSchema.CheckPassword | schemas/account.schema.ts:61-69 | one issue on `confirmNewPassword` exactly when the two passwords differ |
| AccountSchema.PasswordPairAccepted | schemas/account.schema.ts:7-36 | a password pair is accepted exactly when the new password has 6 to 255 characters and the confirmation repeats it |
| AccountSchema.PasswordMismatchReported | schemas/account.schema.ts:19-21 | a mismatch is reported exactly when the passwords differ, last, whatever else is wrong |
| AccountSchema.ResetPasswordConfirmAccepted | schemas/account.schema.ts:38-53 | accepted exactly with a non-empty uid and token and an accepted password pair |
| AccountSchema.CheckPasswordTokenIssues | schemas/account.schema.ts:55-59 | accepted exactly when no character is a line terminator and some `;` has a character before and after it |
| AccountSchema.AcceptedTokenSplits | schemas/account.schema.ts:55-59 | an accepted token always splits into a uid and a defined token |
| AccountSchema.PairTokenAccepted | schemas/account.schema.ts:56 | `uid;token` with non-empty, separator-free parts is accepted and splits back into them |
| AccountSchema.EmptyPartsAccepted | schemas/account.schema.ts:56 | `;;x` is accepted and splits into an empty uid and token, which the reset-confirm schema rejects |
| AccountSchema.UpdateAccountAccepted | schemas/account.schema.ts:71-75 | accepted exactly when both names have 2 to 50 characters; an empty first name reports its message first |
| NotificationService.SelectDays | services/notification.service.ts:90-92 | at most one number per weekday entry |
| NotificationService.SelectedWeekdays | services/notification.service.ts:90-92 | the weekday numbers of a care schedule, in table order; properties in SelectedWeekdaysFacts and SelectedWeekdaysExample |
| NotificationService.SelectDaysMembership | services/notification.service.ts:90-92 | a number is selected exactly when some entry with that number has a value in `repeat` |
| NotificationService.SelectDaysByMembership | services/notification.service.ts:90-92 | only which known values `repeat` holds matters: order, duplicates and unknown values change nothing |
| NotificationService.SelectDaysDistinct | services/notification.service.ts:90-92 | distinct entry numbers give distinct selected numbers |
| NotificationService.SelectedWeekdaysFacts | constants/values.ts:14-22 | at most seven weekdays, no duplicates, all between 1 and 7 |
| NotificationService.SelectedWeekdaysExample | constants/values.ts:14-22 | selection follows the table order, sunday last: `["sun","mon","mon","holiday"]` gives `[2, 1]` |
| NotificationService.TypeLabel | services/notification.service.ts:87-88 | a label exactly for a known care type, and it is that entry's label; an unknown type throws |
| NotificationService.TriggerTime | services/notification.service.ts:84-85 | definition of the trigger hour and minute; properties in TriggerTimeOfDigits, TriggerTimeOfCareTime and TriggerTimeOfServerTime |
| NotificationService.Planned | services/notification.service.ts:96-108 | definition of one scheduled notification: title, body, `data.id` tag and trigger; properties in WeeklyBatch |
| NotificationService.TriggerTimeOfCareTime | services/notification.service.ts:84-85 | the `h:m` time sent by `createPlantCare` triggers at that hour and minute |
| NotificationService.TriggerTimeOfDigits | services/notification.service.ts:84-85 | a time whose first two `:` pieces are digit strings triggers at their values, whatever follows the second `:` |
| NotificationService.TriggerTimeOfServerTime | services/notification.service.ts:84-85 | the server's `09:05:00` triggers at hour 9, minute 5 |
| NotificationService.WeeklyBatch | services/notification.service.ts:94-114 | one notification per weekday, in order, tagged with the care's `data.id` and with consecutive identifiers |
| NotificationService.Matching | services/notification.service.ts:120-123 | exactly the entries with the given `data.id` |
| NotificationService.NotMatching | services/notification.service.ts:136-145 | exactly the entries with another `data.id` |
| NotificationService.CancelMatching | services/notification.service.ts:136-145 | with distinct identifiers, cancelling the identifiers of the matches leaves exactly the other entries |
| NotificationService.UpdateLeavesOnlyNewBatch | services/notification.service.ts:126-134 | after an update by the care's own id, the notifications found for it are exactly the new batch |
| NotificationService.WithoutKeepsDistinct | services/notification.service.ts:139-141 | cancelling keeps identifiers distinct and below the counter |
| NotificationService.Scheduler.constructor | services/notification.service.ts:63-66 | an empty table |
| NotificationService.Scheduler.Schedule | services/notification.service.ts:63-66 | appends one entry with a fresh identifier, which it returns |
| NotificationService.Scheduler.Cancel | services/notification.service.ts:139-141 | removes the entry with that identifier and nothing else |
| NotificationService.FindNotificationsById | services/notification.service.ts:117-124 | exactly the scheduled entries tagged with the prefixed id, in order |
| NotificationService.CancelNotificationsById | services/notification.service.ts:136-145 | the table afterwards is exactly the entries with another tag; the counter is unchanged |
| NotificationService.ScheduleBatch | services/notification.service.ts:94-114 | the table grows by the weekly batch for the given weekdays, identifiers counted from the counter, and the returned identifiers are those, in order |
| NotificationService.ScheduleWeeklyNotification | services/notification.service.ts:81-115 | an unknown care type throws and schedules nothing; otherwise the table grows by the weekly batch and the returned identifiers are the batch's, in order |
| NotificationService.UpdateNotificationsById | services/notification.service.ts:126-134 | the table afterwards is the entries not tagged with `id`, followed by the new batch |
| Utils.CatchError | lib/utils.ts:12-22 | never throws: a value becomes `[undefined, data]`, any rejection `[error]` |
| Utils.CatchErrorTyped | lib/utils.ts:24-39 | definition of `catchErrorTyped`; properties in CatchErrorTypedCases, CatchErrorTypedByClass and CatchErrorTypedMonotone |
| Utils.CatchErrorTypedCases | lib/utils.ts:24-39 | success as `catchError`; a rejection is rethrown exactly when a class list is given and none matches; an undefined list catches everything, an empty list nothing |
| Utils.CatchErrorTypedByClass | lib/utils.ts:36-37 | listing AppErrors catches exactly the typed errors; listing one domain class catches exactly the errors of that class |
| Utils.CatchErrorTypedMonotone | lib/utils.ts:36 | listing more classes never rethrows more |
| EmailVerificationForm.TwoDigits | components/EmailVerificationForm.tsx:325-326 | two decimal digits whose value is the number |
| EmailVerificationForm.SecondsPart | components/EmailVerificationForm.tsx:325-326 | the seconds part is the zero-padded two-digit rendering |
| EmailVerificationForm.FormatTime | components/EmailVerificationForm.tsx:321-327 | definition of the countdown text; properties in FormatTimeShape, FormatTimeRoundTrip, FormatTimeInjective and FormatTimeExamples |
| EmailVerificationForm.FormatTimeShape | components/EmailVerificationForm.tsx:321-327 | the minutes prefix appears exactly from 60 seconds on; under a minute the text is three characters |
| EmailVerificationForm.FormatTimeRoundTrip | components/EmailVerificationForm.tsx:321-327 | the rendered countdown reads back as the time left |
| EmailVerificationForm.FormatTimeInjective | components/EmailVerificationForm.tsx:321-327 | distinct times render differently |
| EmailVerificationForm.FormatTimeExamples | components/EmailVerificationForm.tsx:321-327 | 60 is `1m:00s`, 5 is `05s`, 125 is `2m:05s` |
| EmailVerificationForm.Initial | components/EmailVerificationForm.tsx:41-46 | the form can resend exactly in reset mode or while the e-mail is unverified; no timer, no success, empty token |
| EmailVerificationForm.AfterSend | components/EmailVerificationForm.tsx:67-104 | definition of what a send handler does with `[error, response]`; properties in ConsistentPreserved and ResendAfterOneMinute |
| EmailVerificationForm.TimerFinished | components/EmailVerificationForm.tsx:149-152 | definition of `handleTimerFinish`; properties in ConsistentPreserved and CountdownEnds |
| EmailVerificationForm.Tick | components/EmailVerificationForm.tsx:306-319 | definition of one second of the countdown; properties in ConsistentPreserved, CountdownEnds and TicksIdle |
| EmailVerificationForm.ConsistentPreserved | components/EmailVerificationForm.tsx:67-104 | mount, sends, ticks and timer finish keep the button disabled while the countdown shows, with 1 to 60 seconds left |
| EmailVerificationForm.CountdownEnds | components/EmailVerificationForm.tsx:306-319 | a countdown with k seconds left keeps the button disabled for k-1 ticks and enables it at tick k |
| EmailVerificationForm.TicksIdle | components/EmailVerificationForm.tsx:308-318 | without a countdown, ticks change nothing |
| EmailVerificationForm.ResendAfterOneMinute | components/EmailVerificationForm.tsx:180 | after a successful send the button is enabled again exactly 60 ticks later |
| EmailVerificationForm.TokenEntry | components/EmailVerificationForm.tsx:135-141 | a field error only from a typed error with a truthy `token` property |
| EmailVerificationForm.AfterTokenCheck | components/EmailVerificationForm.tsx:132-144 | definition of what the token handler does with `[error, response]`: clear the field and show the token error, or navigate; properties in TokenCheckOnBadRequest |
| EmailVerificationForm.SendCaught | components/EmailVerificationForm.tsx:67-104 | definition of `[error, response]` of a send handler; properties in SendErrors |
| EmailVerificationForm.TokenCaught | components/EmailVerificationForm.tsx:127-130 | definition of `[error, response]` of the token handler; properties in TokenCheckOnBadRequest |
| EmailVerificationForm.SendErrors | components/EmailVerificationForm.tsx:67-104 | a caught error is always an AccountErrors (the popup branch is dead); a network error escapes; a 400 is caught |
| EmailVerificationForm.TokenCheckOnBadRequest | components/EmailVerificationForm.tsx:121-147 | a 400 without `token` navigates on; with a truthy `token` the field shows the fixed message |
| EmailVerificationForm.Form.constructor | components/EmailVerificationForm.tsx:41-46 | the mounted form is in the initial state |
| EmailVerificationForm.Form.SetState | components/EmailVerificationForm.tsx:78-80 | the state becomes the given one |
| EmailVerificationForm.Form.OnSendEmailSubmit | components/EmailVerificationForm.tsx:106-119 | the handler applies the send outcome and lowers the loading flag, unless the outcome rethrows, which leaves the form unchanged and the flag raised |
| EmailVerificationForm.Form.OnCheckTokenSubmit | components/EmailVerificationForm.tsx:121-147 | as the send handler, applying the token outcome: clear and show the error, or navigate |
| EmailVerificationForm.Form.HandleTimerFinish | components/EmailVerificationForm.tsx:149-152 | enables the button and hides the countdown |
| EmailVerificationForm.Form.OnTick | components/EmailVerificationForm.tsx:308-319 | one second less while counting; reaching 0 finishes the timer |

## Left out

- I/O and presentation are not modelled: `console.log`, toasts, popups, rendering and styling. The `delay` in start-up and all wall-clock timeouts are left out as well.
- The Google Sign-In SDK, axios and the Expo notification module are not modelled. Their observable results are inputs: a `Transport` outcome, an `SdkStep` or a `GoogleFlow`, and scheduler identifiers from a counter.
- Requests are not modelled as URLs. URLs, query strings and HTTP verbs are not distinguished beyond `get`/`delete` in `RequestClient.RequestArgument`. `getHeaders` is never called by `request`, so it is modelled on its own.
- Serialisation in `lib/storage.ts` and JSON round-trips through it are not modelled. The storage is a ghost map of JSON values.
- The refresh recursion in `request` is unbounded in the source. The model bounds it by the scripted nested outcomes, and a script that runs out gives an `Undetermined` settlement.
- Concurrency and the zustand/React scheduling are not modelled. Calls are sequential; concurrent 401s are not considered.
- `AccountSchema.EmailOnlyIssues`: the e-mail pattern of the zod library is a boolean parameter, because the library is not part of this model.
- Zod reports lengths in UTF-16 code units. The model counts characters.
- The messages of issues without a custom one come from `lib/zod.config.ts`, which is not part of this model.
- `getErrorsString` (in lib/errors.ts) is not part of this model. The form's field error is the raw `token` property (`EmailVerificationForm.TokenEntry`).
- lib/errors.ts is available only in part. The model assumes these class facts:
  - AuthErrors, AccountErrors and PlantErrors are AppErrors;
  - `AccountErrors.invalidSchema` builds an AccountErrors;
  - `AppErrors.invalidSchema` builds an AppErrors.
- `emailOnlySchema.parse` / `checkPasswordTokenSchema.parse` throwing in the form handlers is not modelled. The form submits only values its resolver has already accepted.
- `registerForPushNotificationsAsync`, `cancelAllNotifications` and the commented-out alarm code are left out: they are platform permissions and push tokens, not bookkeeping. `schedulePushNotification` is the `Scheduler.Schedule` call itself.
- The notification identifiers are a counter. The native module returns opaque fresh identifiers.
- `NotificationService.UpdateNotificationsById` returns the identifiers of the new batch, which the source discards.
- `NotificationService.Notification` does not carry the trigger type. Every trigger is WEEKLY.
- `PlantsApi.CreatePlantCare`: the `Date` of the schema is represented by its hour and minute, so `getHours()`/`getMinutes()` are inputs below 24 and 60.
- Numbers in JSON bodies are integers.
- `AuthApi.GetGoogleTokens` does not model the SDK's `signIn` result beyond success or a thrown code. The status-code strings are parameters, because the SDK defines them per platform.
- `GlobalStore.LoginWithGoogle` does not distinguish the SDK error codes. The source switches on them but does nothing in any case.
- `JsStrings.NumberOf`: a non-empty string that is not all decimal digits is NaN. JavaScript's `Number` also reads surrounding whitespace, a sign, fractions, exponents and hexadecimal (`Number(" 9")`, `Number("-1")` and `Number("1.5")` are numbers). The core passes it only digit strings: the pieces of an `h:m` time.
- `JsStrings.ParseInt`: skips no leading whitespace and does not read a `0x` prefix as hexadecimal, as JavaScript's `parseInt` does. The core parses only strings it rendered from numbers.
- `GlobalStore.InitializeGlobalStore`: requires that the stored token entry is a token the app wrote, or nothing truthy. Storage written by other code (a truthy value that is not a token) is not modelled.
- `Store.Session`: one object holds the fields of both zustand stores, `useGlobalStore` of lib/global-store.ts and `useStore` of stores/index.ts. So `isAppLoading`, which both declare (stores/index.ts:9, and the `useGlobalStore.setState({ isAppLoading })` calls at components/EmailVerificationForm.tsx:110-146), is a single field. The model does not capture the two stores' flags diverging.
- `Errors.Thrown`: a `SignInError` (the GoogleSigninErrors built in api/auth.ts) is assumed not to be an AppErrors. Its base class `ErrorWithCode` is not in the part of lib/errors.ts available to this model.

## Findings

| source | as written | input that shows it | evidently intended | confidence | as-written member | corrected member |
|---|---|---|---|---|---|---|
| lib/global-store.ts:43 | `api.get(...)` on the client exported by lib/axios.config.ts, which has only `request` and `getHeaders`; the TypeError is swallowed | a stored token and a 200 reply from `/auth/user/` | the server check confirms the stored token and loads the profile | not executed | GlobalStore.ServerCheckAsWrittenNeverConfirms | GlobalStore.ServerCheckConfirms |
| lib/global-store.ts:96 | `api.post(...)` in `login` is undefined, so `login` always returns `{isSuccess: false}` with no message | a 200 reply to `POST /auth/login/` | `login` succeeds on a 200 and reports bad credentials on ERR_BAD_REQUEST | not executed | GlobalStore.LoginAsWrittenAlwaysFails | GlobalStore.LoginReplyCases |
| api/auth.ts:168 | `case statusCodes.SIGN_IN_CANCELLED \|\| GoogleSigninErrors.SignInRequired` evaluates to the cancel code alone | an SDK error with code "getTokens" | both codes yield the sign-in-cancelled error | not executed | AuthApi.GetTokensCodeAsWrittenIsUnknown | AuthApi.GoogleTokensError |
| api/account.ts:52 | `invalidUpdateAccount` builds its error from the `InvalidPassword` object | a 400 with body `{}` to the profile update | the error carries INVALID_UPDATE_ACCOUNT | not executed | AccountApi.UpdateErrorAsWrittenIsPasswordError | AccountApi.UpdateErrorDistinctFromPasswordError |
| api/plants.ts:95 | `"unique" in non_field_errors` tests the keys of the message array, never its messages | a 400 with `non_field_errors: ["The fields user, plant must make a unique set."]` | the duplicate entry is reported as PLANT_ALREADY_IN_COLLECTION | not executed | PlantsApi.AddPlantAsWrittenIgnoresLists | PlantsApi.AddPlantFailure |
