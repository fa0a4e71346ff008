# auth-core in Dafny

A model of the core of auth-core, a NestJS authentication service. The model
covers these parts:

- **Local accounts.** Signup leaves a pending registration, which holds a
  hashed password, a nickname and a random verification code. Resend replaces
  the code. Confirm turns a verified confirmation token into a member with a
  password, a `local` provider row and a profile. Signin checks a password.
  Two generations of this service are modelled: the current `AuthLocalService`
  and the older `SignupService` and `SigninService`.
- **OAuth login** for Google, Kakao and Naver. There are three generations of
  services: legacy, mobile and web. Each builds the authorization, token and
  profile URLs from its configuration. It exchanges the code, reads and checks
  the provider's profile, finds or creates the user that owns the account
  (provider, provider id), and signs an access and a refresh token over the
  user's `{uuid, role}`.
- **Supporting services.** One-time codes in a cache (`CodeService`) and user
  deletion (`UserService`).
- **Controllers.** Feature flags (423 Locked). The confirmation link and the
  mailer. Rollback of a signup whose mail fails. The `Authorization` header.
  The session that keeps the refresh token, and refresh-token rotation.
- **Validation.** The zod request schemas for nickname, login id and password,
  with their ECMAScript regular expressions read per section 22.2 of ECMA-262.
  Environment validation with `parseInt` per section 19.2.5 of ECMA-262, and
  the zod configuration schema.

How the model is built:

- Each service call is a pure function from a store to either an error or a
  new store and an answer. The store is a record of finite maps, one per table.
  A rolled-back transaction is a call that returns an error and no store.
- Collaborators are parameters:
  - JWT signing and verification are the `TokenService` record of functions.
  - bcrypt is a `Hasher`.
  - `randomBytes` is the entropy, which becomes `Hex.Encode` of it.
  - `randomUUID` is a uuid the caller guarantees is fresh.
  - Each provider's HTTP endpoint is a function from request URL to response.
  - A storage failure is a `fault` argument.
  - The mailer's eventual verdict is a `delivered` argument.

## Model

| member | source | states |
|---|---|---|
| Registration.Signup | src/services/auth/local.service.ts:32-76 | Signup fails with Conflict exactly when the email is already a member ("Email already exists") or already pending ("Please confirm the email"). On success the member, password, provider and profile tables are unchanged. Exactly one pending registration is added, under that email, and every other pending registration keeps its password and nickname. The new registration holds the hashed password, and the given nickname or else the local part of the email. Exactly one code row is added; its code is the 16 hex digits of the random bytes. The returned token signs {email, that code}. In a well-formed store every existing code row is kept. |
| Registration.Resend | src/services/auth/local.service.ts:86-115 | An unknown email gives BadRequest "Member not found". A registration without its code row gives "Temp member not found". Otherwise only that registration's code row changes: it gets the new hex code. Members, passwords, providers, profiles, pending registrations and every other code row are unchanged. The token signs the code that was stored before the call. |
| Registration.ResendCorrected | src/services/auth/local.service.ts:86-115 | The corrected resend fails exactly where the original does, stores the fresh code and signs that same code. |
| Registration.Promote | src/services/auth/local.service.ts:136-180 | Succeeds exactly when the pending code equals the payload's code and the email is not a member. Each failing check maps to its own error. The new member gets the given uuid, the pending password, provider `local` and the pending nickname. Exactly one row is added to each of the password, provider and profile tables, under the new member's id, and all other rows there are kept. All other members are untouched. The pending registration and exactly its code row are removed, and the other pending registrations are kept as they were. |
| Registration.Confirm | src/services/auth/local.service.ts:127-186 | A token that does not verify passes its error through. Otherwise the outcome is the promotion of the verified payload, answered as {uuid, email}. |
| Registration.Authenticate | src/services/auth/local.service.ts:198-242 | An unknown email and a wrong password give the same Unauthorized "Email or password is incorrect.". A missing provider row or password row is an internal error. Success returns the stored member row and happens exactly when the hash comparison succeeds. |
| Registration.Signin | src/services/auth/local.service.ts:198-248 | Fails exactly when authentication fails, with the same error. Otherwise it answers the member's {uuid, email}. |
| RegistrationLemmas.SignupPreservesWf | src/services/auth/local.service.ts:32-76 | Signup keeps the store invariant. Every pending registration has its code row. Ids come from their sequences. Emails and uuids of members are unique. No email is both pending and a member. |
| RegistrationLemmas.ResendPreservesWf | src/services/auth/local.service.ts:86-115 | A successful resend leaves a well-formed store well-formed. |
| RegistrationLemmas.PromotePreservesWf | src/services/auth/local.service.ts:150-180 | The confirm transaction keeps the store invariant. |
| RegistrationLemmas.InternalErrorsUnreachable | src/services/auth/local.service.ts:96-98 | In a reachable store, resend of a pending email always succeeds. Promotion fails only with "Member not found" or "Code does not match", never with the internal or unique-constraint errors. |
| RegistrationLemmas.SignupConfirmSignin | src/services/auth/local.service.ts:32-248 | A fresh signup, confirmed with the token it returned, creates a member with the drawn uuid. That member signs in with the same password. |
| RegistrationLemmas.ConfirmIsSingleUse | src/services/auth/local.service.ts:175-180 | Replaying a token that has already confirmed gives "Member not found". |
| RegistrationLemmas.ResendTokenIsStale | src/services/auth/local.service.ts:100-114 | After a signup and a resend that draws different bytes, the resend returns the signup's token, and confirming with it gives "Code does not match". |
| RegistrationLemmas.ResendCorrectedTokenConfirms | src/services/auth/local.service.ts:100-114 | With the corrected resend, the token it returns confirms the registration. |
| RegistrationLemmas.SigninHidesWhichCheckFailed | src/services/auth/local.service.ts:210-242 | The sign-in answer for an unknown email is the same as for a known email with a wrong password, so the answer does not reveal which emails are registered. |
| LegacyRegistration.Signup | src/services/signup.service.ts:27-68 | The older signup keeps the current one's whole promise, including which rows are kept, with the JWT module as the signer. |
| LegacyRegistration.Resend | src/services/signup.service.ts:69-95 | The older resend keeps the current one's whole promise, including which rows are kept and the stale code. |
| LegacyRegistration.Confirm | src/services/signup.service.ts:101-154 | Verifies first, then promotes with the same checks, errors and kept rows as the current confirm, and answers with the new member row. |
| LegacyRegistration.Signin | src/services/signin.service.ts:18-59 | The same checks and errors as the current signin; it answers with the stored member row. |
| LegacyRegistration.ConfirmAgreesWithCurrent | src/services/signup.service.ts:101-154 | Both generations of confirm succeed together, fail with the same error, and leave the same store. They name the same member. |
| Accounts.GetUser | src/services/oauth/oauth_account.service.ts:18-38 | Finds a user exactly when some user owns the account (provider, provider id). The answer is that owner with its role; otherwise NotFound "User not found". |
| Accounts.CreateUser | src/services/oauth/oauth_account.service.ts:50-76 | Fails with a unique violation exactly when the account (provider, provider id) already exists. Otherwise it adds exactly one user, one account owned by that user and one profile holding the nickname. Every existing user and account is kept with its contents, and so is every profile other than the new uuid's. In a well-formed store the new uuid had no profile, so every existing profile is kept and the store stays well-formed. |
| Accounts.GetUserAfterCreateUser | src/services/oauth/oauth_account.service.ts:18-76 | An account that was just created is found again under the same (provider, provider id), and names the new user. |
| OauthLogin.FindOrCreate | src/services/mobile/auth/oauth/kakao_oauth.service.ts:30-65 | An existing link is used as it is and nothing is written. A lookup failure other than NotFound reaches the caller. A new link carries the profile's id, email and nickname. The user returned always owns the account, and without faults a well-formed store always resolves. |
| OauthLogin.SignIn | src/services/mobile/auth/oauth/kakao_oauth.service.ts:30-65 | Both tokens are signed over the uuid and role of the owner of (provider, provider id) in the resulting store. An existing user is signed in without any write. |
| OauthLogin.SignInIsIdempotent | src/services/mobile/auth/oauth/kakao_oauth.service.ts:30-65 | A second login with the same provider id writes nothing and answers the same tokens, whatever email or nickname the provider now reports. |
| OauthLogin.ProvidersAreSeparate | src/services/oauth/oauth_account.service.ts:18-38 | The same provider id under two different providers links to two different users. |
| OauthClient.ReadTokenUrl | src/services/mobile/auth/oauth/kakao_oauth.service.ts:73 | A reader of the token URL recovers the token endpoint and client_id, client_secret, redirect_uri, code and grant_type, in that order. This holds when no value contains `&` and no endpoint contains `?`. |
| OauthClient.LoginUrlsAreAuthorizationRequests | src/services/mobile/auth/oauth/google_oauth.service.ts:174 | Both login URL templates read back as authorization requests per section 4.1.1 of RFC 6749: response_type=code, the client id and the redirect URI. |
| OauthClient.TokenUrlIsTokenRequest | src/services/mobile/auth/oauth/google_oauth.service.ts:38 | The token URL reads back as an access token request per section 4.1.3 of RFC 6749 carrying the same code and redirect URI. |
| MobileKakao.GetAccessToken | src/services/mobile/auth/oauth/kakao_oauth.service.ts:67-88 | Succeeds exactly when the token endpoint answers ok for the URL built with the mobile redirect URI, and returns its access token. Otherwise Unauthorized "Invalid code". |
| MobileKakao.GetProfile | src/services/mobile/auth/oauth/kakao_oauth.service.ts:90-118 | Succeeds exactly when the answer is ok and the email is present, valid and verified. The profile id is the decimal rendering of Kakao's numeric id, and reads back to it. The failures are "Invalid access token" and "Invalid email". |
| MobileKakao.LoginWithAccess | src/services/mobile/auth/oauth/kakao_oauth.service.ts:30-65 | A profile error is the answer. On success the tokens are bound to the KAKAO account named by the profile's decimal id. A storage failure other than NotFound is rethrown as it is. Otherwise, when the account is not found, a new one is created carrying the profile's email and nickname. Without a fault, a well-formed store always logs in and stays well-formed. |
| MobileKakao.Login | src/services/mobile/auth/oauth/kakao_oauth.service.ts:120-160 | A failed exchange gives "Invalid code". After a good exchange, the login keeps every promise of the login with the exchanged access token: profile errors, binding to the KAKAO account, the rethrown storage failure, the new account's email and nickname, and success on a fault-free well-formed store. |
| MobileKakao.LoginIsExchangeThenLoginWithAccess | src/services/mobile/auth/oauth/kakao_oauth.service.ts:120-160 | Logging in with a code equals logging in with the access token it is exchanged for. |
| MobileKakao.LoginUrl | src/services/mobile/auth/oauth/kakao_oauth.service.ts:162-169 | The URL reads back as the auth endpoint with client_id, the mobile redirect_uri, response_type=code and the account_email and profile_nickname scopes. |
| MobileGoogle.GetAccessToken | src/services/mobile/auth/oauth/google_oauth.service.ts:30-52 | Succeeds exactly when the token endpoint answers ok; otherwise Unauthorized "Invalid code". |
| MobileGoogle.GetProfile | src/services/mobile/auth/oauth/google_oauth.service.ts:54-80 | Succeeds exactly when the answer is ok and `email_verified` is true; otherwise the two Unauthorized errors. The profile id is the OpenID subject `sub`. |
| MobileGoogle.Login | src/services/mobile/auth/oauth/google_oauth.service.ts:82-122 | A failed exchange gives "Invalid code". After a good exchange, the login keeps every promise of the login with the exchanged access token, under GOOGLE and the profile's subject. |
| MobileGoogle.LoginWithAccess | src/services/mobile/auth/oauth/google_oauth.service.ts:124-168 | A profile error is the answer. On success the tokens are bound to the GOOGLE account of the subject. A storage failure other than NotFound is rethrown as it is. Otherwise, when the account is not found, a new one is created carrying the profile's email and nickname. Without a fault, a well-formed store always logs in and stays well-formed. |
| MobileGoogle.IdTokenIsIgnored | src/services/mobile/auth/oauth/google_oauth.service.ts:124-168 | The ID token the app sends has no influence on the outcome. |
| MobileGoogle.LoginIsExchangeThenLoginWithAccess | src/services/mobile/auth/oauth/google_oauth.service.ts:82-168 | When the code exchange succeeds, logging in with the code equals logging in with the access token it is exchanged for, whatever ID token comes with it. |
| MobileGoogle.LoginUrl | src/services/mobile/auth/oauth/google_oauth.service.ts:170-177 | The URL reads back as the auth endpoint with client_id, the mobile redirect_uri, response_type=code and the email and profile scopes. |
| NaverApi.GetAccessToken | src/services/mobile/auth/oauth/naver_oauth.service.ts:64-95 | Succeeds exactly when the answer is ok and both tokens are present and non-empty; otherwise "Invalid code". |
| NaverApi.GetProfile | src/services/mobile/auth/oauth/naver_oauth.service.ts:97-124 | A transport failure is a plain Error and a result code other than "00" is Unauthorized. Success is exactly ok with "00", giving the response's id, email and nickname. |
| NaverApi.LoginIsExchangeThenLoginWithAccess | src/services/mobile/auth/oauth/naver_oauth.service.ts:126-133 | Logging in with a code equals logging in with the access token it is exchanged for; Naver's refresh token is dropped. |
| MobileNaver.Login | src/services/mobile/auth/oauth/naver_oauth.service.ts:126-133 | Exchange with the mobile redirect URI, then login with the access token. A failed exchange gives "Invalid code". After a good exchange, every promise of the login with the access token holds: binding to the NAVER account, the rethrown storage failure, the new account's email and nickname, and success on a fault-free well-formed store. |
| MobileNaver.LoginWithAccess | src/services/mobile/auth/oauth/naver_oauth.service.ts:26-62 | A profile error is the answer. On success the tokens are bound to the NAVER account of the profile id. A storage failure other than NotFound is rethrown as it is. Otherwise, when the account is not found, a new one is created carrying the profile's email and nickname. Without a fault, a well-formed store always logs in and stays well-formed. |
| MobileNaver.LoginUrl | src/services/mobile/auth/oauth/naver_oauth.service.ts:135-142 | The URL reads back as client_id, response_type=code and the mobile redirect_uri, with no scope. |
| WebNaver.Login | src/services/web/auth/oauth/naver_oauth.service.ts:88-127 | As the mobile login, with the web redirect URI: "Invalid code" on a failed exchange; otherwise the profile error, the NAVER binding, the rethrown storage failure, the new account's contents, and success on a fault-free well-formed store. |
| WebNaver.LoginUrl | src/services/web/auth/oauth/naver_oauth.service.ts:129-136 | The URL reads back with the web redirect_uri. |
| WebNaver.SameAsMobileUpToRedirect | src/services/web/auth/oauth/naver_oauth.service.ts:26-136 | With equal redirect URIs, the web and mobile Naver services log in identically and build the same URL. |
| LegacyNaver.Login | src/services/oauth/naver_oauth.service.ts:107-146 | The legacy Naver login, with its single configured redirect URI: "Invalid code" on a failed exchange; otherwise the profile error, the NAVER binding, the rethrown storage failure, the new account's contents, and success on a fault-free well-formed store. |
| LegacyNaver.LoginUrl | src/services/oauth/naver_oauth.service.ts:152-159 | The URL reads back as client_id, response_type=code and redirect_uri. |
| LegacyOauth.GetAccessToken | src/services/oauth/google_oauth.service.ts:33-50 | Succeeds exactly when the answer is ok, handing back the body; otherwise "Invalid code". |
| LegacyOauth.GetProfile | src/services/oauth/google_oauth.service.ts:57-68 | Succeeds exactly when the answer is ok. The body is handed back unchecked, so an unverified email is accepted. |
| LegacyOauth.Login | src/services/oauth/google_oauth.service.ts:78-118 | A failed exchange gives "Invalid code". On success the tokens are bound to the account of the profile's `id` under the service's provider tag. A failed profile fetch answers "Invalid access token". A storage failure other than NotFound fails the login, and after a good exchange and profile it is exactly the error returned. A new account stores the profile's `email`, and its profile row takes the profile's `name`. Without faults, a well-formed store always logs in and stays well-formed. |
| LegacyGoogle.Login | src/services/oauth/google_oauth.service.ts:78-118 | A failed exchange gives "Invalid code". On success the tokens are bound to the GOOGLE account whose provider id is the profile's `id`. A failed profile fetch answers "Invalid access token". A storage failure other than NotFound fails the login, and after a good exchange and profile it is exactly the error returned. A new account stores the profile's `email`, and its profile row takes the profile's `name`. Without faults, a well-formed store always logs in and stays well-formed. |
| LegacyGoogle.LoginUrl | src/services/oauth/google_oauth.service.ts:120-127 | The URL reads back as client_id, redirect_uri, response_type=code and the email and profile scopes. |
| LegacyKakao.Login | src/services/oauth/kakao_oauth.service.ts:78-118 | As written, the tokens are bound to the GOOGLE account whose provider id is the Kakao profile's `id`. Otherwise it promises what the legacy Google login does: "Invalid code", "Invalid access token", the exact storage failure, the new account's email and name, and success on a fault-free well-formed store. |
| LegacyKakao.LoginCorrected | src/services/oauth/kakao_oauth.service.ts:78-118 | Corrected, the tokens are bound to the KAKAO account whose provider id is the Kakao profile's `id`. The errors, the new account's email and name, and success on a fault-free well-formed store are as for the legacy Google login. |
| LegacyKakao.LoginUrl | src/services/oauth/kakao_oauth.service.ts:120-127 | The URL reads back with Kakao's configured client and the email and profile scopes. |
| LegacyKakao.KakaoLoginLandsOnGoogleAccount | src/services/oauth/kakao_oauth.service.ts:85-98 | A Kakao user whose Kakao id equals the provider id of an existing Google account is signed in as that Google user, and nothing is written. |
| LegacyKakao.CorrectedKakaoLoginKeepsGoogleAccount | src/services/oauth/kakao_oauth.service.ts:85-98 | Corrected, the same Kakao user gets a new user of their own, and the Google account still resolves to its owner. |
| Codes.GenCode | src/services/code.service.ts:14-20 | The code is 32 hex digits and maps to the uuid, added to the cache with every other entry kept; a cache failure gives "Failed to save code". |
| Codes.GetUuid | src/services/code.service.ts:22-32 | Finds the uuid exactly when the code is cached, and removes the code in either case, keeping every other entry; a cache failure gives "Failed to get uuid". |
| Codes.CodeIsSingleUse | src/services/code.service.ts:14-32 | A code generated for a uuid gives that uuid back on the first read and nothing on the second. |
| Codes.DistinctEntropyDistinctCodes | src/services/code.service.ts:14-20 | Different random bytes give different codes. |
| Users.DeleteUser | src/services/user.service.ts:10-26 | Succeeds exactly when the user exists. The user row, its accounts and its profile are removed and nothing else changes. Prisma's record-not-found becomes NotFound "User not found"; other failures pass through. |
| Users.DeleteUserPreservesWf | src/services/user.service.ts:10-26 | A successful deletion leaves a well-formed store well-formed: no account or profile is left without its user. |
| Users.DeletedUserIsGone | src/services/user.service.ts:10-26 | After a deletion none of the user's accounts resolves, and a second deletion answers NotFound. |
| Bearer.AccessToken | src/controllers/web/token.controller.ts:20-24 | A token is found exactly when the header holds a space and the text from the first space up to the next is non-empty. That text is the token; otherwise NotFound "access token not found". |
| Bearer.TokenAfterAnyScheme | src/controllers/web/token.controller.ts:20 | A header "scheme token", whatever the scheme word and whatever follows after a further space, yields the token. |
| Bearer.NoTokenCases | src/controllers/web/token.controller.ts:20-24 | No header, a single word, a word and a trailing space, and two spaces in a row all count as carrying no token. |
| LocalController.Link | src/controllers/local.controller.ts:63 | The confirmation link splits at its first `?` into the configured page and `token=<token>`. |
| LocalController.TokenOf | src/controllers/local.controller.ts:97 | Reading a link built from a page without `?` gives back the token it carries. |
| LocalController.Confirm | src/controllers/local.controller.ts:50-57 | Answers "success" exactly when the service confirms, with the service's store. |
| LocalController.Resend | src/controllers/local.controller.ts:59-82 | Fails exactly when the service's resend fails. The mail goes to the given email, and its link carries the token over the code stored before the call. |
| LocalController.Signup | src/controllers/local.controller.ts:84-116 | A disabled flag gives 423 Locked. Otherwise it fails exactly when the service's signup fails. The mailed link carries the token over the newly stored code. |
| LocalController.Signin | src/controllers/local.controller.ts:118-158 | A disabled flag gives 423 Locked. Otherwise it fails exactly when authentication fails. The session keeps the refresh token and the reply carries the access token, both signed over the member's uuid. |
| LocalController.MailFailureIsOnlyLogged | src/controllers/local.controller.ts:59-116 | Whether the mailer delivers has no effect on the reply or the store of signup and resend. |
| LocalController.MailedLinkConfirms | src/controllers/local.controller.ts:84-116 | Following the mailed link of a fresh signup creates the member. |
| AuthLocalController.Signup | src/controllers/web/auth/local.controller.ts:57-96 | A failed mail rolls back by deleting the temporary user: "Failed to send email" with the state after deletion, or "Failed to send email and delete temporary user" with the state before it. |
| AuthLocalController.Resend | src/controllers/web/auth/local.controller.ts:39-55 | Answers "email sent" exactly when the mail is delivered; a failed mail deletes nothing. |
| AuthLocalController.Verify | src/controllers/web/auth/local.controller.ts:30-37 | Succeeds exactly when the service verifies the token. |
| AuthLocalController.Login | src/controllers/web/auth/local.controller.ts:98-123 | The refresh token goes into the session and the access token into the reply. |
| AuthLocalController.FailedSignupLeavesNoTrace | src/controllers/web/auth/local.controller.ts:78-93 | When deletion undoes creation, a failed signup leaves the state exactly as it was. The double-failure reply never happens after a successful creation. |
| MobileAuthLocalController.Login | src/controllers/mobile/auth/local.controller.ts:96-119 | Both tokens are returned in the body. |
| MobileAuthLocalController.WebLoginSplitsThePair | src/controllers/mobile/auth/local.controller.ts:96-119 | The web session and reply hold the same two tokens as the mobile body. |
| TokenController.Verify | src/controllers/web/token.controller.ts:17-32 | A header without a token gives NotFound; otherwise the answer is the verification of the bearer token. |
| TokenController.Rotate | src/controllers/web/token.controller.ts:34-68 | A missing or empty refresh token gives NotFound "refresh token not found". A failed verification passes through. Otherwise a new pair is issued for the verified claims. |
| TokenController.Refresh | src/controllers/web/token.controller.ts:34-68 | The session's refresh token is replaced by the new one and only the access token is answered; a failure leaves the session alone. |
| TokenController.RotationKeepsClaims | src/controllers/web/token.controller.ts:34-68 | Once a session holds a refresh token for some claims, it still holds one for the same claims after any number of refreshes. The next refresh answers an access token for those claims. |
| MobileTokenController.Refresh | src/controllers/mobile/token.controller.ts:35-69 | A missing or empty token gives NotFound "refresh token not found", and a failed verification is the error returned. A verified refresh token is always answered with both new tokens, issued for its claims. |
| MobileTokenController.WebKeepsWhatMobileReturns | src/controllers/mobile/token.controller.ts:35-69 | The web session ends up holding the refresh token the app receives. |
| UserController.DeleteUser | src/controllers/user.controller.ts:29-45 | A missing token or a failed verification stops the request. Otherwise the bearer's account is deleted, and on success it existed and is the only user removed. |
| UserController.DeletesTheBearer | src/controllers/user.controller.ts:29-45 | Whatever scheme word the header names, the valid token after it deletes its owner; a header with no token deletes nothing. |
| AuthSchema.NicknamePatternIsRule | src/schemas/auth.schema.ts:3-10 | The nickname regular expression accepts exactly 3 to 16 characters, alphanumeric at both ends, with alphanumerics, dashes and underscores inside and no two dashes or underscores in a row. |
| AuthSchema.NicknamePatternBoundsLength | src/schemas/auth.schema.ts:3-10 | The pattern alone already bounds the length to 3 to 16. |
| AuthSchema.NicknameIssues | src/schemas/auth.schema.ts:3-10 | No issue exactly when the rule holds. A length message is always accompanied by the pattern message. |
| AuthSchema.LoginIdLookaheadIsVacuous | src/schemas/auth.schema.ts:11-18 | The lookahead against consecutive dashes or underscores never rejects a string the character class accepts. |
| AuthSchema.LoginIdIssues | src/schemas/auth.schema.ts:11-18 | No issue exactly when the login id has 8 to 256 characters, each a letter, a digit or one of `!@#$%^&*`. |
| AuthSchema.PasswordPatternIsRule | src/schemas/auth.schema.ts:19-26 | The password regular expression accepts exactly the single-line strings with a lowercase letter, a digit and one of `!@#$%^&*`. |
| AuthSchema.PasswordIssues | src/schemas/auth.schema.ts:19-26 | No issue exactly when the password rule holds. |
| AuthSchema.LineTerminatorRejectsPassword | src/schemas/auth.schema.ts:19-26 | A password containing a line terminator is refused by the pattern. |
| AuthSchema.ParseSignup | src/schemas/auth.schema.ts:33-38 | The body is accepted exactly when the nickname is absent or valid and the other three fields are present and valid. On success it is the fields as given. A valid nickname draws no issue. |
| AuthSchema.ParseLogin | src/schemas/auth.schema.ts:28-31 | The body is accepted exactly when both fields are present and valid. |
| JsParseInt.ParseInt | src/config/validate.ts:21 | Blank input is NaN, and a negative result needs a leading minus sign after the whitespace. |
| JsParseInt.ReadsDecimal | src/config/validate.ts:21 | Leading whitespace, an optional sign, a decimal numeral and any trailing text parse to the numeral's value with the sign applied. |
| JsParseInt.UndefinedIsNaN | src/config/validate.ts:21 | The string "undefined" (an unset variable) parses to NaN. |
| JsParseInt.ReadsHexPrefix | src/config/validate.ts:21 | "0x1F" parses to 31 and a bare "0x" to NaN. |
| ConfigValidate.IsTrue | src/config/validate.ts:6-16 | "true", "1", "yes" and "on" give true, and "false", "0", "no" and "off" give false. An unset value takes the default. Any other string, including a case variant, is the error "Invalid boolean value". |
| ConfigValidate.IsTrueRejects | src/config/validate.ts:6-16 | Case variants such as "TRUE" and "True", and the empty string, are rejected. |
| ConfigValidate.Port | src/config/validate.ts:21 | The port is never 0. A NaN or 0 parse gives 3000, and any other parse is kept. |
| ConfigValidate.Read | src/config/validate.ts:18-41 | Fails exactly when a status flag is not a boolean word. A set flag is on exactly when its word is one of the true words, and an unset flag is on. NODE_ENV and CORS_ORIGIN are kept when non-empty and otherwise default to development and "*". The port is `parseInt(PORT) \|\| 3000`, the timeout is `parseInt` of its variable, and the secrets and storage settings are passed through. |
| ConfigValidate.FailureMessage | src/config/validate.ts:43-45 | The message starts with "Validation failed for " and names every failing path. |
| ConfigValidate.Validate | src/config/validate.ts:18-46 | A bad flag fails first. Otherwise the config is returned exactly when the checker reports nothing; else it is BadRequest with the failure message. |
| ConfigValidate.DefaultsApply | src/config/validate.ts:18-41 | With nothing set the config is development, port 3000, CORS "*", and both flags on. |
| ConfigSchema.NodeEnv | src/schemas/config.schema.ts:4-11 | Unset gives "development". A set value is accepted exactly when it is non-empty and its lower case is development, production or test, and the result is that lower case. |
| ConfigSchema.PositiveInt | src/schemas/config.schema.ts:12-20 | Accepts exactly positive whole numbers, and unset gives the default. |
| ConfigSchema.MinString | src/schemas/config.schema.ts:15-25 | A value is accepted exactly when it is at least the minimum length. Unset takes a default of that length or fails. |
| ConfigSchema.Parse | src/schemas/config.schema.ts:3-28 | Fails exactly when some key fails, listing the failing keys in schema order. On success every value that was given survives: NODE_ENV lower-cased, numbers unchanged, strings and flags as given. Every absent field takes its default (development, 3000, "*", localhost, cookie_secret, sid, 3600, the local redis URL, both flags on). The two JWT secrets and both mailer URLs are required. |
| ConfigSchema.NodeEnvKeeps | src/schemas/config.schema.ts:4-11 | Each of the three environment names, given as it is, stands for itself. |
| ConfigSchema.ParseToRaw | src/schemas/config.schema.ts:3-28 | A configuration that spells out every variable parses back to itself exactly when it satisfies every check. So the schema accepts exactly the valid configurations. |
| ConfigSchema.ParseIsIdempotent | src/schemas/config.schema.ts:3-28 | A parsed configuration is valid, and written back into the environment it parses to itself. |
| ConfigSchema.UpperCaseAccepted | src/schemas/config.schema.ts:4-11 | "Test" is accepted as "test". |
| ConfigSchema.OtherWordsRejected | src/schemas/config.schema.ts:4-11 | The empty string and "staging" are rejected. |
| Hex.DecodeEncode | src/services/code.service.ts:15 | Hex encoding of random bytes decodes back to the same bytes. |
| Decimal.ValueFromNat | src/services/mobile/auth/oauth/kakao_oauth.service.ts:114 | The decimal rendering of Kakao's numeric id is all digits and reads back to the id. |
| Text.JoinSplit | src/controllers/web/token.controller.ts:20 | Splitting at a separator and joining with it gives back the string. |

## Left out

- Sessions (express-session), cookies, logging, the HTTP framework, Swagger decorators and dependency injection are left out. A session is a record holding the refresh token.
- The mailer is left out. The controllers get its eventual verdict as `delivered`, and only the web and mobile controllers wait for it.
- JWT signing and verification are left out. They are the `TokenService` record of functions. A signer that gives back what it signed is a lemma hypothesis (`ConfirmRoundTrips`, `RefreshRoundTrips`), never assumed.
- Token expiry and the issue time inside a JWT are left out: signing is a function of the claims alone, so in TokenController.RotationKeepsClaims "a refresh token for the claims" is a single token, where the running service would issue a fresh one each time.
- bcrypt is left out and is the `Hasher` parameter. `randomBytes` is the entropy argument. `randomUUID` is a uuid argument required fresh.
- src/services/web/auth/local.service.ts and src/services/mobile/auth/local.service.ts are not part of this model. The web and mobile local controllers take their service as a parameter.
- The mobile local controller's signup, resend and verify are the web controller's line for line, so they are not modelled twice. The refresh of src/controllers/token.controller.ts is the same code as the web refresh.
- The zod schemas of provider answers disagree with the fields the services read, so a provider's decoded answer is taken as the fields the service reads.
- The legacy `OauthService` interface declares no `getUser` or `createUser`. The legacy services are given the semantics of src/services/oauth/oauth_account.service.ts.
- The cascade from a user to its accounts and profile on deletion is assumed. The database schema is not part of this model.
- The user's role is the `role` argument, the role column's default.
- Accounts.GetUser: returns the owner of the one account with the (provider, provider id) pair, relying on the pair's uniqueness; an ordering of several matching users is not modelled.
- A storage failure during lookup is the `fault` argument; concurrent requests and transaction isolation are left out.
- No OAuth `state` parameter is sent. The grant type comes from configuration. The token request is a POST with a query string. These are modelled as written.
- Strings are sequences of UTF-16 code units. Astral characters, percent-encoding and Unicode normalisation are not modelled.
- Decimal.ValueFromNat: `Number.toString` is modelled on unbounded naturals; ids beyond 2^53 lose precision in JavaScript, which is not modelled.
- JsParseInt.ParseInt: results beyond 2^53 are exact here, not rounded to a double. Radix prefixes other than `0x`/`0X` do not exist in `parseInt`.
- ConfigValidate.Validate: typia's `validateConfig` is the `check` parameter. Non-string environment values are left out.
- ConfigSchema.ToLower is ASCII-only; the accepted words are ASCII, so acceptance is unchanged.
- ConfigSchema.Parse: issues are reported per key, not per check; `.email()` and `.url()` formats are the `isUrl`/`isEmail` parameters.
- AuthSchema.ParseSignup: zod's email format is the `isEmail` parameter.
- src/services/web/auth/local.service.spec.ts:107-114 expects a resend inside a waiting period to be refused ("Please wait 1 minute before resending"). src/services/auth/local.service.ts, which is modelled here, has no such throttle, and the model follows its code. The web local service that the test exercises is not part of this model.
- src/services/signup.service.spec.ts expects `signup` to return the new member; the code returns the confirmation token, and the model follows the code.

## Findings

| source | as written | input that shows it | evidently intended | confidence | as-written member | corrected member |
|---|---|---|---|---|---|---|
| src/services/auth/local.service.ts:100-114 | resend stores a freshly drawn code but signs the confirmation token over the code read before the update; src/services/signup.service.ts:83-94 does the same | signup with bytes e0, then resend with bytes e1 ≠ e0: the resend token carries code hex(e0), the store holds hex(e1), and confirm answers "Code does not match" | sign the code that was just stored, so the resent link confirms | not executed | RegistrationLemmas.ResendTokenIsStale | RegistrationLemmas.ResendCorrectedTokenConfirms |
| src/services/oauth/kakao_oauth.service.ts:85-98 | the Kakao login looks up and creates the account under provider GOOGLE | an existing Google account with provider id "1234", and a Kakao user whose Kakao id is "1234": the Kakao user is signed in as the Google user | file the account under KAKAO | not executed | LegacyKakao.KakaoLoginLandsOnGoogleAccount | LegacyKakao.CorrectedKakaoLoginKeepsGoogleAccount |
