# ESG backend: authentication, onboarding and access core

This project models the identity and access core of a NestJS/Prisma backend
for an ESG (environmental, social, governance) reporting platform, and proves
properties of that model in Dafny. It covers:

- platform-administrator sign-up with an e-mailed one-time code, e-mail
  verification, invitation of further administrators by a signed link, and
  completion of an invited account (`AdminAuth`, `AdminController`);
- self sign-up of an ESG company with its administrator, and sign-up of a
  company user from a department invitation (`EsgAuth`, `Invitations`);
- password login with an access token and a refresh token, self-registration,
  and the refresh lookup (`Auth`);
- one-time codes: generation, storage as a digest with an expiry,
  verification, and the three OTP endpoints (`Otp`, `OtpController`);
- the JWT strategy, the role guard, and the ownership checks of the company
  routes. `Access` joins them into the guard chain a request goes through
  (`JwtStrategy`, `RoleGuard`, `CompanyController`, `Access`);
- the caller's own profile (`UserService`);
- the fixed-window rate-limit counter (`RateLimit`);
- the request-body validators and the company-e-mail check (`Validators`).

`Store` models the relational store. `Database` holds one map per table and
one method per Prisma call. Its `Valid()` is the integrity the unique indexes
and the auto-increment ids give. `Mailer` is the log of e-mails sent, and
`TokenIssuer` holds the signed tokens. The services are classes holding these
instances, just as the framework injects them. Every state-changing operation
states its whole new state, including what it leaves alone. The decisions are
pure functions, and lemmas relate them.

Where the code and its written description differ, the model follows the
code:

- `completeRegistration` writes status `approved`. `register` writes
  upper-case `PENDING`.
- `/otp/send` and `/otp/resend` mail one code, while `storeOtp` draws and
  stores another. The mailed code verifies only when the two draws happen to
  agree (`OtpController.MailedCodeVerifiesOnlyByChance`).
- An invitation's `expiresAt` is never checked when it is accepted
  (`EsgAuth.ExpiryIgnored`).
- A refresh token's expiry is never checked either (`Auth.RefreshIgnoresExpiry`).
- A login token carries the numeric role id, and the role guard only matches
  role names. So every route that declares roles refuses a login token
  (`Access.LoginTokenOnCompanyRoutes`).

## Model

| member | source | states |
|---|---|---|
| Common.HashRoundTrip | src/auth/auth.service.ts:30 | a digest accepts the password it was made from and refuses every other one |
| Common.Lower | src/utils/blacklist-emails.ts:12 | lower-casing keeps the length and maps each character by ASCII `toLowerCase` |
| Common.ToNumber | src/user/user.service.ts:52 | `+permission` on a digit string is a non-negative number; anything else is NaN (None) |
| Common.DecimalRoundTrip | src/otp/otp.service.ts:14 | `toString` of a natural number is all digits and parses back to the number |
| Common.FourDigitString | src/otp/otp.service.ts:14 | every integer in [1000, 9999] prints as four digits, the first not zero |
| Validators.SplitJoin | src/utils/blacklist-emails.ts:12 | `split('@')` fields hold no separator, and joining them back gives the address |
| Validators.SplitCount | src/utils/blacklist-emails.ts:12 | `split` gives two fields or more exactly when the separator occurs |
| Validators.Domain | src/utils/blacklist-emails.ts:12 | the second `@`-field: None exactly when there is no `@`, and never holding an `@` |
| Validators.IsCompanyEmail | src/utils/blacklist-emails.ts:11-15 | an accepted address has a non-empty domain after its first `@` |
| Validators.IsCompanyEmailIff | src/utils/blacklist-emails.ts:1-15 | for every address `local@domain` followed by nothing or by `@...`: accepted exactly when the domain is non-empty and its lower-case form is not one of the listed providers |
| Validators.DomainIsSecondField | src/utils/blacklist-emails.ts:12 | the domain is the text between the first and the second `@`, whatever follows |
| Validators.NoAtIsRefused | src/utils/blacklist-emails.ts:12-13 | an address without `@` has no domain and is refused |
| Validators.EmptyDomainRefused | src/utils/blacklist-emails.ts:13 | `user@` is refused |
| Validators.UpperCaseProviderRefused | src/utils/blacklist-emails.ts:12-14 | the domain is lower-cased before the blacklist lookup, so `A@GMAIL.COM` is refused |
| Validators.SecondAtIgnored | src/utils/blacklist-emails.ts:12 | only the field after the first `@` counts, so `x@y@gmail.com` is accepted |
| Validators.ProviderSubdomainAdmitted | src/utils/blacklist-emails.ts:14 | the match is exact, so a sub-domain of a provider is accepted |
| Validators.PhonePattern | src/auth/dto/register.dto.ts:16-17 | a number the pattern admits has 10 to 16 characters |
| Validators.PhoneShape | src/auth/dto/register.dto.ts:16-17 | an admitted phone number has 10 to 16 characters, digits everywhere except possibly a leading `+` |
| Validators.PhoneExamples | src/auth/dto/register.dto.ts:16 | the phone pattern on accepted and refused numbers, dashes and a lone `+` included |
| Validators.ValidRegisterDto | src/auth/dto/register.dto.ts:3-27 | an admitted registration has a password of eight characters or more, a first name of two or more, and a phone number, when given, of 10 to 16 characters |
| Validators.RegisterDtoOptionalFields | src/auth/dto/register.dto.ts:3-27 | absent optional fields pass; a present one must meet its own constraint |
| Validators.PasswordRejectsSymbols | src/esg/company/dtos/create-company.dto.ts:7-12 | a password with any character outside [A-Za-z0-9] is refused |
| Validators.PasswordPattern | src/esg/company/dtos/create-company.dto.ts:7-12 | an admitted password has eight characters or more, one of them a digit |
| Validators.PasswordExamples | src/esg/company/dtos/create-company.dto.ts:7-12 | the password pattern needs a lower-case letter, an upper-case letter, a digit, and eight characters or more |
| Validators.RegistrationNumberExamples | src/esg/company/dtos/create-company.dto.ts:26-28 | the registration number is one or more letters, digits and dashes |
| Validators.RegistrationNumberPattern | src/esg/company/dtos/create-company.dto.ts:26-28 | an admitted registration number is non-empty and holds no space |
| Validators.ValidCreateCompanyDto | src/esg/company/dtos/create-company.dto.ts:3-44 | an admitted sign-up has a password of eight characters or more, a contact phone of 10 to 16 characters and an address of five or more |
| Validators.ContactEmailUnchecked | src/esg/company/dtos/create-company.dto.ts:38-43 | the contact e-mail's format is not checked, while the contact phone must match the pattern |
| RoleGuard.CanActivate | src/common/guards/role.guards.ts:14-48 | a route without roles admits everyone; the guard either admits or throws Forbidden |
| RoleGuard.UserRoles | src/common/guards/role.guards.ts:31-39 | a string role is one name, an array is taken whole, an object gives its `name` exactly when that is truthy, anything else gives none |
| RoleGuard.CanActivateIff | src/common/guards/role.guards.ts:27-45 | on a route with roles, admitted exactly when the user's role (string, array or object name) grants one of them |
| RoleGuard.NumericRoleRefused | src/common/guards/role.guards.ts:27-44 | a numeric role is refused: as missing when it is 0, as invalid otherwise |
| JwtStrategy.AuthUser.AsJs | src/auth/strategies/jwt.strategy.ts:30-35 | the object the guards read carries the four validated fields |
| JwtStrategy.PayloadOf | src/auth/auth.service.ts:41-46 | the payload holds exactly `sub`, `email`, `role` and `companyId`: the user id and company id as numbers, the e-mail as a string, the role as given |
| JwtStrategy.Validate | src/auth/strategies/jwt.strategy.ts:21-36 | a payload is accepted or refused with `Invalid token payload` |
| JwtStrategy.ValidateRoundTrip | src/auth/strategies/jwt.strategy.ts:21-36 | validating the payload written for a user gives that user back |
| JwtStrategy.ValidateAccepts | src/auth/strategies/jwt.strategy.ts:22-35 | an accepted payload has a numeric `sub` and `companyId` and a string `email`; `role` passes through |
| JwtStrategy.ValidateRefusals | src/auth/strategies/jwt.strategy.ts:22-28 | a payload without `sub`, or with a string `companyId`, is refused |
| CompanyController.GetMyCompanyHandler | src/esg/company/company.controller.ts:40-44 | the caller's own company is looked up by the id in the token |
| CompanyController.RolesFor | src/esg/company/company.controller.ts:31-83 | `me` and `:id` declare no roles; the others declare a non-empty list, which holds `super_admin` for `all` and `:id/status` and not for `:id` update |
| CompanyController.FindAllHandler | src/esg/company/company.controller.ts:36-38 | the list of all companies, whoever the guard admitted |
| CompanyController.UpdateStatusHandler | src/esg/company/company.controller.ts:69-74 | the status update with the id exactly as it arrived, unparsed, and the status |
| CompanyController.FindOneHandler | src/esg/company/company.controller.ts:53-61 | admitted exactly for a `super_admin` string role or a matching company id; otherwise `Access denied` |
| CompanyController.UpdateHandler | src/esg/company/company.controller.ts:84-101 | only the caller's own company; the patch keeps the body and overwrites `updated_by` with the caller's id |
| CompanyController.CrossCompanyAccess | src/esg/company/company.controller.ts:53-101 | a caller from another company is refused on update, and on `findOne` unless their role is `super_admin` |
| Access.Authorize | src/common/guards/role.guards.ts:14-48 | the JWT guard then the role guard: admitted exactly when the payload validates and the role guard admits; the handler sees the validated user |
| Access.LoginTokenOnCompanyRoutes | src/auth/auth.service.ts:41-46 | a login token is forbidden on every company route with roles and admitted on the others |
| Access.LoginTokenReadsOwnCompanyOnly | src/esg/company/company.controller.ts:53-61 | behind a login token, `findOne` succeeds exactly for the caller's own company |
| Access.NamedRoleOpensGuardedRoutes | src/esg/company/company.controller.ts:31-101 | a token whose role is the role name does pass the guarded routes |
| Store.Database.UserByEmail | src/admin/auth/auth.service.ts:30 | the unique e-mail lookup finds the one row holding the address, or proves none does |
| Store.Database.FirstCompany | src/auth/auth.service.ts:83-85 | `findFirst` without `orderBy` answers some stored company, unchanged, and None exactly when there is none; which one is left to the database |
| Store.Database.CreateUser | src/admin/auth/auth.service.ts:36-47 | inserts the row under the next id, or fails on the unique e-mail index and writes nothing |
| Store.Database.UpdateUser | src/user/user.service.ts:60-63 | replaces an existing row and moves its e-mail index entry; fails on a missing row or a taken e-mail |
| Store.Database.CreateCompany | src/esg/auth/esg-auth.service.ts:66-82 | inserts the company under the next id, or fails on the unique name |
| Store.Database.UpdateCompany | src/esg/auth/esg-auth.service.ts:97-100 | replaces an existing company row |
| Store.Database.ExpirePendingInvitations | src/esg/sub-users/invitations.service.ts:15-18 | every pending invitation to the address becomes expired; the other rows are unchanged |
| Store.Database.CreateInvitation | src/esg/sub-users/invitations.service.ts:31-42 | inserts the invitation under its token with the next id |
| Store.Database.SetInvitationStatus | src/esg/auth/esg-auth.service.ts:147-150 | sets the status of the invitation under the token |
| Store.Database.CreateRefreshToken | src/auth/auth.service.ts:48-54 | stores the refresh token under its token string |
| Store.ExpiredIfPendingFor | src/esg/sub-users/invitations.service.ts:15-18 | one row of the `updateMany`: expired when pending for the address, otherwise unchanged |
| Otp.VerifyDecision | src/otp/otp.service.ts:31-51 | a refusal is one of the three reasons |
| Otp.WithOtp | src/otp/otp.service.ts:22-28 | the row with the code's digest and the expiry, all else unchanged |
| Otp.VerifyReasons | src/otp/otp.service.ts:36-50 | for every row, code and clock: a missing row, digest or expiry answers "OTP not found"; a passed expiry answers "OTP has expired" whatever the code; a live row whose digest does not match answers "Invalid OTP" |
| Otp.VerifyIff | src/otp/otp.service.ts:36-50 | a code verifies exactly when the row holds its digest and an expiry not yet passed |
| Otp.StoredCodeLifetime | src/otp/otp.service.ts:41-50 | a stored code verifies up to its expiry instant and is refused as expired after it, even though it matches |
| Otp.OtherCodeRefused | src/otp/otp.service.ts:45-48 | a different four-digit code is refused as invalid while the stored one is live |
| Otp.OtpCodeShape | src/otp/otp.service.ts:13-15 | every possible code has four digits, the first not zero |
| Otp.OtpService.GenerateOtp | src/otp/otp.service.ts:13-15 | the code is an integer in [1000, 9999] in decimal |
| Otp.OtpService.StoreOtp | src/otp/otp.service.ts:17-29 | a fresh code's digest and the expiry are written on an existing row; otherwise the store's error and nothing written |
| Otp.OtpService.VerifyOtp | src/otp/otp.service.ts:31-51 | the answer is the verify decision on the row as loaded; nothing is written |
| Otp.OtpService.SendOtp | src/otp/otp.service.ts:53-55 | one e-mail with the code, template 2 |
| Otp.OtpService.ResendOtp | src/otp/otp.service.ts:58-62 | a fresh code is mailed and echoed in the reply, and stored nowhere |
| OtpController.OtpController.SendOtp | src/otp/otp.controller.ts:22-39 | an unknown caller gets NotFound; otherwise one code is mailed and a different draw is stored |
| OtpController.OtpController.VerifyOtp | src/otp/otp.controller.ts:42-57 | a blank code is refused up front; otherwise BadRequest with the verify reason, or success |
| OtpController.OtpController.ResendOtp | src/otp/otp.controller.ts:59-74 | the first draw is mailed, the second discarded, a third stored; the mail goes out only after a successful store |
| OtpController.MailedCodeVerifiesOnlyByChance | src/otp/otp.controller.ts:33-36 | the mailed code verifies exactly when it equals the independently stored draw |
| AdminAuth.AdminRow | src/admin/auth/auth.service.ts:36-47 | the new administrator is pending, has role 2 and company 0, and carries the hashed password |
| AdminAuth.InvitedRow | src/admin/auth/auth.service.ts:99-111 | the invited shell account is pending, has company 1, and has no password |
| AdminAuth.InviteRefusal | src/admin/auth/auth.service.ts:80-98 | the invitation proceeds exactly when the e-mail is free, the inviter's role is the number 1 or 2, and role 1 is not requested |
| AdminAuth.InviteTokenCheck | src/admin/auth/auth.service.ts:137-169 | an accepted token names an existing pending row; refusals are Unauthorized, NotFound or BadRequest |
| AdminAuth.CompletionTarget | src/admin/auth/auth.service.ts:171-191 | the row to complete is an existing pending row; a non-numeric `userId` is a store error |
| AdminAuth.Completed | src/admin/auth/auth.service.ts:193-204 | the completed row is approved with the new password; given names and phone replace the old ones |
| AdminAuth.InviteTokenLeadsToInvitee | src/admin/auth/auth.service.ts:113-169 | the token an invitation signs leads back to the invited pending row |
| AdminAuth.InviteTokenSingleUse | src/admin/auth/auth.service.ts:137-207 | once the account is completed, both token checks refuse the same token |
| AdminAuth.LoginTokenIsNoInvite | src/admin/auth/auth.service.ts:140-183 | a login token (without `userId`) is refused by both invite-token checks |
| AdminAuth.Listing | src/admin/auth/auth.service.ts:237-251 | the listing carries the row's id, e-mail, status and creation time |
| AdminAuth.InsertNewestFirst | src/admin/auth/auth.service.ts:252-254 | inserting a row keeps the list newest first with distinct ids and adds exactly that row |
| AdminAuth.UserListsAgree | src/admin/auth/auth.service.ts:219-256 | two answers to the same query hold the same rows |
| AdminAuth.ScanTake | src/admin/auth/auth.service.ts:219-256 | a matching id joins the listing in its place |
| AdminAuth.AdminAuthService.RegisterAdmin | src/admin/auth/auth.service.ts:27-59 | a known e-mail conflicts; otherwise the pending administrator is created, one code is mailed and another stored, and an OTP failure is swallowed |
| AdminAuth.AdminAuthService.WelcomeOtp | src/admin/auth/auth.service.ts:50-56 | the code is mailed only after `storeOtp` succeeded, and a failure leaves store and mail untouched |
| AdminAuth.AdminAuthService.VerifyEmail | src/admin/auth/auth.service.ts:61-78 | an unknown e-mail is NotFound; a refused code is BadRequest with the reason; a verified one approves the row |
| AdminAuth.AdminAuthService.InviteAdminUser | src/admin/auth/auth.service.ts:80-135 | after the refusals, the shell account is created, a 24-hour token is signed for it, and the link is mailed with template 8 |
| AdminAuth.AdminAuthService.VerifyInviteToken | src/admin/auth/auth.service.ts:137-169 | the answer is the invite-token check on the verified claims; nothing is written |
| AdminAuth.AdminAuthService.CompleteRegistration | src/admin/auth/auth.service.ts:171-217 | refusals write nothing; otherwise the row is completed and approved, and a welcome is mailed with template 9 |
| AdminAuth.AdminAuthService.GetAllUsers | src/admin/auth/auth.service.ts:219-256 | roles other than 1, 2, 3 or absent are refused; otherwise exactly the matching users, each once, newest first |
| AdminController.SpaceRun | src/admin/auth/auth.controller.ts:53 | the greedy white-space run after the scheme |
| AdminController.FirstMatch | src/admin/auth/auth.controller.ts:53 | the leftmost position where `Bearer\s+` matches, case-insensitively |
| AdminController.StripBearer | src/admin/auth/auth.controller.ts:53 | without a match the header is kept; with one, the match is removed |
| AdminController.FirstMatchIs | src/admin/auth/auth.controller.ts:53 | a match with none before it is the first match |
| AdminController.StripsFirstMatchOnly | src/admin/auth/auth.controller.ts:53 | the pattern is not anchored: text before the first `Bearer` plus white space is kept, that match alone is removed, and everything after it is kept, later `Bearer ` included |
| AdminController.StripsFirstMatchExample | src/admin/auth/auth.controller.ts:53 | `Token Bearer x Bearer y` becomes `Token x Bearer y` |
| AdminController.StripsScheme | src/admin/auth/auth.controller.ts:53 | `Bearer <spaces> <token>`, in any letter case, yields the token |
| AdminController.NoSpaceKeptWhole | src/admin/auth/auth.controller.ts:53 | a header without white space is passed on whole |
| AdminController.SchemeOnlyIsEmpty | src/admin/auth/auth.controller.ts:53-58 | `Bearer` followed only by white space leaves nothing |
| AdminController.HeaderToken | src/admin/auth/auth.controller.ts:53-58 | the token is the non-empty remainder of the header, or None |
| AdminController.AdminAuthController.CompleteRegistration | src/admin/auth/auth.controller.ts:48-64 | without a token nothing is read or written; otherwise the service's completion on the stripped token |
| AdminController.AdminAuthController.InviteAdmin | src/admin/auth/auth.controller.ts:75-81 | the inviter's role is the token's `role` |
| AdminController.AdminAuthController.GetAllUsers | src/admin/auth/auth.controller.ts:83-90 | the token's role decides whether the list is given |
| AdminController.StringRoleLocked | src/admin/auth/auth.controller.ts:75-90 | a token whose role is a role name can neither invite nor list |
| Invitations.NewInvitation | src/esg/sub-users/invitations.service.ts:28-42 | the new invitation is pending, in the inviter's company, and expires three days from now |
| Invitations.ExpiryClearsPending | src/esg/sub-users/invitations.service.ts:15-18 | after the expiry step nothing is pending for the address; other rows are untouched |
| Invitations.OnePendingAfterCreate | src/esg/sub-users/invitations.service.ts:14-48 | after `create`, the new invitation is the only pending one for its address |
| Invitations.InvitationsService.Create | src/esg/sub-users/invitations.service.ts:14-48 | the expiry step always happens; a missing inviter fails after it; otherwise the invitation is stored and the link mailed with template 8 |
| Invitations.InvitationsService.GetByToken | src/esg/sub-users/invitations.service.ts:50-56 | the invitation under the token in any state, or BadRequest |
| EsgAuth.SignupRefusal | src/esg/auth/esg-auth.service.ts:22-64 | sign-up proceeds exactly when all four checks pass; the refusals come in source order |
| EsgAuth.CompanyRow | src/esg/auth/esg-auth.service.ts:66-82 | the company is pending, with defaults `010`, `NG` and `Nigeria` for blank fields, created and updated by 0 |
| EsgAuth.AdminAccountRow | src/esg/auth/esg-auth.service.ts:84-95 | the administrator is pending, in the new company, with the admin role and the hashed password |
| EsgAuth.AcceptableInvitation | src/esg/auth/esg-auth.service.ts:123-130 | accepted exactly when present and pending; otherwise `Invalid or expired invitation.` |
| EsgAuth.InvitedAccountRow | src/esg/auth/esg-auth.service.ts:134-145 | the account is active, with the invitation's address, company, department and role |
| EsgAuth.ExpiryIgnored | src/esg/auth/esg-auth.service.ts:128-130 | acceptance does not depend on the invitation's expiry |
| EsgAuth.SingleUse | src/esg/auth/esg-auth.service.ts:128-150 | an accepted invitation is refused thereafter |
| EsgAuth.ReissueRevokesOlder | src/esg/sub-users/invitations.service.ts:15-18 | after a re-invitation's expiry step, no older invitation to the address is acceptable |
| EsgAuth.EsgAuthService.Signup | src/esg/auth/esg-auth.service.ts:21-119 | refusals conflict and write nothing; otherwise company, administrator, back-filled creator and a welcome mail, with the reply carrying the company as first created |
| EsgAuth.EsgAuthService.CreateCompanyWithAdmin | src/esg/auth/esg-auth.service.ts:66-100 | the three writes of sign-up and the rows they create |
| EsgAuth.EsgAuthService.CompleteSignupFromInvitation | src/esg/auth/esg-auth.service.ts:122-153 | an unacceptable invitation is refused; a taken address fails with the invitation still pending; otherwise the account is created and the invitation accepted |
| Auth.WithoutPassword | src/auth/auth.service.ts:33-34 | the row with only its password removed |
| Auth.Credentials | src/auth/auth.service.ts:19-35 | succeeds exactly for an existing row whose digest matches; otherwise `User not found` or `Invalid password` |
| Auth.OnlyOwnPasswordLogsIn | src/auth/auth.service.ts:28-31 | a row lets in its own password and no other |
| Auth.AccessClaims | src/auth/auth.service.ts:41-46 | the access-token payload validates to the user with the numeric role id |
| Auth.RefreshLookup | src/auth/auth.service.ts:111-123 | a known refresh token yields its user's row (None when gone); an unknown one is Unauthorized |
| Auth.RefreshIgnoresExpiry | src/auth/auth.service.ts:111-123 | the refresh token's expiry does not matter |
| Auth.LoginRefreshYieldsRow | src/auth/auth.service.ts:48-54 | the refresh token from login gives back the user's row |
| Auth.RegisteredRow | src/auth/auth.service.ts:87-98 | the registered row is `PENDING`, in the fallback company, with the role and the hashed password |
| Auth.AuthService.ValidateUser | src/auth/auth.service.ts:19-35 | refusals as in the credential check; otherwise the row without password with its role and company |
| Auth.AuthService.Login | src/auth/auth.service.ts:37-65 | refusals write nothing; otherwise an access token valid 24 hours and a refresh token valid seven days |
| Auth.AuthService.Register | src/auth/auth.service.ts:67-109 | refuses a taken e-mail, an unknown role, no company, in that order; otherwise the account joins some existing company (no order is asked for) and a code that is stored nowhere is mailed |
| Auth.AuthService.Refresh | src/auth/auth.service.ts:111-123 | the refresh lookup on the current tables; nothing is rotated or revoked |
| UserService.Patched | src/user/user.service.ts:31-47 | the request's present fields replace the profile columns, and the resolved role the role |
| UserService.PatchIdempotent | src/user/user.service.ts:28-64 | the same update twice leaves the row as after once |
| UserService.PatchKeepsAccountColumns | src/user/user.service.ts:29-37 | the profile update never touches the id, password, status, company, department or OTP columns |
| UserService.SelfServiceRoleChange | src/user/user.controller.ts:27 | with only the JWT guard on the route, any caller naming an existing role by a non-empty name, and no permission, resolves to that role's id, and the patched row carries it whatever role it held |
| UserService.ResolveGrants | src/user/user.service.ts:40-58 | succeeds exactly when a non-blank role exists and a non-blank permission parses and exists; an unknown role is `Role not found` |
| UserService.UserService.FindMe | src/user/user.service.ts:12-26 | the caller's profile columns with role and company, or None |
| UserService.UserService.UpdateMe | src/user/user.service.ts:28-64 | grant errors first, then a missing row, then a taken e-mail; otherwise the patched row |
| RateLimit.Upsert | src/common/rate_limiting/rate_limit.repository.ts:12-25 | a new or lapsed row restarts at one hit with a fresh window; a live row counts up in place |
| RateLimit.ReadBack | src/common/rate_limiting/rate_limit.repository.ts:27-35 | `hits` or 1, and the stored expiry, or `now + ttl` without a row |
| RateLimit.CountsWithinWindow | src/common/rate_limiting/rate_limit.repository.ts:16-23 | calls inside an open window count up without moving its end |
| RateLimit.FreshKeyCounts | src/common/rate_limiting/rate_limit.repository.ts:12-25 | from a fresh key, n calls within `ttl` count 1 to n in one window |
| RateLimit.WindowRestarts | src/common/rate_limiting/rate_limit.repository.ts:17-21 | a call after the window restarts the count at one |
| RateLimit.UpsertCountsAtLeastOne | src/common/rate_limiting/rate_limit.repository.ts:12-35 | the upsert always writes at least one hit, so the read-back answers the written row |
| RateLimit.RateLimitRepository.Increment | src/common/rate_limiting/rate_limit.repository.ts:8-36 | the key's row becomes the upserted one, the answer is that row with at least one hit, and nothing else changes |
| Store.Database.PutRateRow | src/common/rate_limiting/rate_limit.repository.ts:12-25 | the key's rate-limit row becomes the written one; no other table and no other key changes |

## Left out

- E-mail delivery is a log of `sendEmail` calls. The mailer catches its own failures, so none reach the services.
- Password hashing ignores the bcrypt salt and cost: a digest remembers its plaintext, and only the comparison looks inside.
- JWT signing and verification are a table of signed claims with an expiry. The secret, the signature and the library's own error messages are not modelled; `AdminAuth.JwtRejected` stands for those messages.
- Clocks, `Math.random` and `randomUUID` are parameters or nondeterministic choices. `Otp.OtpService.StoreOtp`'s expiry is the instant that `Date.now() + expiresIn` denotes, or None when the resulting `Date` is invalid. Callers pass the code string as `expiresIn`, so the default of 30 minutes is never used and JavaScript's coercion is not modelled.
- RateLimit.RateLimitRepository.Increment: the database clock `NOW()` is the parameter `now`. The upsert runs as one step; concurrent callers are not modelled.
- Prisma's foreign-key and enum checks are left out. Rows name roles, companies and departments by id without checking that they exist; for example, `registerAdmin` writes company 0. The store's validation messages are placeholders (`InvalidIdArgument`, `InvalidPermissionArgument`, `InvalidExpiry`).
- Common.ToNumber: only strings of decimal digits are numbers. Signs, white space, fractions and hexadecimal are treated as NaN.
- JavaScript numbers are integers: NaN, fractions and -0 are not modelled.
- Common.Lower: ASCII case folding only. `\s` in the bearer pattern is ASCII white space only, and `MinLength` counts UTF-16 code units as characters.
- `@IsEmail` is a parameter `isEmail`. Request validation is stated as predicates over the request types, and the controllers receive already-validated requests.
- The company service behind `CompanyController` is not part of this model: handlers return the service call they make. `updateStatus` calls a service method that the service does not define, so that call is only described.
- UserService.Patched: a JSON `null` in the request is treated as absent. The source copies it into the update, which clears a nullable column or is refused by the store for a non-nullable one.
- AdminAuth.UserListing omits `updated_at`, which `getAllUsers` also selects.
- `findMe`'s `include` of role and company gives the rows by id; `login` returns role and company names instead of rows.
- Department, permission and role administration, the ESG data modules, and the framework's module wiring are outside this core.
