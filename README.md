# Event ticketing backend: notification, one-time-code and request-guard core

This project models the core of the event ticketing backend in Dafny. That core covers:

- the Redis email job queue (three priority lists, processing markers, result records, retry with exponential back-off);
- the OTP store;
- the authentication flows that consume one-time codes and rotate refresh tokens;
- mail framing and the template-data defaults of the email service;
- the field extractors of the asynq email worker;
- the request validators and the error-message formatter;
- the wildcard permission checks;
- the Gin middleware for bearer authentication, role guards, organization ownership, CORS and per-IP rate limiting;
- idempotent role seeding;
- the application error table.

The imperative parts keep that form in the model:

- the queue, the OTP store, the auth service, the role tables, the limiter table and the Gin request context are classes;
- each class method is proved equal to a pure function of the old state;
- the properties the code promises are lemmas about those functions.

Outside effects are parameters of the operations:

- Redis failures, database write errors, and SMTP and template-rendering errors;
- the token-bucket verdict and JWT validation;
- uuid generation, the random roll of the OTP generator, and the clock, given as integer seconds.

Modules, one per source file:
- `EmailJobs`: the job record and its encoding.
- `EmailQueue`: the queue service.
- `Otp`: the OTP service.
- `Auth`: the auth service and `GenerateAndSendOTP`.
- `EmailService`: the mail service.
- `EmailWorker`: the worker extractors.
- `Validators`: validator.go.
- `Permissions`: the permission helpers.
- `Gin`: the request context the middleware works on.
- `AuthGuard`, `OrgGuard`, `Cors`, `RateLimiting`: the four middleware files.
- `Seeding`: seed.go.
- `AppErrors`: errors.go.

The refresh-token rotation revokes the presented row and then creates the new one in two separate writes. When the create fails, the user is left with the old token revoked and no new one (`Auth.RefreshWriteFailures`).

`Text` and `Wrappers` hold the string helpers and the Option/Result types.

## Model

| member | source | states |
|---|---|---|
| EmailJobs.TypeNameInjective | internal/models/email_job.go:8-18 | the nine job kinds have nine distinct wire names |
| EmailJobs.DecodeEncode | internal/models/email_job.go:21-35 | decoding an encoded job gives back the same job, field for field |
| EmailQueue.ResultKeyInjective | internal/services/email_queue_service.go:194-210 | distinct job IDs give distinct result keys, so one job's result never overwrites another's |
| EmailQueue.EnqueueRouting | internal/services/email_queue_service.go:65-80 | a successful enqueue puts the stamped job at the head of high (priority ≤ 0), normal (1..5) or low (> 5); the other lists, the markers and the results are unchanged |
| EmailQueue.EnqueueFailureKeepsState | internal/services/email_queue_service.go:77-80 | a failed push changes nothing and returns an error beginning with "failed to add job to queue" |
| EmailQueue.StampIdentity | internal/services/email_queue_service.go:51-57 | a non-empty ID is kept and an empty one replaced by the fresh ID; CreatedAt always becomes now; no other field changes |
| EmailQueue.EnqueueJoinsLine | internal/services/email_queue_service.go:77 | within a list, the newly enqueued job leaves after every job already waiting there (first in, first out) |
| EmailQueue.PushJoinsLine | internal/services/email_queue_service.go:77 | pushing at the head puts an element last in pop order |
| EmailQueue.EnqueueKeepsRouted | internal/services/email_queue_service.go:65-77 | enqueueing keeps every queued job on the list its priority selects |
| EmailQueue.NextTier | internal/services/email_queue_service.go:162-166 | the list polled is the first non-empty one in the order high, normal, low; it is None exactly when all three are empty |
| EmailQueue.ProcessEmailJob | internal/services/email_queue_service.go:236-273 | the result carries the job's ID; it succeeds iff a template is named and the send succeeds, and only then has SentAt and an empty error; no template gives "template file not specified"; a render failure gives "template error: " + the reason and a transport failure the bare reason; with a template, CurrentYear is set to the year when missing and an existing one is kept, with every other template entry unchanged |
| EmailQueue.RetryBackoff | internal/services/email_queue_service.go:219-226 | a retried job has one more retry, ProcessAfter = now + 2^(new count) seconds, and is not yet due at now |
| EmailQueue.AttemptsWhenAlwaysFailing | internal/services/email_queue_service.go:219-230 | a job that always fails is attempted MaxRetries − RetryCount + 1 times (once if it has no retries left) |
| EmailQueue.AttemptsFromZero | internal/services/email_queue_service.go:219-230 | a job starting at RetryCount 0 that always fails is attempted MaxRetries + 1 times |
| EmailQueue.PollIdle | internal/services/email_queue_service.go:162-166 | with all three lists empty a poll returns no error and changes nothing |
| EmailQueue.PollServesHighFirst | internal/services/email_queue_service.go:162 | while high holds a job, a poll leaves the normal and low lists untouched, whatever the faults and outcome |
| EmailQueue.DeliverKeepsOtherLists | internal/services/email_queue_service.go:192-230 | processing a job changes no list other than the one its priority selects |
| EmailQueue.DeferredPollIsNoOp | internal/services/email_queue_service.go:181-190 | a job not yet due is pushed back at the pop end, so the poll leaves the store exactly as it was and the next poll takes the same job |
| EmailQueue.MalformedJobIsLost | internal/services/email_queue_service.go:175-179 | an element that does not decode is removed, nothing is pushed back, and an error beginning with "failed to deserialize email job" is returned |
| EmailQueue.PollProcessesDueJob | internal/services/email_queue_service.go:192-230 | a due job gets its marker. If the result write fails, the poll returns early, leaving the marker, storing no result and retrying nothing. Otherwise the result is stored at its key for 24 hours; the marker is deleted, or kept when its delete fails. A failure with retries left is re-enqueued at the head of its own list, or, when that push fails, the poll returns an error beginning with "failed to add job to queue", with the list as after the pop |
| EmailQueue.DeliverDueJob | internal/services/email_queue_service.go:192-230 | the same outcome, covering every combination of the result, marker-delete and push failures, stated for the store after the pop |
| EmailQueue.RequeuedJobHasOneAttemptLess | internal/services/email_queue_service.go:218-229 | the job a failed delivery re-enqueues has one attempt fewer left than the job delivered |
| EmailQueue.ResultLookupStable | internal/services/email_queue_service.go:205-213 | after a fault-free poll of a due job, every lookup of its result within 24 hours returns the processing result |
| EmailQueue.PollKeepsRouted | internal/services/email_queue_service.go:156-233 | every poll keeps every queued job on the list its priority selects |
| EmailQueue.DeliverKeepsRouted | internal/services/email_queue_service.go:192-230 | processing a job keeps the routing invariant |
| EmailQueue.BuilderRouting | internal/services/email_queue_service.go:86-359 | OTP jobs go to high; welcome, ticket, notification and invitation jobs go to normal |
| EmailQueue.EmailQueueService.constructor | internal/services/email_queue_service.go:40-45 | a new queue service has three empty lists and no markers or results |
| EmailQueue.EmailQueueService.QueueEmail | internal/services/email_queue_service.go:48-83 | the new store and the error are those of the enqueue function; the job returned is the stamped one |
| EmailQueue.EmailQueueService.ProcessEmailQueue | internal/services/email_queue_service.go:156-233 | the new store and the error are those of one poll |
| EmailQueue.EmailQueueService.DeliverJob | internal/services/email_queue_service.go:192-230 | the new store and the error are those of processing the given job |
| EmailQueue.EmailQueueService.QueueOTPEmail | internal/services/email_queue_service.go:86-128 | enqueues the OTP job, whose subject, title and message depend on the OTP type, at priority 0 |
| EmailQueue.EmailQueueService.QueueWelcomeEmail | internal/services/email_queue_service.go:131-152 | enqueues the welcome job at priority 3 |
| EmailQueue.EmailQueueService.QueueTicketConfirmationEmail | internal/services/email_queue_service.go:276-301 | enqueues the ticket confirmation job at priority 1 |
| EmailQueue.EmailQueueService.QueueEventNotificationEmail | internal/services/email_queue_service.go:304-331 | enqueues the event notification job at priority 2 |
| EmailQueue.EmailQueueService.QueueOrganizationInvitationEmail | internal/services/email_queue_service.go:334-359 | enqueues the invitation job at priority 2 |
| Otp.KeyInjective | internal/services/otp_service.go:49-88 | for OTP types without ':', distinct (type, identifier) pairs have distinct store keys |
| Otp.KeyAmbiguousWithColon | internal/services/otp_service.go:49 | type "a:b" with identifier "c" and type "a" with identifier "b:c" share one key |
| Otp.Pow10 | internal/services/otp_service.go:100-106 | the loop returns 10^n for n ≥ 0 and 1 for negative n |
| Otp.OtpCodeShape | internal/services/otp_service.go:32-44 | a generated code has exactly `digits` decimal digits and no leading zero |
| Otp.OtpCodeCoversRange | internal/services/otp_service.go:37-41 | every number in [10^(d−1), 10^d − 1] is generated by some roll |
| Otp.GenerateOTP | internal/services/otp_service.go:32-44 | the method computes the generated code for the given roll |
| Otp.SaveThenVerify | internal/services/otp_service.go:47-80 | a saved code verifies at any time during the 10 minutes after saving |
| Otp.SavedCodeExpires | internal/services/otp_service.go:16-71 | from 10 minutes after saving, every guess gives false with no error |
| Otp.VerifyIsSingleUse | internal/services/otp_service.go:76-80 | once a code has verified and its delete succeeded, verifying it again fails |
| Otp.FailedDeleteLeavesCodeUsable | internal/services/otp_service.go:76-80 | when the delete after a match fails, its error is ignored: the store keeps the used code, and it verifies again until it expires |
| Otp.VerifyMeansMatch | internal/services/otp_service.go:61-83 | verification succeeds iff the read works and the live code equals the guess; a failed verification leaves the store unchanged |
| Otp.ResaveReplaces | internal/services/otp_service.go:47-58 | saving a second code under the same key makes the first one stop verifying |
| Otp.PurposesAreSeparate | internal/services/otp_service.go:49-63 | saving a code for one purpose does not make it verify for another |
| Otp.InvalidateThenVerify | internal/services/otp_service.go:86-97 | after invalidation the code no longer verifies |
| Otp.OtpService.constructor | internal/services/otp_service.go:25-29 | the store starts empty |
| Otp.OtpService.SaveOTP | internal/services/otp_service.go:47-58 | a failed write leaves the store unchanged and returns the save error; a successful one installs the code with a 10-minute expiry |
| Otp.OtpService.VerifyOTP | internal/services/otp_service.go:61-83 | the result, the error and the new store are those of the verify function |
| Otp.OtpService.InvalidateOTP | internal/services/otp_service.go:86-97 | a failed delete changes nothing and returns the error; otherwise only the one key is removed |
| Auth.HashTokenInjective | internal/services/auth_service.go:158-189 | distinct refresh tokens have distinct stored hashes |
| Auth.FindByEmail | internal/services/auth_service.go:254 | the lookup finds the first user with that email, or None when no user has it |
| Auth.FindById | internal/services/auth_service.go:173 | the lookup finds the first user with that ID, or None when no user has it |
| Auth.FindToken | internal/services/auth_service.go:160-164 | the lookup finds the first row with that hash and type, not revoked and expiring after now |
| Auth.RegisterRejectsTakenEmail | internal/services/auth_service.go:44-45 | registering an email that is already taken, case-insensitively, changes nothing and fails with "User with this email already exists" |
| Auth.RegisterAddsUser | internal/services/auth_service.go:50-109 | registration appends an unverified user with the lower-cased email. A failed code save or send is ignored: registration still succeeds |
| Auth.RegisterThenVerify | internal/services/auth_service.go:94-266 | the code sent at registration, entered within 10 minutes, marks the new user's email as verified |
| Auth.VerifyOtpOutcomes | internal/services/auth_service.go:229-266 | a store error is wrapped as "error verifying OTP"; a wrong or expired code gives "Invalid or expired OTP" and changes nothing; only a registration code can set a verified flag, and a failed save of the user sets none |
| Auth.PasswordResetUnknownEmail | internal/services/auth_service.go:272-276 | an unknown email returns no error and changes nothing |
| Auth.ResetNeedsValidCode | internal/services/auth_service.go:347-362 | without a legacy reset row and without a live matching code, the reset fails and leaves users and tokens unchanged, whatever the hash and write outcomes |
| Auth.ResetNeedsEmailAndCode | internal/services/auth_service.go:349-351 | a missing email or code fails with "Email and OTP code are required for password reset" and changes nothing |
| Auth.ResetFailuresKeepPasswords | internal/services/auth_service.go:319-378 | a HashPassword error, or a failed save (legacy path: the rolled-back transaction), is an error and changes no password and no token row |
| Auth.VerifiedResetCodeIsSpent | internal/services/auth_service.go:245-362 | a password-reset code already accepted by VerifyOTP, when VerifyOTP's delete succeeded and no legacy reset row carries the code, makes a later ResetPassword fail, leaving the password unchanged |
| Auth.PasswordResetRoundTrip | internal/services/auth_service.go:269-380 | the code mailed for a known user, entered within 10 minutes, changes exactly that user's password hash and is then spent |
| Auth.LogoutRevokesOnlyOwnTokens | internal/services/auth_service.go:384-397 | with all=false nothing changes and no error. With all=true a failed UPDATE returns its error and changes nothing; otherwise every refresh row of the user stops being live, other users' rows are unchanged, and only revoked flags change |
| Auth.RefreshNeedsLiveRow | internal/services/auth_service.go:152-198 | a successful refresh needs valid claims, newly issued tokens, a live stored row for the presented token, and both writes succeeding |
| Auth.RefreshRotates | internal/services/auth_service.go:183-198 | after a refresh the new token is live until now + TTL, and presenting the old token again fails |
| Auth.RefreshWriteFailures | internal/services/auth_service.go:183-198 | a failed revoke is returned and changes nothing; a failed create is returned after the revoke has happened, so the presented token is revoked, no new row is stored, and refreshing with it again fails |
| Auth.GenerateAndSendRefusals | internal/services/otp_auth_service.go:15-25 | an empty identifier gives "Identifier is required" and a failed save gives an error, both without changing anything |
| Auth.GenerateAndSendSavesFirst | internal/services/otp_auth_service.go:20-45 | the 6-digit code is saved before dispatch. phone_verification and unknown types then fail, keeping the saved code |
| Auth.GenerateAndSendSuccess | internal/services/otp_auth_service.go:47-52 | a successful send answers Success true, "OTP sent to <identifier>" and ExpiresIn 600 |
| Auth.TwoFactorCodeGoesToHighList | internal/services/otp_auth_service.go:37-58 | a 2fa code is queued as an OTP job at the head of the high list |
| Auth.AuthService.constructor | internal/services/auth_service.go:28-38 | the service starts with the given OTP store, queue and refresh TTL, and empty tables |
| Auth.AuthService.Register | internal/services/auth_service.go:41-110 | the new state and the result are those of the register function |
| Auth.AuthService.VerifyOTP | internal/services/auth_service.go:229-249 | the new state and the error are those of the verify function |
| Auth.AuthService.HandleRegistrationOtpVerification | internal/services/auth_service.go:252-266 | an unknown email gives the not-found error; a failed save returns its error and changes no user; otherwise exactly the first matching user gets IsEmailVerified |
| Auth.AuthService.SendPasswordResetEmail | internal/services/auth_service.go:269-294 | the new state and the error are those of the reset-mail function |
| Auth.AuthService.ResetPassword | internal/services/auth_service.go:302-381 | the new state and the error are those of the reset function, including the hash and save errors |
| Auth.AuthService.Logout | internal/services/auth_service.go:384-398 | the new state and the error are those of the logout function, including the update error |
| Auth.AuthService.RefreshToken | internal/services/auth_service.go:150-201 | the new state and the result are those of the refresh function, including the revoke and create errors |
| Auth.AuthService.GenerateAndSendOTP | internal/services/otp_auth_service.go:13-53 | the new state and the result are those of the dispatch function |
| EmailService.ComposeMessage | internal/services/email_service.go:173-183 | the message is the five header lines, each ending in CRLF, then an empty line, then the body unchanged |
| EmailService.FindBlankLineMeans | internal/services/email_service.go:179 | the blank-line search finds the first CRLFCRLF, and None when there is none |
| EmailService.BodyFollowsFirstBlankLine | internal/services/email_service.go:174-180 | when From, To and Subject hold no CR or LF, the first blank line ends the headers, and everything after it is exactly the body |
| EmailService.PrepareOverwritesCommonFields | internal/services/email_service.go:54-65 | To, Subject, AppName "Event Ticketing", SupportEmail and CurrentYear are always overwritten; a non-empty Title is kept and an empty one becomes the subject; Message, RecipientName, OTP and Data pass through |
| EmailService.SendEmail | internal/services/email_service.go:54-75 | a render failure gives "failed to parse template" and sends nothing; an SMTP failure gives "failed to send email"; otherwise exactly the composed message is sent to the one recipient |
| EmailService.SendSmtp | internal/services/email_service.go:155-170 | on success the mail goes from the configured sender to [to] with the composed message; on failure the error is wrapped and nothing is sent |
| EmailService.OtpTemplateChoice | internal/services/email_service.go:81-97 | password_reset uses reset_password_email.html and every other type otp_email.html, always with a non-empty title |
| EmailService.SendOTPEmail | internal/services/email_service.go:78-109 | the template data carries OTPType = the type, the code, and the title and message for the type; a render failure gives "failed to parse template", an SMTP failure "failed to send email", both sending nothing; otherwise the composed mail with the type's subject goes to [to] |
| EmailService.SendWelcomeEmail | internal/services/email_service.go:112-123 | welcome_email.html gets the welcome title and the first name as recipient name; a render failure gives "failed to parse template", an SMTP failure "failed to send email", both sending nothing; otherwise the composed mail with subject "Welcome to Event Ticketing!" goes to [to] |
| EmailService.SendWelcomeEmailWithCredentials | internal/services/email_service.go:126-130 | always returns a non-empty error, so no welcome-with-credentials mail is ever sent |
| EmailWorker.StringEntry | internal/workers/email_worker.go:122-158 | an entry is read only when present and a string |
| EmailWorker.NonStringValueIsIgnored | internal/workers/email_worker.go:121-162 | a non-string value under a key the extractors read acts as if the key were absent |
| EmailWorker.OtherKeysDoNotMatter | internal/workers/email_worker.go:121-162 | keys other than RecipientName, FirstName, Title, Message and OTP do not affect the extractors |
| EmailWorker.RecipientNamePrecedence | internal/workers/email_worker.go:121-129 | a string RecipientName wins; without it a string FirstName is used |
| EmailWorker.Defaults | internal/workers/email_worker.go:132-162 | without an entry, the title is the subject, the message is the default for the job's kind (OTP, welcome, other), and the OTP is "" |
| EmailWorker.OtpJobThroughWorker | internal/workers/email_worker.go:121-162 | for a queued OTP job the worker reads the builder's title, message and code, and no recipient name |
| EmailWorker.WelcomeJobThroughWorker | internal/workers/email_worker.go:121-154 | for a queued welcome job the worker finds no recipient name (the builder writes "Name"), so it uses the default welcome message and the subject as title |
| EmailWorker.RetryDelayLinear | internal/workers/email_worker.go:52-54 | the worker's retry delay grows by one minute per attempt |
| EmailWorker.BackoffOvertakesRetryDelay | internal/workers/email_worker.go:52-54 | from the 10th retry on, the queue's 2^n-second back-off is longer than the worker's n-minute delay; at the 9th it is still shorter (512 s against 540 s) |
| EmailWorker.FirstRetryDelays | internal/workers/email_worker.go:52-54 | the first retry waits 2 seconds in the queue and 60 seconds in the worker |
| EmailWorker.HandleEmailSend | internal/workers/email_worker.go:83-118 | a payload that does not decode returns the unmarshal error and sends nothing; a decoded job is sent through SendEmail with the extracted fields, and a send error is wrapped |
| EmailWorker.WorkerDataTemplateView | internal/workers/email_worker.go:93-101 | the template sees the job's recipient, subject, data map, extracted code and name, and a non-empty title when the subject is non-empty |
| Validators.GeneratedOtpIsValid | internal/validators/validator.go:34-113 | every 4-, 5- or 6-digit generated code passes the otp validator |
| Validators.OtpAndCvvOverlap | internal/validators/validator.go:33-34 | four digits pass both the otp and the cvv validator; three digits pass cvv but not otp |
| Validators.PhonePlusPrefix | internal/validators/validator.go:28 | a valid phone number without '+' is 7 to 15 digits, and stays valid with a '+' in front |
| Validators.ZipPlusFour | internal/validators/validator.go:39 | "five-four" is a valid zip code iff the first five are a valid zip code and the last four are digits |
| Validators.EmailParts | internal/validators/validator.go:27 | "local@host" is a valid email iff the local part is non-empty and made of the allowed characters, and the host is valid |
| Validators.HostParts | internal/validators/validator.go:27-30 | "name.tld", with tld made of letters, is a valid host iff name is a non-empty run of host characters and tld has at least two letters |
| Validators.HostNeedsDot | internal/validators/validator.go:27-30 | a host without a '.' is never valid |
| Validators.UrlParts | internal/validators/validator.go:30 | with an http or https scheme, a path-free host and an optional path, the URL is valid iff the host is |
| Validators.UrlNeedsHttpScheme | internal/validators/validator.go:30 | a string with neither an http:// nor an https:// prefix is never a valid URL |
| Validators.CardShape | internal/validators/validator.go:31 | a valid card number has 13 to 16 digits and starts with a digit from 1 to 6 |
| Validators.VisaLengths | internal/validators/validator.go:31 | a number of digits starting with 4 is valid iff it has 13 or 16 digits |
| Validators.AmexLength | internal/validators/validator.go:31 | a number of digits starting with 34 or 37 is valid iff it has 15 digits |
| Validators.ExpiryMeaning | internal/validators/validator.go:32 | "MM/YY" is valid iff both parts are digits and MM is a month from 01 to 12 |
| Validators.AmountMeaning | internal/validators/validator.go:40 | digits, a point and digits form a valid amount iff there are one or two digits after the point |
| Validators.AmountWholeOrPoint | internal/validators/validator.go:40 | a non-empty run of digits is a valid amount; a text ending in a point is not |
| Validators.UuidRejectsUpperCase | internal/validators/validator.go:35 | a string holding 'A' to 'F' anywhere is not a valid UUID |
| Validators.UuidIsLowerCase | internal/validators/validator.go:35 | a valid UUID is unchanged by lower-casing |
| Validators.Utf8LengthAtLeastChars | internal/validators/validator.go:86 | the byte length is at least the character count, and equal to it for ASCII text |
| Validators.StrongPasswordHasFourKinds | internal/validators/validator.go:82-93 | a strong password holds at least four characters |
| Validators.StrongPasswordCountsBytes | internal/validators/validator.go:86 | the length test counts UTF-8 bytes: a six-character password with two non-ASCII letters passes |
| Validators.AsciiStrongPassword | internal/validators/validator.go:82-93 | an ASCII password of at least 8 characters with an upper-case letter, a lower-case letter, a digit and a listed special character is strong |
| Validators.CapParts | internal/validators/validator.go:303-307 | every part is capitalized, in place |
| Validators.ConvertCamelCaseToTitleCase | internal/validators/validator.go:299-324 | the loops compute the title-case conversion |
| Validators.CapPartLower | internal/validators/validator.go:305 | capitalizing a part changes only the case of its letters |
| Validators.SnakeCaseIsSpacedName | internal/validators/validator.go:301-309 | a snake_case name becomes, up to letter case, the name with each '_' replaced by a space, and keeps its length |
| Validators.CamelTailLength | internal/validators/validator.go:313-322 | after the first character, each character is copied with a space before each upper-case one |
| Validators.CamelCaseLength | internal/validators/validator.go:311-323 | without '_', the result is one longer per upper-case character after the first, and begins with the upper-cased first character |
| Validators.TitleCaseExamples | internal/validators/validator.go:299-324 | "aB" becomes "A b", and "a__b" becomes "A  B" because empty parts are kept |
| Validators.FieldDisplayNameNotShorter | internal/validators/validator.go:289-295 | a name outside the table is never shortened by its display form |
| Validators.ErrorMessageShape | internal/validators/validator.go:162-227 | every message begins with the display name; unknown tags give "<name> is invalid"; eqfield names both fields |
| Validators.FormatFieldErrors | internal/validators/validator.go:144-149 | one entry per field error, in order, each with the field and its message |
| Validators.FormatErrors | internal/validators/validator.go:140-159 | validator errors give one entry per field error, in order; any other error gives exactly one "request" entry with its text |
| Permissions.GrantsMeaning | pkg/utils/permissions.go:25-41 | a permission grants (resource, action) iff its resource is that resource or "*" and its action is that action or "*" |
| Permissions.AnyAdminMeaning | pkg/utils/permissions.go:16-20 | the admin scan finds a role iff some role is named admin, ignoring case |
| Permissions.AnyGrantMeaning | pkg/utils/permissions.go:24-42 | the inner scan succeeds iff some permission of the role grants |
| Permissions.AnyRoleGrantsMeaning | pkg/utils/permissions.go:23-43 | the outer scan succeeds iff some permission of some role grants |
| Permissions.HasPermissionMeaning | pkg/utils/permissions.go:10-46 | true iff the user exists, has a role, and either holds an admin role (any case) or some permission grants |
| Permissions.AdminHasEveryPermission | pkg/utils/permissions.go:16-20 | an admin role grants every resource and action |
| Permissions.NoRolesNoPermission | pkg/utils/permissions.go:11-13 | a nil user or one without roles has no permission |
| Permissions.AnyRoleNamedMeaning | pkg/utils/permissions.go:54-58 | the role scan succeeds iff some role name, lower-cased, equals the wanted name |
| Permissions.HasRoleMeaning | pkg/utils/permissions.go:49-61 | true iff the user exists and some role name equals the wanted name, ignoring case |
| Permissions.HasRoleIgnoresCase | pkg/utils/permissions.go:54-58 | lower-casing or upper-casing the wanted name does not change the answer |
| Permissions.AnyHasRoleMeaning | pkg/utils/permissions.go:68-73 | the scan succeeds iff some wanted name passes HasRole |
| Permissions.HasAnyRoleMeaning | pkg/utils/permissions.go:64-76 | true iff some wanted name passes HasRole, so an empty list is false |
| AuthGuard.BearerTokenMeaning | internal/middleware/auth.go:29-34 | the header yields token t iff it is exactly "Bearer " + t and t holds no space |
| AuthGuard.BearerTokenStrict | internal/middleware/auth.go:29-34 | a lower-case scheme, a double space and a bare "Bearer" are all refused |
| AuthGuard.AuthMiddleware | internal/middleware/auth.go:16-54 | the new context is that of the authentication function on the Authorization header |
| AuthGuard.AuthOutcome | internal/middleware/auth.go:16-54 | the request goes on iff the header carries a bearer token that validates; otherwise it stops with 401 and no values set. On success exactly userID, email and roles are set, and never "user" |
| AuthGuard.RoleRequired | internal/middleware/auth.go:57-80 | the new context is that of the role check |
| AuthGuard.AnyRoleRequired | internal/middleware/auth.go:115-140 | the new context is that of the any-role check |
| AuthGuard.GuardsMeaning | internal/middleware/auth.go:115-150 | IsOrganizer passes iff admin or organizer is among the roles, and IsAdmin iff admin is; otherwise 403 |
| AuthGuard.GuardsWithoutRoles | internal/middleware/auth.go:61-123 | without roles in the context both guards stop with 401 |
| AuthGuard.RoleRequiredIsCaseSensitive | internal/middleware/auth.go:67-79 | a user whose only role is "Admin" is refused by IsAdmin, while HasRole in the permission helpers accepts it as admin |
| AuthGuard.GetUserFromToken | internal/middleware/auth.go:153-187 | the new context is that of the optional-authentication function |
| AuthGuard.OptionalAuthNeverAborts | internal/middleware/auth.go:153-187 | the request always goes on with its response untouched; authenticated is set only for a valid bearer token, and then together with the claims |
| OrgGuard.IsOrganizerOfOrganization | internal/middleware/organization.go:15-89 | the new context is that of the guard's decision chain on the route's id parameter |
| OrgGuard.OrgSpecUnauthenticated | internal/middleware/organization.go:18-23 | with no "user" in the context the guard stops with 401 |
| OrgGuard.OrgSpecRoleBeforeId | internal/middleware/organization.go:33-49 | a user with no role named exactly organizer or admin gets 403, whatever the organization ID |
| OrgGuard.OrgSpecMissingId | internal/middleware/organization.go:52-57 | an organizer or admin with an empty ID gets 400 |
| OrgGuard.OrgSpecAdminPasses | internal/middleware/organization.go:60-63 | an admin passes for any non-empty ID without a lookup |
| OrgGuard.OrgSpecOrganizer | internal/middleware/organization.go:66-87 | an organizer passes iff the organization exists and they own it, and the organization is then stored; a missing one gives 404, another owner's 403 |
| OrgGuard.OrgRouteAlwaysUnauthorized | internal/middleware/organization.go:18-23 | as written, every request on the organization routes ends with 401, whatever its token, roles or organization |
| OrgGuard.ClaimsUserRoles | internal/middleware/auth.go:48-50 | the user record built from the claims has a role named n iff n is among the claimed roles |
| OrgGuard.CorrectedRouteDecidesLikeOriginal | internal/middleware/organization.go:25-87 | with a valid token, the corrected route gives the same response, abort and go-on as the guard would for the user the token describes |
| OrgGuard.EnactIgnoresValues | internal/middleware/organization.go:45-87 | carrying out a decision depends only on the response, abort and go-on state of the context |
| OrgGuard.CorrectedRouteAdmitsOwner | internal/middleware/organization.go:66-87 | with a valid token for the organizer who owns the organization, the corrected route passes and stores the organization |
| Cors.ChooseOrigin | internal/middleware/cors.go:25-43 | the loop yields "*" without an Origin header, the origin when it is listed (after trimming), else the first entry |
| Cors.CORS | internal/middleware/cors.go:9-57 | the new context is that of the CORS function |
| Cors.ListedMeansEntry | internal/middleware/cors.go:31-36 | with trimmed entries, being listed is being an entry |
| Cors.EntriesAreTrimmed | internal/middleware/cors.go:12-19 | no allow-list entry carries surrounding white space |
| Cors.AllowOriginCases | internal/middleware/cors.go:25-43 | no header gives "*"; a listed origin is echoed back; any other origin gets "http://localhost:3000" |
| Cors.AllowOriginIsListedOrStar | internal/middleware/cors.go:25-43 | the Allow-Origin value is "*" or an allow-list entry, never an unlisted origin |
| Cors.CorsOutcome | internal/middleware/cors.go:45-55 | every response carries the four headers with credentials allowed; OPTIONS stops with 204 and every other method goes on |
| RateLimiting.IPRateLimiter.constructor | internal/middleware/rate_limiter.go:28-42 | a new table is empty, keeps the given expiry, and satisfies the table invariant |
| RateLimiting.IPRateLimiter.AddIP | internal/middleware/rate_limiter.go:46-55 | the new table and limiter are those of the add function |
| RateLimiting.IPRateLimiter.GetLimiter | internal/middleware/rate_limiter.go:59-74 | the new table and limiter are those of the lookup function |
| RateLimiting.IPRateLimiter.CleanupExpired | internal/middleware/rate_limiter.go:77-91 | the deleting loop leaves the table the cleanup function describes |
| RateLimiting.GetLimiterKnown | internal/middleware/rate_limiter.go:62-68 | a known IP gets its own limiter back and only its last-seen time is refreshed |
| RateLimiting.GetLimiterUnknown | internal/middleware/rate_limiter.go:70-73 | an unknown IP gets a fresh limiter, shared with no other IP, entered in both maps |
| RateLimiting.AddIPReplaces | internal/middleware/rate_limiter.go:50-52 | adding a known IP replaces its limiter with a new one |
| RateLimiting.GetLimiterStable | internal/middleware/rate_limiter.go:59-74 | asking twice for the same IP returns the same limiter |
| RateLimiting.TableOperationsKeepInv | internal/middleware/rate_limiter.go:46-91 | add, lookup and cleanup keep the key sets of ips and lastSeen equal |
| RateLimiting.CleanupExact | internal/middleware/rate_limiter.go:77-91 | cleanup keeps exactly the entries whose age is at most the expiry (removal is strict >), unchanged, in both maps |
| RateLimiting.SplitHostPlain | internal/middleware/rate_limiter.go:145-148 | "host:port" splits to host |
| RateLimiting.SplitHostBracketed | internal/middleware/rate_limiter.go:145-148 | "[host]:port" splits to host |
| RateLimiting.SplitHostNeedsPort | internal/middleware/rate_limiter.go:145-148 | an address without ':' does not split, so the whole RemoteAddr is used |
| RateLimiting.ClientIPOrder | internal/middleware/rate_limiter.go:145-158 | the first X-Forwarded-For entry, trimmed, wins; then X-Real-IP; then the host of RemoteAddr, or all of it |
| RateLimiting.AuthPrefixIsTextual | internal/middleware/rate_limiter.go:163-168 | the auth limiter is chosen by a plain prefix test, so "/api/v1/authors" uses it too |
| RateLimiting.RateLimiterMiddleware | internal/middleware/rate_limiter.go:143-181 | only the limiter table chosen by the path is touched, at the client's IP; the request stops with 429 or goes on as the limiter decides |
| RateLimiting.StrictRateLimiter | internal/middleware/rate_limiter.go:184-214 | the strict table is touched at the client's IP; the request stops with 429 or goes on |
| RateLimiting.LimitOutcome | internal/middleware/rate_limiter.go:170-179 | a refusal stops the request with 429; otherwise it goes on unchanged |
| Seeding.RoleTables.constructor | internal/database/seed.go:11 | the tables start as given |
| Seeding.RoleTables.EnsureRole | internal/database/seed.go:48-183 | a missing role is created with its query's permissions (admin: all of them); an existing role is left alone |
| Seeding.RoleTables.SeedRoles | internal/database/seed.go:11-187 | the new tables are those of the permission loop followed by the five role steps |
| Seeding.CreateMissingKeeps | internal/database/seed.go:34-45 | the permission loop only appends, keeping every existing row |
| Seeding.CreateMissingCovers | internal/database/seed.go:34-45 | after the loop every default permission's name is taken |
| Seeding.CreateMissingNoop | internal/database/seed.go:35-38 | when every name is taken the loop creates nothing |
| Seeding.CreateMissingFresh | internal/database/seed.go:34-45 | when no name is taken the loop appends every default in order |
| Seeding.WithRoleExists | internal/database/seed.go:53-72 | a role step leaves its role in place and keeps every role that already existed |
| Seeding.SeededRolesExist | internal/database/seed.go:48-183 | after seeding the five roles exist |
| Seeding.SeedingIsIdempotent | internal/database/seed.go:11-187 | seeding a second time leaves the tables as one run did |
| Seeding.DefaultNamesDistinct | internal/database/seed.go:15-31 | there are nine default permissions with distinct names |
| Seeding.FreshPermissions | internal/database/seed.go:15-45 | on an empty database the loop creates the nine defaults in order |
| Seeding.SelectConcat | internal/database/seed.go:87-179 | a permission query over two tables is the query over each, in order |
| Seeding.DefaultSelections | internal/database/seed.go:87-179 | organizer gets the event and staff permissions; staff gets read:event and read:user; manager the five listed; user read:event |
| Seeding.FreshRoles | internal/database/seed.go:48-183 | an empty database ends with the five roles and exactly those permission sets, admin holding all nine |
| Seeding.StaffAndUserCannotChangeEvents | internal/database/seed.go:116-173 | holders of only the seeded staff or user roles may not create, update or delete events |
| AppErrors.CodeFixesStatus | pkg/utils/errors.go:34-145 | every constructed error carries a code of the table with that code's status |
| AppErrors.SameCodeSameStatus | pkg/utils/errors.go:34-145 | equal codes mean equal statuses; statuses lie in 400..599, and only the database, internal and external-service kinds are 5xx |
| AppErrors.ConstructedErrorText | pkg/utils/errors.go:19-145 | every constructor sets details, so Error() of a constructed error is "message: details" |
| AppErrors.ErrorTextMeaning | pkg/utils/errors.go:19-24 | Error() always begins with the message, and is the message alone iff there are no details |
| AppErrors.UnwrapGivesCause | pkg/utils/errors.go:27-125 | only the database, internal and external-service constructors keep a cause, and they keep the given one |
| AppErrors.MessageFormats | pkg/utils/errors.go:45-145 | "<resource> not found", "<service> service error: <message>", "<op> operation timed out"; validation fields are kept as given; a not-found or timeout message determines its resource or operation |

## Left out

- Login, VerifyEmail, GetUserByID, UpdateProfile and ChangePassword in auth_service.go are not modelled. They are routine ORM reads and writes outside the code-consuming and token-rotating flows.
- Redis is replaced by records of sequences and maps:
  - A TTL becomes an expiry stamp compared with the clock.
  - The blocking BRPOP is a non-blocking poll that returns nothing when the lists are empty.
  - Several pollers racing on one store are not modelled.
- Auth.AuthService.Register does not model role assignment (the "user" role lookup and creation), bcrypt hashing, or database errors other than "not found". The password hash is an input.
- The OTP mail senders `QueuePasswordResetOTP` and `QueueRegistrationOTP` are called by the auth service but do not exist in the repository. They are modelled as one abstract effect, an outbox with a failure flag. The 2fa path uses the real `QueueOTPEmail`.
- EmailQueue.RetryBackoff requires RetryCount < 63. The Go nanosecond duration overflows from RetryCount 34 on, and that wrap-around is not modelled.
- The "failed to serialize email job" branch of QueueEmail is not modelled. Every job in the model encodes.
- Otp.GenerateOTP requires 1 ≤ digits ≤ 18. With digits ≤ 0, `Intn` panics; with digits ≥ 19, the int64 arithmetic overflows.
- The random source is a `roll` parameter, reduced into the digit range.
- Case mapping (`ToLower`, `ToUpper`, `unicode.IsUpper`) is ASCII only. Go's Unicode case tables are not modelled.
- Regular expressions are not executed. Each pattern of validator.go is written out as an explicit character-class predicate.
- Validators.FormatFieldErrors takes the message rule as a parameter. FormatErrors instantiates it with ErrorMessage.
- The comment on `getFieldDisplayName` promises "First Name" for "firstName". The code lower-cases the tail and gives "First name". The model follows the code.
- AuthGuard.RoleRequired and AuthGuard.AnyRoleRequired require the stored roles to be a list of strings. In Go, any other value makes the type assertion panic.
- PermissionRequired in auth.go is not modelled. It builds `NewAuthService(nil)`, whose configuration access fails, before it reaches any permission logic.
- The token-bucket limiter (`rate.Limiter`, the float rate and burst in `InitRateLimiters`) is a boolean `allow` input. InitRateLimiters itself is left out.
- The cleanup ticker goroutine and the mutexes of rate_limiter.go are left out. Table operations are sequential.
- RateLimiting.SplitHostNeedsPort and the other split lemmas model `net.SplitHostPort` on the address forms the middleware meets. Its full grammar (zone IDs, the error texts) is not modelled.
- Header names are matched exactly. Go's canonicalization of header keys is not modelled.
- The `details` and `timestamp` fields of the JSON error body are not modelled: a response is its status and message.
- JWT signing and validation, SHA-256 of tokens, bcrypt, html/template rendering, the template file lookup and SMTP are inputs:
  - `validate`, `HashToken` (injective), `render` and `smtpErr`;
  - the newly issued token for a refresh.
- In OrgGuard.IsOrganizerOfOrganization, any database error on the organization lookup is read as "not found" (404).
- EmailQueue.ProcessEmailJob: the template map is never nil in the model. In Go, a job decoded without TemplateData has a nil map, and the CurrentYear write at email_queue_service.go:252-253 panics on it. That panic is not modelled.
- AppErrors: the `fields` of a validation error are a map from strings to strings. Go's `map[string]interface{}` allows any value.
- Template values are strings or numbers. The JSON float/int distinction is not kept.
- The job type is a closed set of the nine declared kinds. In Go, `EmailJobType` is a string, and decoding accepts any value.
- EmailJobs.DecodeEncode holds by construction: a payload is the job itself or a malformed blob, and JSON encoding is not modelled.
- In the auth flows, a query (`First`) fails only with "record not found". Other database read errors are not modelled. The writes (Save, Update, Create) each carry an error input.
- Error texts keep Go's own prefix, such as "failed to add job to queue" or "failed to deserialize email job". The cause that Go wraps with `: %w` (the Redis or JSON error) is not modelled. Where the model appends a cause, as in EmailWorker.HandleEmailSend's "failed to unmarshal email job: …", the appended text is the model's decode error standing in for json.Unmarshal's message.
- Otp.VerifyIsSingleUse and Auth.VerifiedResetCodeIsSpent assume that the DEL after a match succeeds. VerifyOTP ignores that DEL's error (internal/services/otp_service.go:77), and then the used code stays valid until it expires, as Otp.FailedDeleteLeavesCodeUsable states.
- Times are integer seconds. A zero `time.Time` is `None`.
- The asynq server of the email worker is not modelled: its queues (including `queue:email:urgent`, which QueueEmail never feeds), its concurrency and Start/Stop. Only the task handler, its extractors and the retry-delay rule are modelled.
- The Gin context is reduced to values, response headers, one response, the aborted flag and a go-on flag. Chained middleware hands on through `Handoff`. Handlers after the chain are not modelled.
- seed.go's generic database errors are not modelled. Each create succeeds.

## Findings

| source | as written | input that shows it | evidently intended | confidence | as-written member | corrected member |
|---|---|---|---|---|---|---|
| internal/middleware/organization.go:18 | IsOrganizerOfOrganization reads context key "user", which AuthMiddleware (internal/middleware/auth.go:48-50) never sets; it sets only "userID", "email" and "roles" | any request on a route behind AuthMiddleware and IsOrganizerOfOrganization, including a valid bearer token of an organizer for an organization that organizer owns: the answer is 401 "User not authenticated" | the guard reads the user ID and roles that AuthMiddleware stores, and then applies its role, ID, admin and ownership checks | not executed | OrgGuard.OrgRouteAlwaysUnauthorized | OrgGuard.CorrectedRouteDecidesLikeOriginal |
