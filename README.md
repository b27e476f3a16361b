# NotificationService core, modelled in Dafny

This project models the core of NotificationService, which covers four things:

- **The OTP engine.** It creates a one-time code, keeping one active code per subject. It validates a code against an allow-listed function name, checks expiry, consumes the code so it is single-use, and dispatches to the function handler. It also deletes codes in bulk.
- **The OTP function handler.** It runs e-mail verification, phone verification and password-reset request issuance.
- **The notification intake pipeline.** It stores a new notification as `sent`. For the channels `email` and `sms` it hands the notification to the delivery queue and marks it `pushed`. It also reads a notification back by id.
- **The template engine and the parameters cache.** The engine does `{{key}}` substitution and loads templates from a directory tree. It renders e-mail (a layout wrapped around content) and SMS. The delivery-parameters service is a one-slot cache.

Files:

| file | module | models |
|---|---|---|
| `wrappers.dfy` | `Wrappers` | `Option`, `Result` |
| `text.dfy` | `Text` | ASCII case folding, decimal text, `int.TryParse` |
| `configuration.dfy` | `Configuration` | `DateTime` as ticks, the two expiry settings |
| `entities.dfy` | `Entities` | `Otp`, `PasswordResetRequest`, `Notification`, `NotificationParams`, `Guid.NewGuid` |
| `otp_functions.dfy` | `OtpFunctions` | `OtpFunctionHandler`, with the business and reset stores |
| `otp_service.dfy` | `Otps` | `OtpService`, with the `otp` table |
| `notification_pipeline.dfy` | `Notifications` | `NotificationService` (intake and read-back) |
| `template_engine.dfy` | `Templates` | `TemplateEngine` |
| `params_cache.dfy` | `ParamsCache` | `NotificationParamsService` and its repository |

## How the source is represented

- **Services as classes.** The services that change stores are classes whose fields are the stores they own:
  - the `otp` table is a `set<Otp>`;
  - the notifications table is a `map` from id to row, and the queue is a `seq`;
  - the business verification flags are a `map`;
  - the cache slot is an `Option`.
- **Statements as functions.** Each repository statement the core depends on becomes a function. Examples are the `WHERE` clause of a `DELETE` and the first-row semantics of a `SELECT`.
- **Methods against specification functions.** Each method is proved to change its state exactly as a specification function of the old state says. Lemmas then prove what the source promises about those functions.
- **The clock.** The clock is a `now` parameter. A `DateTime` is its tick count, so adding m minutes adds m × 600,000,000.
- **Random choices.** `Random.Next` and `Guid.NewGuid` are nondeterministic choices within the range the source allows.
- **The queue.** The delivery queue may accept a message or throw.
- **Null arguments.**
  - In the template engine (`Render`, `LoadTemplateAsync`, `RenderEmailTemplateAsync`, `RenderSmsTemplateAsync`) a null or empty string argument is `""`, because the engine takes the same branch for both. The other operations take non-null strings.
  - A null dictionary is `None`.
- **Template substitution.** `Render` calls `Regex.Replace(result, "{{key}}", value, IgnoreCase)` once per variable. The model does the same thing with a left-to-right scan:
  - it replaces every non-overlapping occurrence of `{{key}}`, compared ignoring ASCII case, with the value taken literally;
  - for keys of letters, digits and `_` (not digits only), the regex matches exactly these occurrences.
- **Reference rendering.** Templates are also described as pieces: literal text without `{`, and placeholders. `Templates.RenderExpands` proves that, for values without `{` or `$`, the engine's successive replacements give the reference expansion:
  - each placeholder is filled by the first variable whose key matches it ignoring case;
  - placeholders that no variable names are kept.

### Behaviour worth knowing

- **Code range.** `GenerateSixDigitCode` calls `Random.Next(100000, 999999)` (src/NotificationService.Application/Services/OtpService.cs:90). The upper bound of `Next` is exclusive, so 999999 is never produced (`Otps.GenerateSixDigitCode`).
- **The reserved `content` key.** `RenderEmailTemplateAsync` sets `content` in a copy of the caller's dictionary, which uses ordinal, case-sensitive keys (src/NotificationService.Infrastructure/Services/TemplateEngine.cs:65-71). A caller key `Content` therefore stays as a separate entry that comes earlier in enumeration order. Because the replacement ignores case, that entry fills the layout's `{{content}}`, and the rendered content is not used (`Templates.CallerContentKeyWins`). `Templates.ContentEntryLookup` proves that the layout sees the rendered content when the exact key `content` is the only key equal to it ignoring case.
- **Values are substituted again.** Each variable is replaced in the result of the previous ones (src/NotificationService.Infrastructure/Services/TemplateEngine.cs:27-31). A value that spells `{{k}}` is filled again by a later variable `k`, so the output depends on the enumeration order (`Templates.ValueIsSubstitutedAgain`).

## Model

| member | source | states |
|---|---|---|
| Configuration.OtpExpiryMinutes | src/NotificationService.Application/Services/OtpService.cs:24 | a missing or unparseable `OtpSettings:ExpiryMinutes` gives 60; a parseable one gives its `int` value |
| Configuration.ResetExpiryMinutes | src/NotificationService.Application/Services/OtpFunctionHandler.cs:66 | a missing key gives 60; a value is accepted exactly when it parses as an `int`, and is then its value; anything else is a configuration error naming the key |
| Configuration.ConfiguredMinutesAreUsed | src/NotificationService.Application/Services/OtpService.cs:24 | a configured number of minutes from 0 to `int.MaxValue`, written in decimal, is read back as itself by both settings |
| Configuration.ConfiguredNegativeMinutesAreUsed | src/NotificationService.Application/Services/OtpService.cs:24 | a negative number of minutes down to `int.MinValue`, written with `-`, is read back as itself by both settings |
| Configuration.AddMinutes | src/NotificationService.Application/Services/OtpService.cs:30 | adding a positive number of minutes gives a later time, zero the same time, a negative number an earlier time |
| Configuration.MalformedSettingDiverges | src/NotificationService.Application/Services/OtpFunctionHandler.cs:66 | on the same malformed value the OTP expiry falls back to 60 while the reset expiry fails |
| Text.OrdinalIgnoreCaseIsLowerEquality | src/NotificationService.Application/Services/OtpFunctionHandler.cs:13-34 | `OrdinalIgnoreCase` equality holds exactly when the lower-cased strings are equal |
| Text.ToLower | src/NotificationService.Application/Services/OtpFunctionHandler.cs:27 | the lower-cased text has the same length and each character lower-cased; `Text.OrdinalIgnoreCaseIsLowerEquality` ties it to `OrdinalIgnoreCase` |
| Text.DecimalString | src/NotificationService.Application/Services/OtpService.cs:90 | `ToString()` of a non-negative number is non-empty and all digits; `Text.DecimalRoundTrip` reads it back |
| Text.TryParseInt32 | src/NotificationService.Application/Services/OtpService.cs:24 | a parsed value always lies in the `int` range; the lemmas below give the texts it accepts, and `Configuration.MalformedSettingDiverges` one it rejects |
| Text.DecimalRoundTrip | src/NotificationService.Application/Services/OtpService.cs:87-91 | `ToString()` of a number is all digits and reads back as that number |
| Text.DecimalLength | src/NotificationService.Application/Services/OtpService.cs:87-91 | a number in [10^k, 10^(k+1)) prints as k+1 digits with no leading zero |
| Text.ParsesDecimalString | src/NotificationService.Application/Services/OtpService.cs:24 | `int.TryParse` accepts the decimal text of any number up to `int.MaxValue` and returns that number |
| Text.ParsesNegativeDecimalString | src/NotificationService.Application/Services/OtpService.cs:24 | `int.TryParse` accepts `-` followed by the decimal text of k and returns -k, down to `int.MinValue` |
| Text.ParsesWithTrailingNuls | src/NotificationService.Application/Services/OtpService.cs:24 | `int.TryParse` accepts a number followed by any run of U+0000 and returns the number |
| Entities.NewGuid | src/NotificationService.Domain/Entities/Notification.cs:27 | a new identifier is never `Guid.Empty` and differs from every identifier already stored |
| Entities.NewOtp | src/NotificationService.Domain/Entities/Otp.cs:15-21 | the constructor stores id, code and expiry as given and the creation time as now |
| Entities.BlankOtp | src/NotificationService.Domain/Entities/Otp.cs:5-13 | the parameterless constructor leaves id and code empty, expiry at `default(DateTime)`, creation at now |
| Entities.Otp.IsExpired | src/NotificationService.Domain/Entities/Otp.cs:23 | strictly after the expiry time; characterised by `Entities.OtpExpiryIsStrict` and `Entities.OtpStaysExpired` |
| Entities.OtpExpiryIsStrict | src/NotificationService.Domain/Entities/Otp.cs:23 | an OTP is still valid at its expiry instant and expired one tick later |
| Entities.OtpStaysExpired | src/NotificationService.Domain/Entities/Otp.cs:23 | once expired, an OTP is expired at every later time |
| Entities.NewPasswordResetRequest | src/NotificationService.Domain/Entities/PasswordResetRequest.cs:14-19 | the constructor stores id and expiry as given and the creation time as now |
| Entities.BlankPasswordResetRequest | src/NotificationService.Domain/Entities/PasswordResetRequest.cs:5-12 | the parameterless constructor leaves the id empty, expiry at `default(DateTime)`, creation at now |
| Entities.PasswordResetRequest.IsExpired | src/NotificationService.Domain/Entities/PasswordResetRequest.cs:21 | strictly after the expiry time; characterised by `Entities.ResetExpiryIsStrict` and `Entities.ResetStaysExpired` |
| Entities.ResetExpiryIsStrict | src/NotificationService.Domain/Entities/PasswordResetRequest.cs:21 | a reset request is valid at its expiry instant and expired one tick later |
| Entities.ResetStaysExpired | src/NotificationService.Domain/Entities/PasswordResetRequest.cs:21 | once expired, a reset request stays expired |
| Entities.BlankNotification | src/NotificationService.Domain/Entities/Notification.cs:14-23 | a new notification is `sent`, retry count 0, requested now, not delivered, with no template, channel, recipient or payload |
| Entities.NewNotification | src/NotificationService.Domain/Entities/Notification.cs:25-35 | a new notification carries the given template, channel, recipient and payload, and is `sent`, retry count 0, requested now, not delivered |
| OtpFunctions.IsValidFunction | src/NotificationService.Application/Services/OtpFunctionHandler.cs:13-23 | membership in the allow-list ignoring case; `OtpFunctions.ValidNamesAreDispatched` proves it holds exactly when `DispatchTarget` reaches a handler |
| OtpFunctions.DispatchTarget | src/NotificationService.Application/Services/OtpFunctionHandler.cs:25-34 | the lower-casing `switch`; characterised by `OtpFunctions.ValidNamesAreDispatched` and `OtpFunctions.UnknownNamesAreRejected` |
| OtpFunctions.ValidNamesAreDispatched | src/NotificationService.Application/Services/OtpFunctionHandler.cs:13-34 | a name passes the case-insensitive allow-list exactly when the lower-casing `switch` of `ExecuteAsync` reaches a handler |
| OtpFunctions.ValidFunctionExamples | src/NotificationService.Application/Services/OtpFunctionHandler.cs:13-23 | `EMAILVERIFICATION` and `ResetPassword` are allowed; the empty name and `emailVerify` are not |
| OtpFunctions.FindBusiness | src/NotificationService.Infrastructure/Repositories/BusinessVerificationRepository.cs:20-32 | null exactly when no business has that e-mail (phone); otherwise the id of the first business that has it |
| OtpFunctions.SetVerified | src/NotificationService.Infrastructure/Repositories/BusinessVerificationRepository.cs:34-54 | sets only the e-mail (phone) flag of that business's verification row, if it has one; every other row is unchanged |
| OtpFunctions.DeleteResetsById | src/NotificationService.Infrastructure/Repositories/PasswordResetRequestRepository.cs:52-57 | exactly the reset requests of other subjects remain |
| OtpFunctions.UnknownNamesAreRejected | src/NotificationService.Application/Services/OtpFunctionHandler.cs:25-34 | a name outside the allow-list throws `Unknown OTP function: <name>` and changes nothing; an allowed name never takes that arm |
| OtpFunctions.VerificationOutcome | src/NotificationService.Application/Services/OtpFunctionHandler.cs:36-58 | verification returns true exactly when a business has the contact; then only that business's flag is set; businesses and reset requests are untouched |
| OtpFunctions.ResetLeavesOneRequest | src/NotificationService.Application/Services/OtpFunctionHandler.cs:60-76 | the subject ends with exactly one request, expiring the configured minutes after now, and the result is true; other subjects and flags are untouched; a malformed setting throws after the old requests are deleted |
| OtpFunctions.OtpFunctionHandler.ExecuteAsync | src/NotificationService.Application/Services/OtpFunctionHandler.cs:25-34 | the result and the new stores are those of the dispatch specification `Execute` on the old stores |
| OtpFunctions.OtpFunctionHandler.HandleVerification | src/NotificationService.Application/Services/OtpFunctionHandler.cs:36-58 | the result and the new stores are those of `Verify` on the old stores |
| OtpFunctions.OtpFunctionHandler.HandleResetPassword | src/NotificationService.Application/Services/OtpFunctionHandler.cs:60-76 | the result and the new stores are those of `Reset` on the old stores (delete, read setting, add) |
| Otps.DeleteById | src/NotificationService.Infrastructure/Repositories/OtpRepository.cs:54-59 | exactly the rows of other subjects remain |
| Otps.DeleteByIdAndCode | src/NotificationService.Infrastructure/Repositories/OtpRepository.cs:61-66 | exactly the rows that do not match both id and code remain |
| Otps.DeleteManyByIds | src/NotificationService.Infrastructure/Repositories/OtpRepository.cs:68-73 | exactly the rows whose subject is not listed remain |
| Otps.CreateLeavesOneCode | src/NotificationService.Application/Services/OtpService.cs:17-34 | delete-then-insert leaves exactly the new code for the subject, other subjects' rows unchanged, and keeps one code per subject |
| Otps.CreateTwiceKeepsSecond | src/NotificationService.Application/Services/OtpService.cs:15-42 | creating twice for one subject leaves only the second code |
| Otps.DeleteManyIsExactAndIdempotent | src/NotificationService.Application/Services/OtpService.cs:82-85 | bulk deletion empties exactly the listed subjects and a repeat changes nothing |
| Otps.ConsumeRemovesOnlyThatCode | src/NotificationService.Application/Services/OtpService.cs:60-69 | consuming (id, code) leaves no match for it, keeps every other row and keeps one code per subject |
| Otps.NegativeExpiryIsImmediate | src/NotificationService.Application/Services/OtpService.cs:24-31 | nothing rejects a negative expiry setting: a code created under one is already expired at its creation instant |
| Otps.GenerateSixDigitCode | src/NotificationService.Application/Services/OtpService.cs:87-91 | the code is six decimal digits with no leading zero, of value in [100000, 999998] |
| Otps.ValidationResult | src/NotificationService.Application/Services/OtpService.cs:72-79 | function result true gives success with `OTP validated successfully.`, false gives failure with `Failed to execute OTP function.`, a thrown error propagates, in both directions |
| Otps.OtpService.CreateOtp | src/NotificationService.Application/Services/OtpService.cs:15-42 | the table becomes the old one without the subject's codes plus one six-digit code expiring the configured minutes after now, echoed in the response; other subjects unchanged; one code per subject preserved |
| Otps.OtpService.FindOtp | src/NotificationService.Infrastructure/Repositories/OtpRepository.cs:21-36 | a row is returned exactly when one matches id and code, and it is such a row |
| Otps.OtpService.ValidateOtp | src/NotificationService.Application/Services/OtpService.cs:44-80 | unknown type: failure response, nothing changes; no match: not-found error, nothing changes; a match is consumed; expired: expired error, function not run; otherwise the function's outcome per `ValidationResult` and its store changes |
| Otps.OtpService.DeleteManyOtp | src/NotificationService.Application/Services/OtpService.cs:82-85 | the table becomes `DeleteManyByIds` of the old one; one code per subject preserved |
| Otps.ValidateTwice | src/NotificationService.Application/Services/OtpService.cs:44-80 | a created code, once validated with an allowed type, is not found again; with an unknown type both calls return the same failure |
| Otps.InvalidTypeKeepsCode | src/NotificationService.Application/Services/OtpService.cs:46-50 | a validation with an unknown type leaves the code usable: a following `resetPassword` validation succeeds |
| Otps.ExpiredCodeIsConsumed | src/NotificationService.Application/Services/OtpService.cs:60-66 | a code validated after its expiry fails as expired and the next attempt fails as not found |
| Notifications.IsQueuedChannel | src/NotificationService.Application/Services/NotificationService.cs:32 | exactly `sms` or `email`, case-sensitive; its effect is stated by `Notifications.NotificationPipeline.ProcessNotification` |
| Notifications.ResponseFor | src/NotificationService.Application/Services/NotificationService.cs:34-42 | the response carries the stored id, retry count and request time with the caller's fields; `Notifications.IntakeThenRead` states what the caller gets back |
| Notifications.UpdateStatus | src/NotificationService.Infrastructure/Repositories/NotificationRepository.cs:69-78 | only the row with that id gets the new status and delivery time; no row is added or removed |
| Notifications.AppendKeepsOrder | src/NotificationService.Application/Services/NotificationService.cs:29-47 | appending an effect whose prerequisite (insert before publish, publish before status update) already happened keeps the effect log ordered |
| Notifications.InsertKeepsConsistent | src/NotificationService.Application/Services/NotificationService.cs:26-29 | storing a new `sent` row under a fresh identifier keeps every row under its own id, `sent` or `pushed`, and every `pushed` row queued |
| Notifications.PushKeepsConsistent | src/NotificationService.Application/Services/NotificationService.cs:32-47 | queueing an `email`/`sms` row's message and then marking it `pushed` keeps that consistency |
| Notifications.NotificationPipeline.GetById | src/NotificationService.Application/Services/NotificationService.cs:14-18 | the stored row exactly when the id is stored, otherwise `Notification not found.` |
| Notifications.NotificationPipeline.Publish | src/NotificationService.Application/Services/NotificationService.cs:44 | an accepted message is appended to the queue and logged; a refused one changes nothing |
| Notifications.NotificationPipeline.ProcessNotification | src/NotificationService.Application/Services/NotificationService.cs:20-54 | a fresh `sent` row is stored under a new id; other channels: no response, queue unchanged; `email`/`sms`: the response is queued and the row becomes `pushed`, effects logged in order; queue failure: error, row stays `sent` |
| Notifications.IntakeThenRead | src/NotificationService.Application/Services/NotificationService.cs:14-54 | after intake the notification reads back with the given fields, retry count 0, no delivery time, `pushed` exactly when queued, and the queue grew by one exactly then |
| Templates.ReplacePlaceholder | src/NotificationService.Infrastructure/Services/TemplateEngine.cs:29-30 | one `Regex.Replace`; `Templates.ReplaceJoin` proves it fills exactly the placeholders whose key matches ignoring case |
| Templates.ApplyAll | src/NotificationService.Infrastructure/Services/TemplateEngine.cs:27-31 | the `foreach` of replacements; `Templates.RenderExpands` proves it equals the reference expansion |
| Templates.Rendered | src/NotificationService.Infrastructure/Services/TemplateEngine.cs:16-34 | fails exactly when the template is null/empty or the variables are null |
| Templates.Render | src/NotificationService.Infrastructure/Services/TemplateEngine.cs:16-34 | the loop computes `Rendered`; no variables leaves the template unchanged |
| Templates.Lookup | src/NotificationService.Infrastructure/Services/TemplateEngine.cs:27-31 | none exactly when no key matches ignoring case; otherwise the value of the first matching variable |
| Templates.SkipPlain | src/NotificationService.Infrastructure/Services/TemplateEngine.cs:29-30 | text without `{` passes through one replacement unchanged |
| Templates.HoleMatches | src/NotificationService.Infrastructure/Services/TemplateEngine.cs:29-30 | `{{k}}` matches the pattern of any key equal to `k` ignoring case |
| Templates.HoleMismatch | src/NotificationService.Infrastructure/Services/TemplateEngine.cs:29-30 | `{{k}}` does not match the pattern of a plain key different from `k` ignoring case |
| Templates.ReplaceAtHole | src/NotificationService.Infrastructure/Services/TemplateEngine.cs:29-30 | a placeholder is replaced by the value when its key matches, else kept |
| Templates.ReplaceJoin | src/NotificationService.Infrastructure/Services/TemplateEngine.cs:29-30 | one replacement over a well-formed template fills exactly the placeholders whose key matches |
| Templates.ResolveWellFormed | src/NotificationService.Infrastructure/Services/TemplateEngine.cs:27-31 | filling placeholders with safe values keeps a template well-formed |
| Templates.RenderExpands | src/NotificationService.Infrastructure/Services/TemplateEngine.cs:24-33 | rendering a well-formed template with safe variables is the reference expansion: each placeholder gets the first case-insensitively matching variable, unmatched ones are kept |
| Templates.NoPlaceholderUnchanged | src/NotificationService.Infrastructure/Services/TemplateEngine.cs:24-33 | a template without `{` is rendered unchanged by any variables |
| Templates.RenderedIsExpansion | src/NotificationService.Infrastructure/Services/TemplateEngine.cs:16-34 | a non-empty well-formed template renders to its reference expansion |
| Templates.CaseInsensitiveExample | tests/NotificationService.Infrastructure.Tests/Services/TemplateEngineTests.cs:84-96 | `Code: {{CODE}}` with `code` = `789` renders `Code: 789` |
| Templates.MultipleVariablesExample | tests/NotificationService.Infrastructure.Tests/Services/TemplateEngineTests.cs:69-82 | two variables each fill their own placeholder |
| Templates.LonePlaceholder | src/NotificationService.Infrastructure/Services/TemplateEngine.cs:29-30 | a template that is one placeholder becomes the value when the keys match ignoring case, and is kept otherwise |
| Templates.ValueIsSubstitutedAgain | src/NotificationService.Infrastructure/Services/TemplateEngine.cs:27-31 | a value spelling `{{b}}` is filled by a later variable `b`, but not by an earlier one: the result depends on the order of the variables |
| Templates.UnmatchedPlaceholderKept | src/NotificationService.Infrastructure/Services/TemplateEngine.cs:27-31 | a placeholder no variable names stays as written |
| Templates.Extension | src/NotificationService.Infrastructure/Services/TemplateEngine.cs:44 | the extension is `.html` or `.txt` |
| Templates.ExtensionChoice | src/NotificationService.Infrastructure/Services/TemplateEngine.cs:44 | `.html` exactly when the type is `email` ignoring case |
| Templates.Combine | src/NotificationService.Infrastructure/Services/TemplateEngine.cs:45 | joins with one `/` between non-empty unrooted parts, adds none after a base ending in `/`, returns the other part when one is empty; a rooted second part replaces the first |
| Templates.TemplatePath | src/NotificationService.Infrastructure/Services/TemplateEngine.cs:44-45 | `<base>/<type>/<name><ext>`; characterised by `Templates.Combine`, `Templates.WrittenTemplateLoads` and `Templates.EmailTemplatePathExample` |
| Templates.LoadTemplate | src/NotificationService.Infrastructure/Services/TemplateEngine.cs:36-51 | null/empty name or type fails with that parameter's name, name first; otherwise the file at `<base>/<type>/<name><ext>` exactly when it exists, else `Template not found: <path>` |
| Templates.WrittenTemplateLoads | src/NotificationService.Infrastructure/Services/TemplateEngine.cs:44-50 | a file written at the template path is what loading reads back |
| Templates.EmailTemplatePathExample | tests/NotificationService.Infrastructure.Tests/Services/TemplateEngineTests.cs:119-129 | `test` of type `email` is read from `/templates/email/test.html`, of type `sms` from `/templates/sms/test.txt` |
| Templates.WithEntry | src/NotificationService.Infrastructure/Services/TemplateEngine.cs:65-68 | the copy holds the entry with the new value, in place if the key existed (same length) or appended; every other entry is unchanged |
| Templates.ContentEntryLookup | src/NotificationService.Infrastructure/Services/TemplateEngine.cs:65-71 | when `content` is the only key of its kind, the layout's `{{content}}` gets the rendered content and every other key sees the caller's variables |
| Templates.LookupIsFirst | src/NotificationService.Infrastructure/Services/TemplateEngine.cs:27-31 | the lookup yields the value of the first matching variable |
| Templates.RenderEmailTemplate | src/NotificationService.Infrastructure/Services/TemplateEngine.cs:53-72 | computes `EmailRendered`: layout loaded, then content, content rendered, layout rendered with `content` set |
| Templates.RenderSmsTemplate | src/NotificationService.Infrastructure/Services/TemplateEngine.cs:74-81 | computes `SmsRendered`: the `sms` template loaded and rendered |
| Templates.MissingLayoutFailsFirst | src/NotificationService.Infrastructure/Services/TemplateEngine.cs:55-59 | without a layout every e-mail fails with the layout's not-found error, whatever the content name |
| Templates.EmailWrapsContent | src/NotificationService.Infrastructure/Services/TemplateEngine.cs:53-72 | the e-mail is the layout expanded with the caller's variables plus `content` bound to the content's expansion |
| Templates.LayoutAroundContent | tests/NotificationService.Infrastructure.Tests/Services/TemplateEngineTests.cs:143-166 | a layout `header{{content}}footer` around `before{{code}}after` gives header, before, the code, after, footer |
| Templates.SmsCodeMessage | tests/NotificationService.Infrastructure.Tests/Services/TemplateEngineTests.cs:168-183 | the SMS template `before{{code}}after` gives before, the code, after |
| Templates.CallerContentKeyWins | src/NotificationService.Infrastructure/Services/TemplateEngine.cs:65-71 | a caller variable `Content` comes first and so fills the layout's `{{content}}` instead of the rendered content |
| ParamsCache.ParamsRepository.GetNotificationParams | src/NotificationService.Infrastructure/Repositories/NotificationParamsRepository.cs:19-39 | returns the current row (or null) and counts one read |
| ParamsCache.NotificationParamsService.constructor | src/NotificationService.Infrastructure/Services/NotificationParamsService.cs:17-25 | a new service starts with an empty slot over the given repository |
| ParamsCache.NotificationParamsService.GetNotificationParams | src/NotificationService.Infrastructure/Services/NotificationParamsService.cs:27-52 | hit: the cached row with no repository read; miss: exactly one read, whose result is returned and cached only when not null |
| ParamsCache.NotificationParamsService.ClearCache | src/NotificationService.Infrastructure/Services/NotificationParamsService.cs:54-58 | the slot is empty afterwards |
| ParamsCache.GetTwice | src/NotificationService.Infrastructure/Services/NotificationParamsService.cs:27-52 | two reads with a row present return the same row using at most one repository read |
| ParamsCache.GetTwiceWithoutRow | src/NotificationService.Infrastructure/Services/NotificationParamsService.cs:40-51 | a null row is not cached: two reads make two repository reads |
| ParamsCache.ClearThenGet | src/NotificationService.Infrastructure/Services/NotificationParamsService.cs:54-58 | after clearing, the next read goes to the repository and returns its current row |

## Left out

- Templates.ReplacePlaceholder: a key is a regex pattern in the source. Keys with regex metacharacters and all-digit keys (read as a quantifier) are not modelled: the scan treats every key literally, and the substitution theorem requires plain keys.
- Templates.ReplacePlaceholder: the replacement value is a regex replacement string in the source, where `$` introduces substitutions. The model inserts values literally, and the theorems require values and content literals without `$`.
- Templates.RenderExpands: the substitution theorem covers only templates whose literal text contains no `{` at all and variables whose values contain no `{` (and no `$`). An HTML layout with CSS braces is outside it. So are values that spell a placeholder, which a later variable fills again (`Templates.ValueIsSubstitutedAgain`); for those the engine's output is `ApplyAll`, and no order-independent meaning is stated.
- Templates.RenderedIsExpansion: inherits the restrictions of `Templates.RenderExpands` (no `{` in literal text or in values, no `$` in values, plain keys).
- Templates.EmailWrapsContent: states the e-mail only for a layout and a content template with no `{` in their literal text, caller values without `{` or `$`, content literals without `$`, and content whose every placeholder is named by some variable (`AllHolesFilled`). An unfilled content placeholder would survive into the layout pass and could be filled there. The order-dependent re-substitution of values is not covered.
- Text.TryParseInt32: the sign characters are fixed to `+` and `-`; the positive and negative signs of the current culture's `NumberFormatInfo` are not modelled.
- Text.ToLower: case folding is ASCII only; culture-specific and non-ASCII folding of `ToLower`, `ToLowerInvariant`, `OrdinalIgnoreCase` and `RegexOptions.IgnoreCase` are not modelled.
- Configuration.ResetExpiryMinutes: the hexadecimal and other forms `ConfigurationBinder.GetValue<int>` accepts through its type converter are not modelled; only `int.TryParse` syntax is.
- Configuration.AddMinutes: `DateTime` range overflow (`ArgumentOutOfRangeException` for huge minute counts) is not modelled; time is an unbounded tick count.
- Otps.OtpService.CreateOtp: the source reads the clock twice (expiry first, then `CreatedAt` in the constructor); the model uses one instant.
- OtpFunctions.Reset: `HandleResetPasswordAsync` also reads the clock twice (`ExpiresAt` at src/NotificationService.Application/Services/OtpFunctionHandler.cs:71, then `CreatedAt` in the `PasswordResetRequest` constructor); the model uses one instant for both.
- Entities.NewGuid: collisions of random `Guid`s are idealised away; a new id is taken to differ from every stored one.
- Otps.GenerateSixDigitCode: the distribution of `Random` (uniformity) is not modelled, only the range.
- Templates.Combine: `Path.Combine` is modelled with `/` as the only separator; Windows separators, drive roots and invalid path characters are not modelled.
- Templates.LoadTemplate: the file system is a map from path to text; file encodings, I/O errors and concurrent changes are not modelled.
- Templates.Rendered: a null template and an empty one are the same `""` (the source treats both alike); a null variables dictionary is `None`.
- ParamsCache.NotificationParamsService.GetNotificationParams: the 15-minute expiry of the cache entry and memory-pressure eviction are not modelled; an entry stays until `ClearCache`.
- The constructors' null-argument checks of `TemplateEngine` and `NotificationParamsService`, and logging, are not modelled.
- JSON serialisation of the payload (`JsonSerializer.SerializeToDocument`) is not modelled; the payload is an opaque JSON text.
- The queue collaborator (Azure Queue) is a queue that either accepts the message or throws; its transport is not modelled.
- Concurrency between requests is not modelled; each operation is atomic.
- The repositories, controllers, e-mail and SMS senders are not part of this model; the SQL statements of the repositories define the store functions above.
