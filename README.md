# LIFF approval front end — a Dafny model of its decision logic

This project models the deterministic core of a LINE LIFF mini-app's browser
front end and proves properties about it:

- the registration and forget-time form validators;
- runtime configuration resolution: the precedence of query, global and
  default values, lenient booleans, base URL normalisation and URL joining;
- the application defaults: environment, page feature and LIFF id, and the
  override merge;
- the shaping of HTTP requests and the classification of responses;
- the two approval pages: the forget-time request page and the registration
  page, each a `class` whose fields are the page's panels, titles, result view
  and state;
- the shared UI helpers: escaping, toasts, the submit button, the loading
  overlay and form error slots.

JavaScript values are modelled by `Js.Value`, a datatype with JavaScript
truthiness, `String(v)`, `Number(v)`, `||`, `??` and property reads.
`Number(v)` reads a numeral exactly and overflows to Infinity at the IEEE-754
double bound; rounding to 53 bits is not modelled (see Left out).
Every call into code outside the core is a parameter:

- the page location, the query string and `globalThis.APP_CONFIG`;
- `Date.parse` (`dateParses`) and the Thai date formatter;
- the token payload decoder (`atob`, `decodeURIComponent` and `JSON.parse`
  together);
- the clock (`now`);
- the API results (`Api.ApiResult`);
- the engine's TypeError message;
- whether `getRuntimeConfig` throws when a page calls it (`configThrows`).

Timers are recorded as the list of scheduled close delays.

Modules, one per source file, plus three shared ones:

- `Js` (JavaScript value semantics);
- `HtmlEscape` (the `replaceAll` escaping chain the three escapers share);
- `PageCommon` (the helpers the two approval pages have in common);
- `Validation`, `RuntimeConfig`, `AppConfig`, `Api`, `ApproveForget`,
  `ApproveRegister` and `Ui`.

Where the code and the intended behaviour disagree, the model follows the
code:

- `mergeData` prefers the token snapshot over the API data.
- `isIsoDate` accepts "2024-02-30".
- A 2xx response whose body is not JSON is `ok: true` with null data.
- An unrecognised `requireLogin`/`debug` query value falls back to the
  built-in default, not to the global value.

## Model

| member | source | states |
|---|---|---|
| Validation.FieldText | public/assets/js/core/validation.js:9 | `String(v \|\| "").trim()`: falsy values give "" |
| Validation.HourAlternativeMeaning | public/assets/js/core/validation.js:1 | the hour alternative of the time pattern accepts exactly the one- or two-digit hours 0..23 |
| Validation.SexagesimalPairMeaning | public/assets/js/core/validation.js:1 | `[0-5]\d` accepts exactly the two-digit values 00..59 |
| Validation.TimeRegexAtMeaning | public/assets/js/core/validation.js:1 | with a fixed hour width, the pattern matches iff the text is hour, ':', minutes and optional ':' seconds |
| Validation.TimeRegexMeaning | public/assets/js/core/validation.js:1 | the time pattern accepts a string iff it is a clock time (hour 0..23 in one or two digits, minutes and optional seconds 00..59) |
| Validation.IsIsoDate | public/assets/js/core/validation.js:79-84 | empty is rejected, the `DDDD-DD-DD` shape is accepted, anything else is accepted iff `Date.parse` succeeds |
| Validation.IsoDateShape | public/assets/js/core/validation.js:82 | `/^\d{4}-\d{2}-\d{2}$/` holds iff the text has ten characters, '-' at positions 4 and 7 and digits elsewhere |
| Validation.IsIsoDateIgnoresCalendar | public/assets/js/core/validation.js:79-84 | "2024-02-30" passes whatever the date parser says |
| Validation.NameRule | public/assets/js/core/validation.js:9-12 | a name error iff the trimmed name is empty or outside 3..30 UTF-16 units; "required" iff empty, "too short" iff non-empty and under 3, "too long" iff over 30 |
| Validation.IdCardRule | public/assets/js/core/validation.js:14-17 | an ID error iff the trimmed value is not exactly 13 decimal digits; "required" iff empty, "must be 13 digits" iff non-empty and not 13 digits |
| Validation.CompanyIdRule | public/assets/js/core/validation.js:19-22 | a company error iff `Number(companyId)` is not a positive integer (NaN and Infinity fail), always with the one message |
| Validation.DateRule | public/assets/js/core/validation.js:24-27 | a date error iff `isIsoDate` rejects the trimmed text; the required message when empty, the not-ISO message when non-empty and rejected; used for `start_date` and `date` |
| Validation.TypeRule | public/assets/js/core/validation.js:37-48 | a type error iff the trimmed type is not one of the six allowed values; "required" iff empty, "not allowed" iff non-empty and not allowed |
| Validation.TimeRule | public/assets/js/core/validation.js:54-57 | a time error iff the trimmed text is not a clock time; "required" iff empty, "bad format" iff non-empty and not a clock time |
| Validation.ReasonRule | public/assets/js/core/validation.js:59-62 | a reason error iff the trimmed reason is empty or longer than 500 units; "required" iff empty, "too long" iff longer than 500 |
| Validation.EvidenceRule | public/assets/js/core/validation.js:64-68 | null and undefined never fail; any other value fails iff its string form is longer than 65535 units |
| Validation.FailingStep | public/assets/js/core/validation.js:6-29 | checking one more field adds it to the error map iff its rule fails |
| Validation.FailingOfFour | public/assets/js/core/validation.js:6-29 | recording four independent field checks in turn yields exactly the failing fields |
| Validation.FailingOfFive | public/assets/js/core/validation.js:35-70 | the same for the five forget-time fields |
| Validation.ValidateRegister | public/assets/js/core/validation.js:5-30 | the loop's error map has exactly the failing registration fields, each with its rule's message, and no short-circuit |
| Validation.ValidateForgetTime | public/assets/js/core/validation.js:34-71 | the same for the forget-time fields |
| Validation.IsEmptyErrors | public/assets/js/core/validation.js:75-77 | true iff the map is null/undefined or has no keys |
| Validation.RegisterAcceptedIff | public/assets/js/core/validation.js:5-30 | a registration payload passes iff every field rule passes |
| Validation.ForgetTimeAcceptedIff | public/assets/js/core/validation.js:34-71 | a forget-time payload passes iff every field rule passes |
| Validation.FieldTextOfUnpadded | public/assets/js/core/validation.js:9 | unpadded text is read unchanged |
| Validation.CompanyIdOfDigits | public/assets/js/core/validation.js:19-22 | a company id given as digits passes iff its value is not zero and below the double overflow bound |
| Validation.CompanyIdAbsentOrZeroFails | public/assets/js/core/validation.js:19-22 | an absent, null, empty or zero company id fails |
| Validation.RegisterExample | public/assets/js/core/validation.js:5-30 | a short name, a three-digit ID, company id 0 and an empty date give all four errors |
| Validation.ForgetTimeExampleRules | public/assets/js/core/validation.js:37-62 | "lunch", "2024-02-30", "25:61" and an empty reason, rule by rule |
| Validation.ForgetTimeExample | public/assets/js/core/validation.js:34-71 | the same payload gives the type, time and reason errors and no date error |
| RuntimeConfig.ParseBool | public/assets/js/core/config.js:4-11 | null, undefined and "" give the fallback; booleans are returned; trimmed lower-case 1/true/yes/y give true, 0/false/no/n give false; anything else gives the fallback |
| RuntimeConfig.ParseBoolPadded | public/assets/js/core/config.js:7-8 | " YES " reads as true |
| RuntimeConfig.ParseBoolWords | public/assets/js/core/config.js:8-10 | "False" reads as false; "maybe" gives the fallback |
| RuntimeConfig.ParseBoolNumbers | public/assets/js/core/config.js:7-9 | the numbers 1 and 0 read as true and false |
| RuntimeConfig.NormalizeBaseUrl | public/assets/js/core/config.js:13-16 | falsy gives ""; a string loses exactly its trailing run of '/'; the result never ends in '/'; a truthy non-string throws (None) |
| RuntimeConfig.NormalizeBaseUrlIdempotent | public/assets/js/core/config.js:13-16 | normalising twice equals normalising once |
| RuntimeConfig.BuildApiUrl | public/assets/js/core/config.js:73-80 | empty base gives the path; empty path gives the base; an absolute path wins; otherwise base + "/" (only if needed) + path |
| RuntimeConfig.BuildApiUrlExamples | public/assets/js/core/config.js:73-80 | joins with and without slashes, an empty base and an absolute path |
| RuntimeConfig.QueryParam | public/assets/js/core/config.js:18-21 | null iff the parameter is absent; otherwise its decoded value |
| RuntimeConfig.FromGlobal | public/assets/js/core/config.js:26 | always truthy; a truthy global is kept; a falsy one reads as an empty object with no properties |
| RuntimeConfig.Warnings | public/assets/js/core/config.js:54-62 | one warning iff liffId is falsy and one iff apiBaseUrl is empty, in that order, and no others; none when both are set |
| RuntimeConfig.GetRuntimeConfig | public/assets/js/core/config.js:25-69 | the call throws iff the chosen apiBaseUrl is a truthy non-string; otherwise liffId and apiBaseUrl are the layered values, requireLogin and debug are `Flag` of the query and global values, and the warnings are those of the resolved liffId and apiBaseUrl |
| RuntimeConfig.LayeredPrecedence | public/assets/js/core/config.js:29-35 | the `??` chain of one setting: a present query value (even "") wins, then a non-nullish global value, then the fallback |
| RuntimeConfig.FlagPrecedence | public/assets/js/core/config.js:38-46 | a present query value in the true words gives true and in the false words false; any other present value gives the default; without a query value the global value is parsed |
| RuntimeConfig.LiffIdPrecedence | public/assets/js/core/config.js:29-30 | a present query value (even "") wins, then a non-nullish global value, then the default |
| RuntimeConfig.ApiBaseUrlPrecedence | public/assets/js/core/config.js:31-35 | the same precedence for apiBaseUrl, followed by normalisation |
| RuntimeConfig.FlagFallbackSkipsGlobal | public/assets/js/core/config.js:38-46 | for either flag, an unrecognised query value gives the built-in default, not the global value |
| RuntimeConfig.FlagFallbackExample | public/assets/js/core/config.js:38-41 | `?requireLogin=maybe` with a global `false` still requires login |
| RuntimeConfig.EndpointsMerge | public/assets/js/core/config.js:49-52 | every default endpoint survives; global endpoints replace only the keys they name |
| RuntimeConfig.DefaultsRaiseNoWarning | public/assets/js/core/config.js:25-69 | with no query and no global object, no warning is raised |
| AppConfig.Environment | public/config/app.config.js:30-32 | "dev" iff the hostname is exactly "localhost" |
| AppConfig.BaseUrl | public/config/app.config.js:34-36 | the local API URL iff on localhost; always a table entry |
| AppConfig.LastNonEmpty | public/config/app.config.js:42 | `findLast(Boolean) \|\| ""`: "" iff every part is empty, else the last non-empty part (every later part is empty) |
| AppConfig.DetectFeatureFromPath | public/config/app.config.js:39-48 | "register" iff the lower-cased last segment is "register", "forgetTime" iff it is "forget-time", else "default" |
| AppConfig.DetectFeatureIgnoresTrailingSlash | public/config/app.config.js:42 | a trailing slash does not change the feature |
| AppConfig.LastSegmentOf | public/config/app.config.js:42 | the segment read is the last one, whatever precedes it |
| AppConfig.DetectRegister | public/config/app.config.js:44 | any path ending in "/register" is the registration feature |
| AppConfig.DetectForgetTime | public/config/app.config.js:43-45 | "/Forget-Time" in any letter case is the forget-time feature |
| AppConfig.DetectEmptyPath | public/config/app.config.js:40-47 | the empty path is "default" |
| AppConfig.GetLiffIdAsWritten | public/config/app.config.js:51-55 | as written: no id exactly when the feature names an inherited object property |
| AppConfig.GetLiffIdAsWrittenMissesOnInheritedKey | public/config/app.config.js:53 | `getLiffId("toString")` gives no id |
| AppConfig.GetLiffId | public/config/app.config.js:51-55 | a known feature selects its row and any other feature the default row, for the current environment; the id is always a table entry |
| AppConfig.GetLiffIdAgrees | public/config/app.config.js:51-55 | the two lookups agree on every key that is not an inherited property, and on every detected feature |
| AppConfig.EndpointsOver | public/config/app.config.js:77-80 | every default endpoint is kept unless the named endpoints replace it; the keys are the union |
| AppConfig.DefaultAppConfig | public/config/app.config.js:57-67 | the five keys; liffId is the table entry for the detected feature and environment; the local or production API URL; the default endpoints, login required, no debug |
| AppConfig.Merge | public/config/app.config.js:74-86 | the spread: keys are the defaults', the user's and endpoints (and liffId when recomputed); user values win, defaults remain otherwise; endpoints and a recomputed liffId are set last |
| AppConfig.MergeNothing | public/config/app.config.js:72-89 | merging no user keys, the defaults' own endpoints and liffId gives back the defaults |
| AppConfig.MergedKeys | public/config/app.config.js:72-89 | the merged keys are the default keys plus the user's |
| AppConfig.MergedValues | public/config/app.config.js:74-81 | a user value wins for every key but `endpoints`/`liffId`; other keys keep their default |
| AppConfig.MergedLiffId | public/config/app.config.js:83-86 | a truthy user liffId is kept, otherwise it is looked up for the user's feature |
| AppConfig.MergedEndpoints | public/config/app.config.js:77-80 | merged endpoints keep every default key and take the user's for the keys it names |
| AppConfig.MergedWithoutOverrides | public/config/app.config.js:72-73 | falsy overrides leave the defaults unchanged |
| Api.PrepareHeaders | public/assets/js/core/api.js:17-26 | caller headers are copied; `Authorization: Bearer <token>` iff the token is truthy; `Accept` is set to JSON only when absent |
| Api.PrepareBodyAndHeaders | public/assets/js/core/api.js:29-49 | on a copy: FormData drops Content-Type and passes the body; other bodies get a JSON Content-Type only when absent; nullish gives no body; others are stringified |
| Api.LooksLikeSuccess | public/assets/js/core/api.js:56-61 | an array always looks successful; an object iff its status is "success" or its data is an array; any other value never |
| Api.ReadJsonSafe | public/assets/js/core/api.js:6-14 | null unless the content type contains application/json; a parse failure gives null |
| Api.FailureMessage | public/assets/js/core/api.js:67-69 | always truthy: the first truthy of message, error, msg, else "Request failed (status)" |
| Api.HandleResponse | public/assets/js/core/api.js:52-74 | ok iff 2xx or the 304 soft success; ok iff no error; 2xx data is the parsed JSON; the 304 payload is the array or `data \|\| json`; failures keep the JSON |
| Api.FailuresCarryAnError | public/assets/js/core/api.js:55-71 | every failed response carries a truthy error |
| Api.SuccessWithoutJson | public/assets/js/core/api.js:53-73 | a 2xx without a JSON body is still ok, with null data |
| Api.SoftSuccessExample | public/assets/js/core/api.js:56-64 | a 304 with status "success" and array data is ok with the array as payload |
| Api.ServerErrorExample | public/assets/js/core/api.js:67-70 | a 500 with `{error}` fails with that error and keeps the body |
| Api.GenericFailureExample | public/assets/js/core/api.js:67-70 | a 404 without a body fails with "Request failed (404)" |
| Api.TransportFailure | public/assets/js/core/api.js:99-106 | status 0, null data, not ok; the error is the thrown Error's message, or its name when the message is empty; for other thrown values the truthy `message` property or `String(err)` |
| Api.TransportFailureExamples | public/assets/js/core/api.js:99-106 | a fetch TypeError reports its message, an AbortError without a message its name, a thrown string itself |
| PageCommon.ReplaceAllByChar | public/assets/js/pages/approve-forget.js:18 | replacing one character by another keeps the length and changes only that character |
| PageCommon.Base64UrlToBase64Charwise | public/assets/js/pages/approve-forget.js:18 | '-' becomes '+', '_' becomes '/', other characters and the length are kept |
| PageCommon.DecodeToken | public/assets/js/pages/approve-forget.js:15-32 | any token with at least two '.'-separated segments is the decoder's reading of the translated second segment (null when it fails); a token without '.' gives null |
| PageCommon.DecodeTokenReadsPayload | public/assets/js/pages/approve-forget.js:17-28 | for a two- or three-part token, the payload segment is what is decoded |
| PageCommon.EscapeHtml | public/assets/js/pages/approve-forget.js:35-43 | falsy gives ""; otherwise no raw `<`, `>`, `"` or `'` remains and decoding the entities gives back `String(str)` |
| HtmlEscape.EscapeChainIsCharwise | public/assets/js/pages/approve-register.js:244-252 | with '&' replaced first, the chain escapes each special character as exactly one entity |
| HtmlEscape.EscapeEachNoRawMarkup | public/assets/js/core/ui.js:207-214 | escaped text holds no raw markup character |
| HtmlEscape.UnescapeEscapeEach | public/assets/js/core/ui.js:207-214 | decoding the escaped text gives back the original |
| HtmlEscape.Escape | public/assets/js/core/ui.js:208-213 | the chain equals character-wise escaping, has no raw markup and is undone by decoding |
| ApproveForget.TextOf | public/assets/js/pages/approve-forget.js:46-49 | falsy text shows "-", other text its string form |
| ApproveForget.ErrorTitleFor | public/assets/js/pages/approve-forget.js:250-253 | the "link expired" title iff the message contains "หมดอายุ" |
| ApproveForget.MergeData | public/assets/js/pages/approve-forget.js:236-247 | keys are the API keys plus the six display fields and status; status from the API; each display field is `snapshot?.f \|\| apiData.f`; other API fields kept; nullish API data throws |
| ApproveForget.SnapshotWins | public/assets/js/pages/approve-forget.js:239-244 | a truthy snapshot field wins over the API value |
| ApproveForget.MergeWithoutSnapshot | public/assets/js/pages/approve-forget.js:236-247 | without a snapshot the API object comes back as it was |
| ApproveForget.FetchRequestInfo | public/assets/js/pages/approve-forget.js:222-233 | throws iff the call failed or its data is nullish, with the API error or the fallback; else `data.data \|\| data` |
| ApproveForget.Markup | public/assets/js/pages/approve-forget.js:116-121 | two texts for every view, none without; every text is escaped, and decoding gives back the title and message, or the employee name and date (`""` when falsy) |
| ApproveForget.SnapshotInfo | public/assets/js/pages/approve-forget.js:211-219 | only the fields truthy in the snapshot are overwritten |
| ApproveForget.StatusState | public/assets/js/pages/approve-forget.js:84-95 | "pending" offers the decision, "approved"/"rejected" is already processed, anything else is an error |
| ApproveForget.InitializedStates | public/assets/js/pages/approve-forget.js:384-404 | initialisation ends in decision, processed or error; a decision only for a token, a successful call and a pending request |
| ApproveForget.Page.constructor | public/assets/js/pages/approve-forget.js:384 | the page starts with nothing requested |
| ApproveForget.Page.ShowLoading | public/assets/js/pages/approve-forget.js:61-68 | only the loading panel shows, with the loading title and subtitle |
| ApproveForget.Page.ShowResult | public/assets/js/pages/approve-forget.js:99-107 | only the result panel shows, with the view and one close scheduled |
| ApproveForget.Page.ShowSuccess | public/assets/js/pages/approve-forget.js:99-133 | the success view, closing after 3 s |
| ApproveForget.Page.ShowAlreadyProcessed | public/assets/js/pages/approve-forget.js:136-174 | the processed view (approved or not, name, date), closing after 5 s |
| ApproveForget.Page.ShowError | public/assets/js/pages/approve-forget.js:177-208 | the error view, closing after 3 s |
| ApproveForget.Page.HandleError | public/assets/js/pages/approve-forget.js:250-253 | the error view titled by the expiry marker |
| ApproveForget.Page.DisplaySnapshot | public/assets/js/pages/approve-forget.js:211-219 | the info fields become `SnapshotInfo` of the old ones and the info panel shows |
| ApproveForget.Page.ShowInfo | public/assets/js/pages/approve-forget.js:70-96 | the info is the data's; the state is `StatusState` of the data; pending gets the review titles, processed the processed view, title and 5 s close, anything else the failed title |
| ApproveForget.Page.ShowStatus | public/assets/js/pages/approve-forget.js:83-95 | the status branch alone, with the same titles, views and timers per state |
| ApproveForget.Page.Initialize | public/assets/js/pages/approve-forget.js:384-404 | a `getRuntimeConfig` throw leaves the page untouched; otherwise the state is `InitializedState`; no token shows the missing-token error, closes after 3 s and requests nothing; a token requests the info, binds the buttons and shows the outcome: a thrown error with its title, or the merged data's details with the review titles, the processed view (5 s close) or the invalid-status error (3 s close) |
| ApproveForget.Page.LoadRequest | public/assets/js/pages/approve-forget.js:391-403 | with a token: the info is requested, the buttons bound, and the page shows the outcome of the token's request as above |
| ApproveForget.Page.ShowLoadingSnapshot | public/assets/js/pages/approve-forget.js:391-395 | the loading panel; the snapshot is the decoded token, and a truthy one overwrites the info fields it names; no close is scheduled |
| ApproveForget.Page.ShowRequest | public/assets/js/pages/approve-forget.js:396-401 | the `try`/`catch`: a failed fetch or merge shows the error titled by its message and closes after 3 s; merged data is shown as `showInfo` shows it |
| ApproveForget.Page.ProcessRequest | public/assets/js/pages/approve-forget.js:409-437 | success shows the action's message and closes; failure shows a toast and returns to the decision |
| ApproveRegister.MaskString | public/assets/js/pages/approve-register.js:36 | the length and characters 0-2 and 9.. are kept; 3-8 become 'x' |
| ApproveRegister.MaskIDCard | public/assets/js/pages/approve-register.js:34-37 | falsy or short input comes back unchanged, objects whose `length` converts below 13 included; long strings are masked; any other value throws |
| ApproveRegister.MaskIDCardExample | public/assets/js/pages/approve-register.js:34-37 | "1234567890123" masks to "123xxxxxx0123" |
| ApproveRegister.MaskIDCardObjects | public/assets/js/pages/approve-register.js:35 | `{length: 5}` and `{length: null}` come back unchanged; `{length: 13}` and `{}` throw |
| ApproveRegister.MaskIDCardNumericLength | public/assets/js/pages/approve-register.js:35 | `{length: "3"}` comes back unchanged, its length converted by `Number` |
| ApproveRegister.MaskIdempotent | public/assets/js/pages/approve-register.js:34-37 | masking a masked number changes nothing |
| ApproveRegister.StartDateText | public/assets/js/pages/approve-register.js:40-48 | "-" for a falsy date or an empty formatted one; never empty |
| ApproveRegister.CheckToken | public/assets/js/pages/approve-register.js:322-342 | no token, an undecodable one, an expired one (truthy `exp` with `ExpiredBefore`) and a valid payload, each exactly in its case |
| ApproveRegister.ExpiredBefore | public/assets/js/pages/approve-register.js:334 | `exp * 1000 < now` on `Number(exp)`: NaN never expires, Infinity iff negative, an integer iff its seconds times 1000 are before now |
| ApproveRegister.NoExpiryWithoutExp | public/assets/js/pages/approve-register.js:334 | a payload without `exp` never expires |
| ApproveRegister.ExpiryGate | public/assets/js/pages/approve-register.js:334 | `exp` seconds before now expire the link; at or after now they do not |
| ApproveRegister.ApproveBody | public/assets/js/pages/approve-register.js:277-288 | always token and action; reason only when truthy |
| ApproveRegister.HandleActionSendsNoReason | public/assets/js/pages/approve-register.js:304 | the approve call from `handleAction` carries no reason |
| ApproveRegister.StatusOutcomeOf | public/assets/js/pages/approve-register.js:345-360 | reading `data.data \|\| data`: error iff not ok (API error or the fallback); approved notice iff ok, registered, with user data whose ID masks; decision iff ok, not registered and the token's ID masks; throws iff ok and the data is nullish, the registered user data is missing, or the ID cannot be masked |
| ApproveRegister.Markup | public/assets/js/pages/approve-register.js:117-236 | 2, 3 or 1 texts for the success, approved and error views, none without; each escaped and decoding back to the title and message, the name, masked ID and start date, or the error |
| ApproveRegister.Page.constructor | public/assets/js/pages/approve-register.js:379 | the page starts with nothing requested |
| ApproveRegister.Page.ShowLoading | public/assets/js/pages/approve-register.js:68-75 | only the loading panel shows, with the loading title and subtitle |
| ApproveRegister.Page.ShowError | public/assets/js/pages/approve-register.js:208-241 | the error view, no close scheduled |
| ApproveRegister.Page.ShowSuccess | public/assets/js/pages/approve-register.js:94-136 | the success view; a close only for a positive number of seconds |
| ApproveRegister.Page.ShowAlreadyApproved | public/assets/js/pages/approve-register.js:139-205 | the approved notice with masked ID, closing after 3 s; throws on missing user data or a failing mask |
| ApproveRegister.Page.ShowActionPage | public/assets/js/pages/approve-register.js:78-91 | the decision with name, masked ID and start date; throws when masking fails |
| ApproveRegister.Page.SetButtonsDisabled | public/assets/js/pages/approve-register.js:255-260 | the buttons take the given disabled flag |
| ApproveRegister.Page.ValidateToken | public/assets/js/pages/approve-register.js:322-342 | an accepted payload is returned with the page untouched; otherwise null and the check's error |
| ApproveRegister.Page.HandleStatusResponse | public/assets/js/pages/approve-register.js:345-360 | the page follows `StatusOutcomeOf`: the decision shows the user's name, masked ID and start date with the review titles and no close; the notice shows the approved view and closes after 3 s; an error shows the failed title; listeners only with the decision |
| ApproveRegister.Page.Init | public/assets/js/pages/approve-register.js:379-395 | a refused token shows its message and stops before any status request; a `getRuntimeConfig` throw shows the connection error; otherwise the status is requested and the page shows the outcome: the decision with the user's name, masked ID and start date and listeners added, the approved notice closing after 3 s, the API error, or the connection error when handling throws; no other close is scheduled |
| ApproveRegister.Page.CheckStatus | public/assets/js/pages/approve-register.js:388-394 | the `try`/`catch` of `init`: a `getRuntimeConfig` throw shows the connection error with no request; otherwise the status is requested and the page shows its outcome as above |
| ApproveRegister.Page.HandleAction | public/assets/js/pages/approve-register.js:293-319 | no token: an error and no request; otherwise one approve call and the buttons left disabled; success shows the action's message and closes after 5 s; failure shows the API error or the fallback and schedules no close |
| Ui.EscapeHtml | public/assets/js/core/ui.js:207-214 | every value is stringified first; no raw markup remains; decoding gives back `String(value)` |
| Ui.NoFalsyShortcut | public/assets/js/core/ui.js:207-208 | null escapes to "null" here and to "" in the approval pages |
| Ui.CssEscape | public/assets/js/core/ui.js:202-204 | every '"' is preceded by a backslash; quote-free text is unchanged; a key without backslash or newline reads back inside the selector |
| Ui.QuotesEscaped | public/assets/js/core/ui.js:202-204 | after the replacement every '"' is preceded by a backslash |
| Ui.CssStringOfEscaped | public/assets/js/core/ui.js:196-204 | a key without backslash or newline, escaped and followed by the closing quote, is read back by the CSS string tokenizer exactly, leaving the rest of the selector |
| Ui.CssStringOfCorrected | public/assets/js/core/ui.js:196-204 | with backslashes escaped first, every newline-free key is read back exactly |
| Ui.CssEscapeAsWrittenMisreadsKey | public/assets/js/core/ui.js:196-204 | the key `a\` is read back as `a"]`: the string swallows the closing quote and bracket |
| Ui.CssEscapeNewlineKeyIsBadString | public/assets/js/core/ui.js:196-204 | a key holding a newline leaves it raw in the selector's string, which the CSS tokenizer rejects as a bad string |
| Ui.CssEscapeCorrected | public/assets/js/core/ui.js:196-204 | with backslashes escaped too, every newline-free key reads back exactly |
| Ui.ToastStyleOf | public/assets/js/core/ui.js:26-39 | success, error and warning give the green, red and yellow border and icon; any other type the slate border and no icon |
| Ui.UnknownToastTypesLookAlike | public/assets/js/core/ui.js:26-39 | all unknown types, a missing one included, share one style |
| Ui.ToastTexts | public/assets/js/core/ui.js:43-53 | the escaped title (`title \|\| ""`) and, only for a truthy message, the escaped message |
| Ui.LoadingButton | public/assets/js/core/ui.js:104-117 | disabled = loading; the default text is recorded only when unset; the span fades while loading |
| Ui.LoadingKeepsDefaultText | public/assets/js/core/ui.js:107-110 | once recorded, the default text is never overwritten |
| Ui.LoadingSpinner | public/assets/js/core/ui.js:120-129 | hidden iff not loading; display "flex" iff loading, else "none" |
| Ui.GlobalLoaderAsWrittenLosesSpinner | public/assets/js/core/ui.js:136-139 | `div > div` finds the overlay's column, so re-showing it replaces the spinner with bare text |
| Ui.RefreshedShowsMessage | public/assets/js/core/ui.js:136-160 | writing to the message element leaves the overlay as a fresh one showing the new message |
| Ui.TextContent | public/assets/js/core/ui.js:197 | assigning null or undefined clears the text |
| Ui.WithErrors | public/assets/js/core/ui.js:195-198 | each slot keeps its field; only the first slot of a field with an entry changes |
| Ui.WithErrorsShowsEachEntry | public/assets/js/core/ui.js:195-198 | every entry with a slot shows its message in the first one; every other slot is unchanged |
| Ui.WithErrorsIgnoresUnmatched | public/assets/js/core/ui.js:196-197 | an entry without a matching element changes nothing |
| Ui.Cleared | public/assets/js/core/ui.js:181-188 | every error slot is emptied |
| Ui.ClearedThenErrors | public/assets/js/core/ui.js:181-199 | after clearing, a slot shows a message iff it is the first for a field with an entry |
| Ui.WithErrorsStep | public/assets/js/core/ui.js:195-198 | one more entry writes only the first slot for its field |
| Ui.Document.constructor | public/assets/js/core/ui.js:134 | a page with the given elements and no overlay |
| Ui.Document.ShowToast | public/assets/js/core/ui.js:19-88 | no container: nothing; otherwise one toast with the chosen style, removing itself iff the duration (default 3000) is positive |
| Ui.Document.ShowBanner | public/assets/js/core/ui.js:91-93 | a toast with the default duration |
| Ui.Document.SetLoading | public/assets/js/core/ui.js:101-130 | the button becomes `LoadingButton` and the spinner `LoadingSpinner` of `Boolean(isLoading)`, where present |
| Ui.Document.ShowGlobalLoader | public/assets/js/core/ui.js:134-173 | exactly one overlay afterwards, shown, with spinner and message; the style element is injected once |
| Ui.Document.HideGlobalLoader | public/assets/js/core/ui.js:175-178 | the overlay, if any, gets display "none"; nothing otherwise |
| Ui.Document.ClearFormErrors | public/assets/js/core/ui.js:181-188 | a missing form: nothing; otherwise its slots become `Cleared` |
| Ui.Document.SetFormErrors | public/assets/js/core/ui.js:191-199 | a missing form or falsy errors: nothing; otherwise the form's slots become `WithErrors` of the entries |

## Left out

- liff.js, register.js and forgetTime.js are not part of this model. They
  are wrappers over the LIFF SDK and page orchestration through dayjs.
- I/O and foreign calls are parameters:
  - `fetch` and `res.json`;
  - `atob`, `decodeURIComponent` and `JSON.parse`;
  - `Date.parse`, `Date.now` and `toLocaleDateString`;
  - `URLSearchParams` decoding: the query is given as a map of decoded values.
- The `apiRequest` wiring is not modelled; only its helpers and its catch
  branch are. It passes the whole `{requestBody, requestHeaders}` object as
  the fetch body, sends the headers before Content-Type is set, and reads
  `idToken` where callers pass `accessToken`.
- Timers and animation are recorded as scheduled delays or flags and never
  run:
  - the window auto-close;
  - toast removal and `requestAnimationFrame`;
  - the confirmation modal and its fade and focus timers.
- Markup is not modelled: HTML templates, icons, class names, the initial
  page markup and event-listener registration. What remains is the escaped
  texts, the panels shown and the resulting state.
- The module-level write of `globalThis.APP_CONFIG` is not modelled.
- Missing DOM elements are not modelled. The pages and the loader assume
  their elements exist; the toast container, the button, the spinner and the
  forms may be absent.
- Js.ToStr: prints non-integral numbers as a placeholder. Number
  formatting of fractions and exponents is outside the model.
- Js.SpreadOf: spreading or `Object.entries` of a string or an array gives
  no properties here. Property reads on primitives (`"abc".length`) give
  undefined.
- Js.ToLower: lower-cases ASCII letters only.
- Js.ToNumber: a numeral is read exactly and not rounded to 53 bits, so
  "1.0000000000000001" is not an integer here and large finite values below
  the overflow bound keep every digit. Overflow to Infinity is modelled.
- Validation.CompanyIdRule: inherits the missing 53-bit rounding, so a
  company id such as "1.0000000000000001" fails here where the source
  accepts it.
- ApproveRegister.MaskString: indexes characters, not UTF-16 units, so the
  result differs from the source for IDs with characters outside the BMP.
- ApproveRegister.Page.HandleAction: does not model `getRuntimeConfig`
  throwing inside `callApproveApi`, which the source reports as a
  connection error.
- Api.PrepareBodyAndHeaders: the FormData test is a constructor of the body
  datatype. `JSON.stringify` is recorded as the value to be stringified,
  not as text.
- Ui.Document.ShowGlobalLoader: follows the corrected refresh (see
  Findings), so a re-shown overlay keeps its spinner.
- Ui.Document.ShowGlobalLoader: takes the message as a string that the
  caller always supplies; the default message `"กำลังเชื่อมต่อ..."` used
  when the argument is omitted is not modelled.
- Ui.Document.SetFormErrors: finds a field's slot by comparing the key
  itself, which is what the corrected selector escape achieves. For a key
  ending in a backslash the source most likely looks up a different key and
  silently drops the message (see Findings). A key holding a CSS newline
  (LF, CR or form feed) is not modelled either: the source's selector does
  not parse (see Ui.CssEscapeNewlineKeyIsBadString), `querySelector` throws
  a SyntaxError, and the entries after it are never written, whereas this
  member writes every entry and never fails.
- Ui.CssString: reads only the CSS string escapes the two escapers
  produce. Hex escapes, escaped newlines and raw newlines give None; the end
  of input ends the string, as CSS Syntax Module Level 3 section 4.3.5 does.
- AppConfig.GetLiffId: the rest of the model uses this corrected lookup
  (see Findings).

## Findings

| source | as written | input that shows it | evidently intended | confidence | as-written member | corrected member |
|---|---|---|---|---|---|---|
| public/config/app.config.js:53 | `LIFF_IDS[usedFeature]` also finds the properties every object inherits, which are truthy, so the fallback to the default row is skipped and the id is undefined | `getLiffId("toString")` | an unknown feature falls back to the default row | not executed; high | AppConfig.GetLiffIdAsWrittenMissesOnInheritedKey | AppConfig.GetLiffId |
| public/assets/js/core/ui.js:202-204 | `cssEscape` escapes quotes but not backslashes, so a key ending in `\` escapes the selector's closing quote; the string runs to the end and is read as `a"]`, so `querySelector` most likely finds nothing and the message is silently dropped | `setFormErrors(id, {"a\\": "x"})`, i.e. the key `a\` | the key reads back unchanged inside `[data-error-for="…"]` | not executed; low impact, since the keys in this repository are plain field names | Ui.CssEscapeAsWrittenMisreadsKey | Ui.CssEscapeCorrected |
| public/assets/js/core/ui.js:138-139 | re-showing the overlay writes the message to the first `div > div` inside it, which is the column holding the spinner and the message element, so the spinner disappears | `showGlobalLoader("a"); hideGlobalLoader(); showGlobalLoader("b")` | only the message element's text changes | not executed; high | Ui.GlobalLoaderAsWrittenLosesSpinner | Ui.RefreshedShowsMessage |
