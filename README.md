# Android Template Generator: submission controller and download pipeline

The Android Template Generator is a browser front end. The user picks a template tier,
names the project and its package, chooses a few libraries and asks a server for a
generated project archive, which the browser then saves. This project models the two parts
of it that hold logic, and proves what they guarantee.

- **network/templates.ts, in `templates.dfy` (module `Templates`).**
  - `generateTemplate`:
    - a non-2xx response yields a message from its body;
    - the `Content-Disposition` filename comes from a leftmost scan of the header's
      regular expression, with the `filename*=UTF-8''` form of RFC 5987 section 3.2 and the
      plain form of RFC 6266 section 4.1;
    - an absent or empty body is an error;
    - the outer catch turns every foreign error into a `TemplateGenerationError`.
  - `generateTemplate` is the method `GenerateTemplate`. It is proved equal to the
    function `GenerateOutcome`, whose contract and lemmas state the guarantees.
  - `downloadBlob` is the method `Browser.DownloadBlob`. It runs the ordered checks, then
    acquires one object URL and releases it as the `finally` block does. The class
    `Browser` records the URLs created, the URLs revoked and the files handed over for
    saving, so "no URL leaks" and "no URL on a failed check" are statements about that
    state.
- **components/template-generator.tsx, in `template_generator.dfy` (module `Generator`).**
  - The class `TemplateGenerator` holds the component's state hooks. Its methods are the
    handlers: tier selection gated by `templateStatus`, typing into a field, the library
    radio groups, `toggleFeature`, `validateInputs`, `clearErrors` and Cancel,
    `handleDownload` and `handleRetry`.
  - `handleDownload` is proved against the function `Submit`, which composes:
    - the validation rules (`ProjectNameError`, `PackageNameError`);
    - the request built from the form (`BuildRequest`, `DependencyList`);
    - `GenerateOutcome` and `DownloadOutcome`;
    - the code-to-message switch (`UserMessage`).
  - The regular expressions of `validateInputs` are written as recursive matchers that
    follow the expression. Each is proved equal to a declarative description of the
    accepted names (`ProjectNameShape`, `PackageNameShape`).
  - Each handler modifies only the fields its source handler sets. For example,
    `HandleDownload` cannot touch `retryCount`.
- **`js_string.dfy` (module `JsString`)** states the JavaScript string operations used:
  `trim` with ECMAScript's exact whitespace set, `includes`, ASCII `toLowerCase`, and the
  decimal rendering of a number.
- **`wrappers.dfy`** holds `Option`, `Result` and `Outcome`.

The foreign parts are:

- Values:
  - the response: its status, the two headers (absent or text), the body as text
    (`response.text()`, which may throw) and the body as a blob (`response.blob()`, which
    may be null or throw);
  - whether `URL.createObjectURL` exists;
  - how the anchor steps go.
- Function-valued fields of `Host`: `JSON.parse` (with the reading of `message` and
  `error`) and `decodeURIComponent`.

In a few places the code does something other than a reader might expect. The model
follows the code:

- Filename extraction takes the leftmost position where either alternative of the regular
  expression matches. It does not try the extended form over the whole header first. With
  `filename="a"; filename*=UTF-8''b` the name is `a` (`Templates.PlainBeforeExtendedWins`).
- A 2xx response with an empty or null body, once the filename has resolved, fails with
  "Received empty file from server".
  That error has the response status and no code, so the banner shows this raw text and not
  the fixed INVALID_BLOB text (`Templates.EmptyBodyHasNoCode`,
  `Generator.EmptyFileShowsRawText`).
- Only Cancel (`clearErrors`) resets the retry counter. `handleDownload`, editing a field
  and closing the dialog through `onOpenChange` (Escape, the overlay) leave the counter as
  it is. `handleDownload` does clear the banner and the field errors before it starts, and
  editing a field clears that field's error. Closing through `onOpenChange` leaves the
  banner in place, so it is still shown when the dialog opens again.
- The server's `message` or `error` field is handed to the `TemplateGenerationError`
  constructor as it is. A field that is truthy but not a string is converted by the
  `Error` constructor. When that conversion throws, the outer catch turns the failure
  into UNKNOWN_ERROR with no status (`Templates.UnprintableFieldLosesStatus`).
- The length limits are inclusive. A trimmed project name of exactly 50 characters and a
  package name of exactly 100 pass, although the messages say "less than".

## Model

| member | source | states |
|---|---|---|
| `Templates.WrapGenerateError` | network/templates.ts:88-107 | a foreign error becomes NETWORK_ERROR (fixed message, no status) exactly when it is a TypeError whose message includes "fetch"; otherwise UNKNOWN_ERROR with "Unexpected error: " and the thrown message, and never a status |
| `Templates.MalformedEncodingIsUnknown` | network/templates.ts:102-107 | a URIError thrown by decodeURIComponent ends as UNKNOWN_ERROR, not as a network error |
| `Templates.FailedToFetchIsNetworkError` | network/templates.ts:94-100 | the TypeError "Failed to fetch" is recognised as NETWORK_ERROR |
| `Templates.BlankIffEmptyText` | network/templates.ts:52-55 | a derived message is blank only when it is a server's own empty text |
| `Templates.StatusTextsDistinct` | network/templates.ts:43 | different statuses give different "Request failed with status N" messages |
| `Templates.ThrownMessage` | network/templates.ts:104 | the message of a thrown Error, or "Unknown error occurred" for any other thrown value (a definition, used by the two wrappers) |
| `Templates.IsOk` | network/templates.ts:42 | `response.ok`: the status is in 200-299 (a definition) |
| `Templates.ErrorMessage.Text` | network/templates.ts:43-151 | the message string of each error kind: the status text, the server's text, the empty-file text, the connectivity text, "Unexpected error: " plus a message, and downloadBlob's texts (a definition) |
| `Templates.ServerErrorMessage` | network/templates.ts:42-62 | an unreadable or empty body gives the status message; a non-JSON body gives its raw text; a JSON body gives its truthy `message`, else its truthy `error`, else the raw text; a chosen field whose conversion to text throws makes the whole derivation fail with that thrown value; a blank message comes only from a parsed JSON body |
| `Templates.LiteralAt` | network/templates.ts:68 | a literal of the pattern occurs at a position, letters compared without case as the `i` flag does (a definition) |
| `Templates.RunLength` | network/templates.ts:68 | a greedy run of characters outside the stop set: every character in it is allowed, and it ends at the end of the text or at a stop character |
| `Templates.ExtendedMatchAt` | network/templates.ts:68 | what the first alternative captures is non-empty and contains no `;` |
| `Templates.PlainMatchAt` | network/templates.ts:68 | what the second alternative captures is non-empty and contains neither `;` nor a quote |
| `Templates.MatchAt` | network/templates.ts:68 | a capture at one position, first alternative before the second, is non-empty and contains no `;` |
| `Templates.FirstSome` | network/templates.ts:68 | the scan finds nothing exactly when no position from the start on matches, and what it finds is the match at some position |
| `Templates.LeftmostSome` | network/templates.ts:68 | the scan returns the match at the leftmost matching position |
| `Templates.FindFilename` | network/templates.ts:68-69 | no filename exactly when the pattern matches nowhere in the header; a found one is non-empty and has no `;` |
| `Templates.LeftmostMatch` | network/templates.ts:68 | the header's filename is the capture at its leftmost matching position |
| `Templates.NoMatchWithoutF` | network/templates.ts:68 | the pattern cannot match at a character other than f or F |
| `Templates.QuotedValueAt` | network/templates.ts:68 | at `filename="v"` the capture is exactly v |
| `Templates.QuotedFilename` | network/templates.ts:68-70 | the header `attachment; filename="v"` yields v for every non-empty v without `;` or a quote |
| `Templates.ExtendedValueAt` | network/templates.ts:68 | at `filename*=UTF-8''v` running to the end of the header the capture is exactly v |
| `Templates.ExtendedFilename` | network/templates.ts:68-70 | the header `attachment; filename*=UTF-8''v` yields v, still percent-encoded, for every non-empty v without `;` |
| `Templates.PlainBeforeExtendedWins` | network/templates.ts:68 | a plain parameter that comes before an extended one wins, because the leftmost match is taken |
| `Templates.RunOfValue` | network/templates.ts:68 | a value free of stop characters and followed by one, or by the end, is exactly the greedy run |
| `Templates.ResolveFilename` | network/templates.ts:65-73 | with no match, including a missing header, the name is the project name plus ".zip"; with a match the captured value goes through decodeURIComponent, whose decoded text is the name and whose thrown error is the failure, so the name fails exactly when the decoder throws |
| `Templates.GenerateOutcome` | network/templates.ts:28-109 | an error has a status exactly when it has no code; its only codes are NETWORK_ERROR and UNKNOWN_ERROR; its status is the response's; success needs a 2xx response with a non-empty blob and reports that blob, the status, the Content-Type header or "" when it is absent, and the name `ResolveFilename` gives; a fetch that rejects, and a `blob()` that throws on a 2xx response once the filename has resolved, end as the outer catch's `WrapGenerateError` of the thrown value; the remaining failure paths, a throwing filename decode on a 2xx response and a throwing message derivation on a non-2xx one, are stated by `DecodeFailureBeforeBody` and `NonOkCarriesStatus` |
| `Templates.FetchRejectionIsNetworkError` | network/templates.ts:88-100 | a fetch that rejects with a TypeError whose message includes "fetch" ends as NETWORK_ERROR with the fixed connectivity message and no status |
| `Templates.GenerateTemplate` | network/templates.ts:28-109 | the step-by-step client, with its mutable message and early throws, has exactly the outcome `GenerateOutcome` states |
| `Templates.EmptyBodyHasNoCode` | network/templates.ts:65-80 | a 2xx response with a null or zero-size blob, once the filename has resolved, fails with "Received empty file from server", the status, and no code |
| `Templates.NonOkCarriesStatus` | network/templates.ts:42-107 | a non-2xx response whose message can be derived fails with that message, its status and no code, whatever its headers hold; when deriving it throws (through `message` or `error`), it fails as the outer catch's `WrapGenerateError` of the thrown value |
| `Templates.DecodeFailureBeforeBody` | network/templates.ts:65-107 | on a 2xx response a filename decode that throws gives the outer catch's wrapping of that error whatever the blob is, because the name is resolved before `blob()` is called |
| `Templates.UnprintableFieldLosesStatus` | network/templates.ts:50-62 | a non-2xx response whose JSON `message` field cannot be converted to text ends as the outer catch's wrapping of that error, with no status |
| `Templates.OkResponseFailsOnlyInDecoding` | network/templates.ts:65-87 | a 2xx response with a non-empty blob fails exactly when resolving the filename fails, and then with the outer catch's wrapping of the decoder's error |
| `Templates.QuotedFilenameRoundTrip` | network/templates.ts:65-87 | a 200 response with `attachment; filename="v"` and a non-empty blob gives that blob, the name v, the content type (or "") and status 200 |
| `Templates.FallbackFilename` | network/templates.ts:66-73 | without a Content-Disposition header the name is the payload's project name plus ".zip", and the call succeeds |
| `Templates.WrapDownloadError` | network/templates.ts:142-151 | a foreign error in the download becomes DOWNLOAD_ERROR with no status and "Failed to download file: " plus the thrown message |
| `Templates.DownloadGuardsPass` | network/templates.ts:114-125 | the three checks of downloadBlob pass: a blob, a filename that is not blank once trimmed, and createObjectURL available (a definition, used by the contracts below) |
| `Templates.DownloadOutcome` | network/templates.ts:111-153 | the checks come in order (no blob, then a blank filename, then no createObjectURL), each with its code; past them only a throwing anchor step fails, as DOWNLOAD_ERROR; every failure has no status and one of the four codes |
| `Templates.AfterDownload` | network/templates.ts:111-153 | the browser's log after downloadBlob: it is unchanged exactly when a check fails, and no object URL is left live |
| `Templates.CreateThenRevoke` | network/templates.ts:127-141 | creating one URL and revoking it leaves the set of live URLs as it was |
| `Templates.RevokesOnlyCreated` | network/templates.ts:127-141 | every revoked URL is one that was created; it is `Browser.Valid()`, carried as an invariant by every browser and controller method, and no other contract draws on it (a definition) |
| `Templates.AfterDownloadRevokesOnlyCreated` | network/templates.ts:127-141 | downloadBlob revokes only the URL it created, so it keeps `RevokesOnlyCreated` |
| `Templates.Browser.CreateObjectUrl` | network/templates.ts:127 | the new URL is the next index and is bound to the blob |
| `Templates.Browser.RevokeObjectUrl` | network/templates.ts:140 | the URL is added to the revoked list |
| `Templates.Browser.ClickAnchor` | network/templates.ts:130-137 | a save of the URL's blob under the filename is started exactly when the click happens; a throwing step is reported |
| `Templates.Browser.DownloadBlob` | network/templates.ts:111-153 | the result is `DownloadOutcome`; a failed check creates no URL and saves nothing; past the checks exactly one URL is created for the blob and exactly it is revoked, on every path, and the file is saved under the filename when the click happens; the live URLs never change; the new log is `AfterDownload` of the old |
| `JsString.IsJsWhitespace` | components/template-generator.tsx:64 | the WhiteSpace and LineTerminator code points of ECMA-262, which `trim` removes (a definition) |
| `JsString.TrimStart` | components/template-generator.tsx:64 | the result is a suffix of the input that does not start with whitespace, and everything dropped was whitespace |
| `JsString.TrimEnd` | components/template-generator.tsx:64 | the result is a prefix of the input that does not end with whitespace, and everything dropped was whitespace |
| `JsString.Trim` | components/template-generator.tsx:64-85 | the trimmed value occurs inside the input and has whitespace at neither end |
| `JsString.TrimDropsOnlyWhitespace` | components/template-generator.tsx:64 | the trimmed value sits in the input right after the leading whitespace, and everything before and after it is whitespace, so trim removes nothing else |
| `JsString.TrimEmptyIffBlank` | network/templates.ts:118 | a string trims to "" exactly when every character of it is whitespace |
| `JsString.TrimFixesUnpadded` | components/template-generator.tsx:64-70 | a string with no whitespace at either end is its own trim, so such a name is validated as typed |
| `JsString.Includes` | network/templates.ts:94 | includes holds exactly when the substring occurs at some position |
| `JsString.AsciiLower` | components/template-generator.tsx:122-132 | the length is kept, no upper-case ASCII letter is left, and each character equals the input's up to case |
| `JsString.Decimal` | network/templates.ts:43 | the rendering is a non-empty run of digits with no leading zero |
| `JsString.DecimalRoundTrip` | network/templates.ts:43 | reading the decimal digits back gives the number |
| `Generator.TierAvailable` | components/template-generator.tsx:50-54 | Basic and Intermediate are available and Advanced is not, as `templateStatus` says (a definition, used by `SelectTemplate` and the state invariant) |
| `Generator.Features.Toggle` | components/template-generator.tsx:55-57 | exactly the named flag flips and every other flag is kept |
| `Generator.ToggleTwice` | components/template-generator.tsx:55-57 | toggling the same flag twice restores the features |
| `Generator.LowerOfLabel` | components/template-generator.tsx:122-123 | lowering a label character by character gives the expected lower-case text |
| `Generator.LabelsLowered` | components/template-generator.tsx:122-132 | Hilt, Koin, Retrofit, Ktor, KAPT and KSP lower to hilt, koin, retrofit, ktor, kapt and ksp |
| `Generator.DependencyList` | components/template-generator.tsx:121-126 | the list is the lowered DI choice, then the lowered network choice, then "coroutines" if set, then "viewmodel" if set |
| `Generator.DependencyListIgnoresOtherFlags` | components/template-generator.tsx:121-126 | compose, room and navigation never change the list |
| `Generator.DependencyListMembership` | components/template-generator.tsx:124-125 | "coroutines" and "viewmodel" are in the list exactly when their flags are set |
| `Generator.CompilerType` | components/template-generator.tsx:132 | the compiler type is "kapt" or "ksp" by the chosen processor |
| `Generator.ProjectNameMessage` | components/template-generator.tsx:64-73 | the message under the project-name field for each rule (a definition) |
| `Generator.PackageNameMessage` | components/template-generator.tsx:75-85 | the message under the package-name field for each rule (a definition) |
| `Generator.FieldMessagesNonEmpty` | components/template-generator.tsx:64-85 | every field message is non-empty, so a recorded error always shows |
| `Generator.MatchesProjectPattern` | components/template-generator.tsx:67 | the expression `/^[a-zA-Z][a-zA-Z0-9_]*$/` as a matcher (a definition; `ProjectPatternIsShape` states what it accepts) |
| `Generator.WordTailIsAllWordChars` | components/template-generator.tsx:67 | the tail matcher accepts exactly the runs of letters, digits and underscores |
| `Generator.ProjectPatternIsShape` | components/template-generator.tsx:67 | the project-name expression accepts exactly an ASCII letter followed by letters, digits and underscores |
| `Generator.ProjectNameError` | components/template-generator.tsx:63-73 | on the trimmed name: required exactly when it is empty; a format error exactly when it is non-empty and not of the shape; too long exactly when it has the shape and more than 50 characters; no error exactly when it has the shape and at most 50 |
| `Generator.ProjectNameWithinLimitAccepted` | components/template-generator.tsx:70-72 | a well-formed name of at most 50 characters passes, 50 included |
| `Generator.SpaceInProjectNameRejected` | components/template-generator.tsx:67-69 | "My App" fails with the format error |
| `Generator.MatchesPackagePattern` | components/template-generator.tsx:79 | the expression `/^[a-z][a-z0-9_]*(\.[a-z][a-z0-9_]*)*$/` as a matcher (a definition; `PackagePatternIsShape` states what it accepts) |
| `Generator.SplitOnDots` | components/template-generator.tsx:79 | cutting at dots gives at least one piece, and no piece holds a dot |
| `Generator.SplitThenJoin` | components/template-generator.tsx:79 | joining the pieces with dots gives the string back |
| `Generator.SplitAfterDot` | components/template-generator.tsx:79 | after a leading dot the first piece is empty and the rest are the pieces of what follows |
| `Generator.SplitAfterChar` | components/template-generator.tsx:79 | a leading non-dot character joins the first piece of what follows |
| `Generator.TailMatchesSegments` | components/template-generator.tsx:79 | the package tail matcher accepts exactly a run of segment characters followed by dot-led segments |
| `Generator.PackagePatternIsShape` | components/template-generator.tsx:79 | the package expression accepts exactly the dot-separated lists of segments, each a lower-case letter then lower-case letters, digits and underscores |
| `Generator.TailCharacters` | components/template-generator.tsx:79 | inside a matched tail every character is a segment character or a dot, and each dot is followed by a lower-case letter |
| `Generator.PackagePatternDots` | components/template-generator.tsx:79-81 | a matched package name neither starts nor ends with a dot and never has two dots in a row |
| `Generator.PackageNameError` | components/template-generator.tsx:75-85 | on the trimmed name: required, format, then length (over 100), each exactly when the earlier rules pass and that one fails; no error exactly when it has the shape and at most 100 characters |
| `Generator.PackageDotsRejected` | components/template-generator.tsx:79-81 | a leading, trailing or doubled dot is a format error |
| `Generator.PackageNameWithinLimitAccepted` | components/template-generator.tsx:82-84 | a well-formed package name of at most 100 characters passes, 100 included |
| `Generator.InitialProjectNameValid` | components/template-generator.tsx:29 | the initial "MyAndroidApp" passes validation |
| `Generator.InitialPackageNameValid` | components/template-generator.tsx:30 | the initial "com.example.myapp" passes validation |
| `Generator.ThreeSegmentsMatch` | components/template-generator.tsx:79 | three segments joined by dots match the package expression |
| `Generator.SegmentRest` | components/template-generator.tsx:79 | after its first letter a segment is all segment characters |
| `Generator.TailOfSegment` | components/template-generator.tsx:79 | segment characters in front of a matched tail still match |
| `Generator.TailAfterDot` | components/template-generator.tsx:79 | a dot and a whole segment in front of a matched tail still match |
| `Generator.Notice.Text` | components/template-generator.tsx:107-171 | the banner strings: the choose-a-template text, the five fixed texts by code, the two fallbacks, or an error's own message (a definition) |
| `Generator.ReadableTextNonEmpty` | components/template-generator.tsx:465-467 | a readable notice puts non-empty text in the banner |
| `Generator.UserMessage` | components/template-generator.tsx:146-171 | the banner is always readable; an error's own message is shown only for a TemplateGenerationError without a fixed code, and is shown whenever it is not blank; any other thrown value gets the fixed unexpected-error text |
| `Generator.FixedNotice` | components/template-generator.tsx:148-163 | every code except UNKNOWN_ERROR has a fixed banner text |
| `Generator.FixedCodeIgnoresMessage` | components/template-generator.tsx:148-163 | for the five named codes the banner depends on the code alone |
| `Generator.FixedTextsDistinct` | components/template-generator.tsx:148-163 | the five fixed texts are pairwise different |
| `Generator.EmptyMessageFallsBack` | components/template-generator.tsx:164-166 | an error with no fixed code and a blank message shows the generic fallback |
| `Generator.EmptyFileShowsRawText` | components/template-generator.tsx:164-166 | the empty-body error shows "Received empty file from server", not the invalid-file text |
| `Generator.FixedCodesHaveNotices` | components/template-generator.tsx:152-163 | the four download codes each show their fixed text |
| `Generator.DownloadFailuresHaveFixedText` | components/template-generator.tsx:146-163 | every failure of downloadBlob is shown with its code's fixed text |
| `Generator.ServerMessageShown` | components/template-generator.tsx:164-166 | a non-2xx response whose message can be derived shows that message, or the fallback when it is blank |
| `Generator.CheckProjectName` | components/template-generator.tsx:63-73 | the if/else-if chain records exactly the error `ProjectNameError` gives |
| `Generator.CheckPackageName` | components/template-generator.tsx:75-85 | the if/else-if chain records exactly the error `PackageNameError` gives |
| `Generator.InputErrors` | components/template-generator.tsx:59-88 | the errors object of validateInputs: each field's error (a definition; `CheckInputs` and `TemplateGenerator.ValidateInputs` state that they record it) |
| `Generator.CheckInputs` | components/template-generator.tsx:59-88 | the errors object holds each field's error, and isValid is true exactly when it holds none |
| `Generator.BuildRequest` | components/template-generator.tsx:121-133 | the dependency list is `DependencyList` of the DI, network and feature choices, the compiler type is `CompilerType` of the processor, and the project and package names are sent with no whitespace at either end |
| `Generator.DownloadName` | components/template-generator.tsx:137 | a non-empty filename from the server is used as it is; the fallback, the trimmed project name plus ".zip", is never blank, so it always passes downloadBlob's filename check |
| `Generator.Delivery` | components/template-generator.tsx:134-171 | only a successful generation can pass; a failed generation is the delivery's failure; a failure after a successful generation is a download failure, with a fixed code other than UNKNOWN_ERROR and no status |
| `Generator.Handover` | components/template-generator.tsx:129-138 | the browser's log after a submission: downloadBlob ran, on the response's blob and the name handed to it, exactly when generateTemplate succeeded (a definition, used by the handlers' contracts) |
| `Generator.Banner` | components/template-generator.tsx:143-171 | a banner is shown exactly when delivery failed, and it is always readable |
| `Generator.Submit` | components/template-generator.tsx:102-175 | the whole submission as a value: the banner, the field errors, the request sent, what generation gave and how delivery went (a definition; the four lemmas below state its properties) |
| `Generator.SubmitWithoutTier` | components/template-generator.tsx:107-111 | with no tier the only effect is "Please choose a template first."; nothing is validated or sent |
| `Generator.SubmitRejected` | components/template-generator.tsx:113-116 | failed validation records the field errors, shows no banner and sends nothing |
| `Generator.SubmitSent` | components/template-generator.tsx:118-138 | valid inputs send the built request, and the banner follows the outcome of generation and download |
| `Generator.SubmitGate` | components/template-generator.tsx:107-133 | a request goes out exactly when a tier is chosen and both names pass; it carries the trimmed, well-formed names within their limits, the form's dependency list and compiler type, and generation runs exactly then, on that request |
| `Generator.SubmitMessages` | components/template-generator.tsx:102-171 | every banner is readable; with no tier it is the choose message and no field errors; with a tier the field errors are validateInputs'; after a request a banner shows exactly when the file was not handed over |
| `Generator.TemplateGenerator.constructor` | components/template-generator.tsx:27-48 | the initial state of every hook |
| `Generator.TemplateGenerator.SelectTemplate` | components/template-generator.tsx:222-258 | an available tier is selected; an unavailable one (advanced) leaves the selection as it was |
| `Generator.TemplateGenerator.OpenDialog` | components/template-generator.tsx:284 | "Generate Project" opens the dialog |
| `Generator.TemplateGenerator.DialogOpenChange` | components/template-generator.tsx:294 | the dialog's own close and open events set only the open flag |
| `Generator.TemplateGenerator.ClearErrors` | components/template-generator.tsx:91-95 | the banner and both field errors are cleared and the retry counter is 0 |
| `Generator.TemplateGenerator.Cancel` | components/template-generator.tsx:502-505 | the dialog closes and the errors and the retry counter are cleared |
| `Generator.TemplateGenerator.EditProjectName` | components/template-generator.tsx:313-318 | the value changes, and only the project-name error is cleared |
| `Generator.TemplateGenerator.EditPackageName` | components/template-generator.tsx:333-338 | the value changes, and only the package-name error is cleared |
| `Generator.TemplateGenerator.ChooseNetworkLibrary` | components/template-generator.tsx:367 | the network choice is set |
| `Generator.TemplateGenerator.ChooseDiLibrary` | components/template-generator.tsx:386 | the DI choice is set |
| `Generator.TemplateGenerator.ChooseAnnotationProcessor` | components/template-generator.tsx:405 | the processor choice is set |
| `Generator.TemplateGenerator.ToggleFeature` | components/template-generator.tsx:55-57 | the features become `Toggle` of the old features; its only callers, the Room and Navigation checkboxes, are commented out, so no live control reaches it |
| `Generator.TemplateGenerator.ValidateInputs` | components/template-generator.tsx:59-89 | the recorded errors are each field's error, and it returns true exactly when none is recorded |
| `Generator.TemplateGenerator.RetryOffered` | components/template-generator.tsx:465-468 | the retry button is shown while a banner is and fewer than three retries were made (a definition; `HandleRetry` states when it goes away) |
| `Generator.TemplateGenerator.RetryCaption` | components/template-generator.tsx:471 | the "Retry attempt N/3" caption is empty exactly when no retry was made |
| `Generator.TemplateGenerator.HandleDownload` | components/template-generator.tsx:102-175 | see the list after this table |
| `Generator.TemplateGenerator.ValidateAndDeliver` | components/template-generator.tsx:113-175 | the same as HandleDownload, once a tier is chosen and the messages are cleared |
| `Generator.TemplateGenerator.SendValid` | components/template-generator.tsx:118-174 | once both names passed: the same as HandleDownload, with the request built from the trimmed names and the form's choices |
| `Generator.TemplateGenerator.Deliver` | components/template-generator.tsx:118-174 | the result is `GenerateOutcome` of the request; the banner is that of the delivery; the dialog closes only on success; the busy flag ends false; the browser's log is `Handover` of the old one, so a failed generation leaves it alone and a successful one saves the file as downloadBlob does; no URL leaks |
| `Generator.TemplateGenerator.DownloadGenerated` | components/template-generator.tsx:137-171 | once generation succeeded: the banner and the dialog follow the download's outcome, and the browser's log is `Handover` of the old one |
| `Generator.TemplateGenerator.HandleRetry` | components/template-generator.tsx:97-100 | the retry counter grows by exactly one, then the state is that of a full `handleDownload`; the retry button stays offered exactly when a banner is shown and fewer than two retries had been made before |

`Generator.TemplateGenerator.HandleDownload` leaves every state field as `Submit` of the form
says:

- `retryCount` is outside its frame, so it never changes.
- The busy flag is false once a request was sent and untouched otherwise.
- The dialog closes exactly when downloadBlob ran and did not throw.
- The browser's log is `Handover` of the old one: untouched unless generation succeeded,
  and otherwise exactly what downloadBlob does with the response's blob and the name
  `DownloadName` gives, including the saved file.
- No object URL leaks.

## Left out

- The HTTP exchange itself is not modelled: the URL built from `NEXT_PUBLIC_API_BASE_URL`,
  the POST headers and the JSON body (network/templates.ts:15, 29-39). The response is an
  input value.
- The call at components/template-generator.tsx:128 passes no `grade`, although
  network/templates.ts:28 declares one. The argument only reaches the URL, which is not
  modelled. `GenerateTemplate` therefore has no grade parameter.
- `JSON.parse` and `decodeURIComponent` are not modelled. They are foreign functions, so
  they are the abstract function fields of `Host`. The model states which results each
  outcome of theirs leads to.
- The DOM anchor (creation, append, click, removal) is not modelled. It is an
  `AnchorStep` input that says whether a step throws, and whether it does so before or
  after the click.
- The `typeof URL` check is a boolean property of the browser. A `createObjectURL` that
  throws is not modelled: the blob is always a real Blob here.
- `console.log` and `console.error` have no effect on state and are left out.
- The JSX rendering and styling (components/template-generator.tsx:177-542) are left out,
  except the handlers and the retry affordance. components/folder-tree.tsx, lib/utils.ts
  and the pages under app/ are presentational and not part of this model.
- Async timing is not modelled. This covers late resolution after the dialog closes and
  the disabled-button guard against overlapping submissions. Each handler runs to
  completion.
- The `isGenerating` flag is modelled, but what it disables is not.
- A truthy JSON field's text is its JavaScript string conversion. `JSON.parse` is foreign,
  so that conversion, or the error it throws, is part of the parse result given by `Host`.
- The messages, codes and banners are datatypes whose `Text()` is the source's exact
  string. The proofs compare kinds, and `Text()` gives the characters.
- `.length` in the source counts UTF-16 code units, while a Dafny `string` counts
  characters. The length limits apply only after the all-ASCII pattern has passed, so the
  two counts agree wherever they matter.
- The case-insensitive flag is applied to ASCII letters only. The pattern's characters
  are all ASCII, and no other character case-folds into ASCII under the flag, so the
  match is the same.
