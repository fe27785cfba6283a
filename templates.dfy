/** The generation client and the download handler of network/templates.ts: one POST whose
    response is turned into a downloadable archive or into a TemplateGenerationError, and
    the save step that hands the archive to the browser through a short-lived object URL.

    The HTTP exchange, JSON.parse, decodeURIComponent and the DOM are not modelled: their
    outcomes are inputs (FetchOutcome, Host, AnchorStep) and the browser's object-URL table
    is the Browser class. */
module Templates {
  import opened Wrappers
  import opened JsString

  // ---------------------------------------------------------------------------------------
  // Error taxonomy

  /** The codes a TemplateGenerationError can carry; these six are all the module ever sets. */
  datatype ErrorCode =
    | NetworkError | UnknownError
    | InvalidBlob | InvalidFilename | BrowserNotSupported | DownloadError

  const NetworkErrorText := "Network error: Unable to connect to the template generation service. Please check your internet connection and try again."
  const UnexpectedErrorPrefix := "Unexpected error: "
  const UnknownErrorOccurred := "Unknown error occurred"
  const EmptyFileText := "Received empty file from server"
  const NoFileDataText := "No file data to download"
  const InvalidFilenameText := "Invalid filename provided"
  const BrowserUnsupportedText := "Browser does not support file downloads"
  const DownloadFailedPrefix := "Failed to download file: "
  const StatusPrefix := "Request failed with status "
  const FetchWord := "fetch"
  const ZipSuffix := ".zip"

  /** The messages this module puts into its errors, by kind; Text() is the message string
      itself. */
  datatype ErrorMessage =
    | ConnectFailed                      // the outer catch's connectivity message
    | UnexpectedError(detail: string)    // the outer catch's wrapper around another message
    | StatusFailed(status: nat)          // a non-2xx response whose body said nothing usable
    | ServerSaid(text: string)           // a non-2xx response's own text or JSON field
    | EmptyFileReceived
    | NoFileData | InvalidFilenameGiven | BrowserLacksDownloads
    | DownloadFailedWith(detail: string) // downloadBlob's wrapper around another message
  {
    function Text(): string {
      match this
      case ConnectFailed => NetworkErrorText
      case UnexpectedError(detail) => UnexpectedErrorPrefix + detail
      case StatusFailed(status) => StatusPrefix + Decimal(status)
      case ServerSaid(text) => text
      case EmptyFileReceived => EmptyFileText
      case NoFileData => NoFileDataText
      case InvalidFilenameGiven => InvalidFilenameText
      case BrowserLacksDownloads => BrowserUnsupportedText
      case DownloadFailedWith(detail) => DownloadFailedPrefix + detail
    }
  }

  /** A message with no text, told from its kind: only a server's own empty text. */
  predicate IsBlank(m: ErrorMessage) {
    m.ServerSaid? && m.text == []
  }

  lemma BlankIffEmptyText(m: ErrorMessage)
    ensures IsBlank(m) <==> m.Text() == []
  {
  }

  /** Distinct statuses give distinct status messages. */
  lemma StatusTextsDistinct(a: nat, b: nat)
    requires a != b
    ensures StatusFailed(a).Text() != StatusFailed(b).Text()
  {
    if StatusFailed(a).Text() == StatusFailed(b).Text() {
      assert Decimal(a) == StatusFailed(a).Text()[|StatusPrefix|..];
      assert Decimal(b) == StatusFailed(b).Text()[|StatusPrefix|..];
      DecimalRoundTrip(a);
      DecimalRoundTrip(b);
    }
  }

  /** The error class every failure of this module is normalised into: a message, the HTTP
      status when a response was seen, and a code naming the local failure kind. */
  datatype TemplateGenerationError = TemplateGenerationError(
    message: ErrorMessage, status: Option<nat>, code: Option<ErrorCode>)

  /** What foreign code (fetch, the body readers, decodeURIComponent, the DOM) can throw.
      None of it throws a TemplateGenerationError. */
  datatype ErrorKind = TypeError | URIError | OtherError
  datatype JsThrown =
    | JsError(kind: ErrorKind, message: string)  // an instance of Error
    | NonErrorValue                               // a thrown value that is not an Error

  /** The message an `error instanceof Error ? error.message : ...` test reads. */
  function ThrownMessage(j: JsThrown): string {
    match j
    case JsError(_, m) => m
    case NonErrorValue => UnknownErrorOccurred
  }

  /** The outer catch of generateTemplate applied to a foreign error (network/templates.ts
      lines 93-107): a TypeError that mentions "fetch" is a connectivity failure, anything
      else is an unexpected error that keeps the original message. */
  function WrapGenerateError(j: JsThrown): (e: TemplateGenerationError)
    ensures e.status.None?
    ensures e.code == Some(NetworkError) <==> j.JsError? && j.kind == TypeError && Includes(j.message, FetchWord)
    ensures e.code == Some(NetworkError) ==> e.message == ConnectFailed
    ensures e.code != Some(NetworkError) ==> e == TemplateGenerationError(UnexpectedError(ThrownMessage(j)), None, Some(UnknownError))
  {
    if j.JsError? && j.kind == TypeError && Includes(j.message, FetchWord) then
      TemplateGenerationError(ConnectFailed, None, Some(NetworkError))
    else
      TemplateGenerationError(UnexpectedError(ThrownMessage(j)), None, Some(UnknownError))
  }

  /** A malformed percent-encoding in the header (decodeURIComponent throws URIError) is not
      a connectivity failure: it surfaces as UNKNOWN_ERROR with the decoder's message. */
  lemma MalformedEncodingIsUnknown(message: string)
    ensures WrapGenerateError(JsError(URIError, message))
         == TemplateGenerationError(UnexpectedError(message), None, Some(UnknownError))
  {
  }

  /** The message Chrome gives a refused connection is recognised as a network error. */
  lemma FailedToFetchIsNetworkError()
    ensures WrapGenerateError(JsError(TypeError, "Failed to fetch")).code == Some(NetworkError)
  {
    assert OccursAt("Failed to fetch", "fetch", 10);
  }

  // ---------------------------------------------------------------------------------------
  // Request and response

  datatype GenerateTemplateRequest = GenerateTemplateRequest(
    projectName: string, packageName: string, dependencyList: seq<string>, compilerType: string)

  newtype byte = x: int | 0 <= x < 256

  /** The archive body; Blob.size is the length of its data. */
  datatype Blob = Blob(data: seq<byte>)

  datatype GenerateTemplateResponse = GenerateTemplateResponse(
    blob: Blob, filename: string, contentType: string, status: nat)

  /** The fields of a parsed JSON error body as the `||` chain sees them: a falsy value
      (absent, null, "", 0, false), a truthy one given by the string the Error constructor
      turns it into, or a truthy object whose conversion to a string throws (an object
      whose toString is not callable, say). */
  datatype JsField = Falsy | Truthy(text: string) | Unprintable(error: JsThrown)

  /** What JSON.parse(text) followed by reading `.message` and `.error` does. */
  datatype JsonParse =
    | ParseThrows                                  // not JSON
    | ParsedNull                                   // "null": the field access throws
    | Parsed(message: JsField, error: JsField)     // any other JSON value

  /** What decodeURIComponent does with the matched filename. */
  datatype Decoded = Decoded(value: string) | DecodeThrows(error: JsThrown)

  /** The two foreign functions generateTemplate calls, as abstract total functions. */
  datatype Host = Host(parseJson: string -> JsonParse, decodeUriComponent: string -> Decoded)

  datatype TextRead = TextOk(text: string) | TextThrows(error: JsThrown)
  datatype BlobRead = BlobOk(blob: Blob) | BlobNull | BlobThrows(error: JsThrown)

  /** A response as generateTemplate observes it: status, the two headers it reads, and what
      response.text() and response.blob() would produce. */
  datatype Response = Response(
    status: nat, contentType: Option<string>, contentDisposition: Option<string>,
    body: TextRead, blob: BlobRead)

  /** fetch either rejects or resolves with a response. */
  datatype FetchOutcome = Rejected(error: JsThrown) | Responded(response: Response)

  /** response.ok */
  predicate IsOk(status: nat) {
    200 <= status <= 299
  }

  // ---------------------------------------------------------------------------------------
  // Non-2xx responses (network/templates.ts lines 42-62)

  /** The message a non-2xx response yields. It is the status message when the body cannot
      be read or is empty; otherwise the body's own text, unless the body is JSON with a
      truthy `message` or, failing that, a truthy `error`, which then wins. A Failure is
      the error the Error constructor throws when the chosen field cannot be turned into a
      string. */
  function ServerErrorMessage(status: nat, body: TextRead, parseJson: string -> JsonParse): (m: Result<ErrorMessage, JsThrown>)
    ensures (body.TextThrows? || body.text == []) ==> m == Success(StatusFailed(status))
    ensures body.TextOk? && body.text != [] && !parseJson(body.text).Parsed? ==> m == Success(ServerSaid(body.text))
    ensures body.TextOk? && body.text != [] && parseJson(body.text).Parsed? ==>
              var p := parseJson(body.text);
              && (p.message.Truthy? ==> m == Success(ServerSaid(p.message.text)))
              && (p.message.Unprintable? ==> m == Failure(p.message.error))
              && (p.message.Falsy? && p.error.Truthy? ==> m == Success(ServerSaid(p.error.text)))
              && (p.message.Falsy? && p.error.Unprintable? ==> m == Failure(p.error.error))
              && (p.message.Falsy? && p.error.Falsy? ==> m == Success(ServerSaid(body.text)))
    // the message is empty only when a truthy JSON field prints as the empty string
    ensures m.Success? && IsBlank(m.value) ==> body.TextOk? && body.text != [] && parseJson(body.text).Parsed?
  {
    match body
    case TextThrows(_) => Success(StatusFailed(status))
    case TextOk(text) =>
      if text == [] then Success(StatusFailed(status))
      else match parseJson(text)
        case Parsed(message, error) =>
          var chosen := if !message.Falsy? then message else error;
          (match chosen
           case Truthy(t) => Success(ServerSaid(t))
           case Unprintable(j) => Failure(j)
           case Falsy => Success(ServerSaid(text)))
        case _ => Success(ServerSaid(text))
  }

  // ---------------------------------------------------------------------------------------
  // Content-Disposition filename (network/templates.ts lines 66-73)
  //
  // The regular expression /filename\*=UTF-8''([^;]+)|filename="?([^;"]+)"?/i is matched
  // without the global flag, so the result is the leftmost position where either
  // alternative matches, the first alternative being tried first at each position. The
  // flag i compares ASCII letters case-insensitively; the other characters exactly.

  const ExtendedPrefix := "filename*=UTF-8''"
  const PlainPrefix := "filename="

  /** lit occurs at position p of s, ASCII letters compared without regard to case. */
  predicate LiteralAt(s: string, p: nat, lit: string) {
    p + |lit| <= |s| && forall i :: 0 <= i < |lit| ==> UpperChar(s[p + i]) == UpperChar(lit[i])
  }

  /** The length of the longest run starting at p of characters outside stop, as a greedy
      negated character class consumes it. */
  function RunLength(s: string, p: nat, stop: set<char>): (n: nat)
    requires p <= |s|
    ensures p + n <= |s|
    ensures forall i :: p <= i < p + n ==> s[i] !in stop
    ensures p + n == |s| || s[p + n] in stop
    decreases |s| - p
  {
    if p < |s| && s[p] !in stop then 1 + RunLength(s, p + 1, stop) else 0
  }

  /** The value group 1 captures at position p: `filename*=UTF-8''` then one or more
      characters other than `;`. */
  function ExtendedMatchAt(s: string, p: nat): (r: Option<string>)
    ensures r.Some? ==> r.value != [] && ';' !in r.value
  {
    if p <= |s| && LiteralAt(s, p, ExtendedPrefix) then
      var q := p + |ExtendedPrefix|;
      var n := RunLength(s, q, {';'});
      if n > 0 then Some(s[q..q + n]) else None
    else None
  }

  /** The value group 2 captures at position p: `filename=`, an optional quote, then one or
      more characters other than `;` and `"`. When a quote follows `=` it must be taken:
      without it the class would have to start on the quote, which it excludes. */
  function PlainMatchAt(s: string, p: nat): (r: Option<string>)
    ensures r.Some? ==> r.value != [] && ';' !in r.value && '"' !in r.value
  {
    if p <= |s| && LiteralAt(s, p, PlainPrefix) then
      var q0 := p + |PlainPrefix|;
      var q := if q0 < |s| && s[q0] == '"' then q0 + 1 else q0;
      var n := RunLength(s, q, {';', '"'});
      if n > 0 then Some(s[q..q + n]) else None
    else None
  }

  /** The regular expression tried at position p: the first alternative, then the second. */
  function MatchAt(s: string, p: nat): (r: Option<string>)
    ensures r.Some? ==> r.value != [] && ';' !in r.value
  {
    if ExtendedMatchAt(s, p).Some? then ExtendedMatchAt(s, p) else PlainMatchAt(s, p)
  }

  /** The first present entry of ms from position p on: the regular-expression engine's
      scan, given what the pattern does at every position. It finds nothing exactly when
      no entry from p on is present. */
  function FirstSome<T>(ms: seq<Option<T>>, p: nat): (r: Option<T>)
    requires p <= |ms|
    ensures r.None? <==> forall q :: p <= q < |ms| ==> ms[q].None?
    ensures r.Some? ==> exists q :: p <= q < |ms| && ms[q] == r
    decreases |ms| - p
  {
    if p == |ms| then None
    else if ms[p].Some? then ms[p]
    else FirstSome(ms, p + 1)
  }

  /** The scan returns the entry at the leftmost present position. */
  lemma {:induction false} LeftmostSome<T>(ms: seq<Option<T>>, start: nat, p: nat)
    requires start <= p < |ms|
    requires forall q :: start <= q < p ==> ms[q].None?
    requires ms[p].Some?
    ensures FirstSome(ms, start) == ms[p]
    decreases p - start
  {
    if start < p {
      LeftmostSome(ms, start + 1, p);
    }
  }

  /** What the pattern does at each position of s. */
  function MatchesAt(s: string): seq<Option<string>>
  {
    seq(|s|, q requires 0 <= q < |s| => MatchAt(s, q))
  }

  /** disposition.match(...) with the capture it yields, before decoding. */
  function FindFilename(disposition: string): (r: Option<string>)
    ensures r.None? <==> forall q :: 0 <= q < |disposition| ==> MatchAt(disposition, q).None?
    ensures r.Some? ==> r.value != [] && ';' !in r.value
  {
    var ms := MatchesAt(disposition);
    assert |ms| == |disposition| && forall q :: 0 <= q < |ms| ==> ms[q] == MatchAt(disposition, q);
    var r := FirstSome(ms, 0);
    assert r.Some? ==> exists q :: 0 <= q < |ms| && MatchAt(disposition, q) == r;
    r
  }

  /** The match at the leftmost matching position is the one returned. */
  lemma LeftmostMatch(s: string, p: nat)
    requires p < |s|
    requires forall q :: 0 <= q < p ==> MatchAt(s, q).None?
    requires MatchAt(s, p).Some?
    ensures FindFilename(s) == MatchAt(s, p)
  {
    LeftmostSome(MatchesAt(s), 0, p);
  }

  /** The pattern cannot match where the text does not start with an f. */
  lemma NoMatchWithoutF(s: string, q: nat)
    requires q < |s| && UpperChar(s[q]) != 'F'
    ensures MatchAt(s, q).None?
  {
    assert UpperChar(ExtendedPrefix[0]) == 'F' && UpperChar(PlainPrefix[0]) == 'F';
    assert !LiteralAt(s, q, ExtendedPrefix) && !LiteralAt(s, q, PlainPrefix) by {
      assert s[q + 0] == s[q];
    }
  }

  /** The middle part of a concatenation is the slice at its offset. */
  lemma MiddleSlice(a: string, b: string, c: string)
    ensures (a + b + c)[|a|..|a| + |b|] == b
  {
    assert forall i :: 0 <= i < |b| ==> (a + b + c)[|a|..|a| + |b|][i] == b[i];
  }

  /** At `filename="v"`, the pattern captures v. */
  lemma {:induction false} QuotedValueAt(s: string, p: nat, v: string)
    requires v != [] && ';' !in v && '"' !in v
    requires p + |PlainPrefix| + |v| + 2 <= |s|
    requires s[p..p + |PlainPrefix|] == PlainPrefix && s[p + |PlainPrefix|] == '"'
    requires s[p + |PlainPrefix| + 1..p + |PlainPrefix| + 1 + |v|] == v
    requires s[p + |PlainPrefix| + 1 + |v|] == '"'
    ensures MatchAt(s, p) == Some(v)
  {
    assert !LiteralAt(s, p, ExtendedPrefix) by {
      assert s[p + 8] == PlainPrefix[8] == '=';
      assert UpperChar(s[p + 8]) != UpperChar(ExtendedPrefix[8]);
    }
    assert LiteralAt(s, p, PlainPrefix) by {
      forall i | 0 <= i < |PlainPrefix| ensures s[p + i] == PlainPrefix[i] {
        assert s[p..p + |PlainPrefix|][i] == s[p + i];
      }
    }
    RunOfValue(s, p + |PlainPrefix| + 1, v, {';', '"'});
  }

  /** The header `attachment; filename="v"` yields v exactly, for any v without `;` or `"`. */
  lemma {:induction false} QuotedFilename(v: string)
    requires v != [] && ';' !in v && '"' !in v
    ensures FindFilename("attachment; filename=\"" + v + "\"") == Some(v)
  {
    var pre := "attachment; ";
    var s := "attachment; filename=\"" + v + "\"";
    assert s == pre + PlainPrefix + "\"" + v + "\"";
    forall q | 0 <= q < |pre|
      ensures MatchAt(s, q).None?
    {
      assert s[q] == pre[q];
      NoMatchWithoutF(s, q);
    }
    var p := |pre|;
    MiddleSlice(pre, PlainPrefix, "\"" + v + "\"");
    MiddleSlice(pre + PlainPrefix + "\"", v, "\"");
    QuotedValueAt(s, p, v);
    LeftmostMatch(s, p);
  }

  /** At `filename*=UTF-8''v` running to the end of the header, the pattern captures v. */
  lemma {:induction false} ExtendedValueAt(s: string, p: nat, v: string)
    requires v != [] && ';' !in v
    requires p + |ExtendedPrefix| + |v| == |s|
    requires s[p..p + |ExtendedPrefix|] == ExtendedPrefix && s[p + |ExtendedPrefix|..] == v
    ensures MatchAt(s, p) == Some(v)
  {
    assert LiteralAt(s, p, ExtendedPrefix) by {
      forall i | 0 <= i < |ExtendedPrefix| ensures s[p + i] == ExtendedPrefix[i] {
        assert s[p..p + |ExtendedPrefix|][i] == s[p + i];
      }
    }
    RunOfValue(s, p + |ExtendedPrefix|, v, {';'});
  }

  /** The header `attachment; filename*=UTF-8''v` yields v still percent-encoded, for any v
      without `;`; decoding comes afterwards. */
  lemma {:induction false} ExtendedFilename(v: string)
    requires v != [] && ';' !in v
    ensures FindFilename("attachment; filename*=UTF-8''" + v) == Some(v)
  {
    var pre := "attachment; ";
    var s := "attachment; filename*=UTF-8''" + v;
    assert s == pre + ExtendedPrefix + v;
    forall q | 0 <= q < |pre|
      ensures MatchAt(s, q).None?
    {
      assert s[q] == pre[q];
      NoMatchWithoutF(s, q);
    }
    var p := |pre|;
    MiddleSlice(pre, ExtendedPrefix, v);
    assert s[p + |ExtendedPrefix|..] == v;
    ExtendedValueAt(s, p, v);
    LeftmostMatch(s, p);
  }

  /** The leftmost position wins, not the extended form: when the plain parameter comes
      first, `filename="a"; filename*=UTF-8''b` yields a. */
  lemma {:induction false} PlainBeforeExtendedWins(a: string, b: string)
    requires a != [] && ';' !in a && '"' !in a
    ensures FindFilename("filename=\"" + a + "\"; filename*=UTF-8''" + b) == Some(a)
  {
    var s := "filename=\"" + a + "\"; filename*=UTF-8''" + b;
    assert s == PlainPrefix + "\"" + a + "\"; filename*=UTF-8''" + b;
    MiddleSlice([], PlainPrefix, "\"" + a + "\"; filename*=UTF-8''" + b);
    MiddleSlice(PlainPrefix + "\"", a, "\"; filename*=UTF-8''" + b);
    QuotedValueAt(s, 0, a);
    LeftmostMatch(s, 0);
  }

  /** A value free of the stop characters and followed by one of them (or by the end) is
      exactly the run the greedy class consumes. */
  lemma {:induction false} RunOfValue(s: string, q: nat, v: string, stop: set<char>)
    requires q + |v| <= |s| && s[q..q + |v|] == v
    requires forall c :: c in v ==> c !in stop
    requires q + |v| == |s| || s[q + |v|] in stop
    ensures RunLength(s, q, stop) == |v|
    decreases |v|
  {
    if v != [] {
      assert s[q] == v[0];
      assert s[q + 1..q + 1 + |v[1..]|] == v[1..];
      RunOfValue(s, q + 1, v[1..], stop);
    }
  }

  /** The filename a 2xx response yields: the decoded capture, or `${projectName}.zip` when
      nothing matches (a missing header reads as ""). Only decoding can fail. */
  function ResolveFilename(disposition: Option<string>, projectName: string, decode: string -> Decoded): (r: Result<string, JsThrown>)
    ensures var header := if disposition.Some? then disposition.value else "";
            FindFilename(header).None? ==> r == Success(projectName + ZipSuffix)
    ensures r.Failure? ==> disposition.Some? && FindFilename(disposition.value).Some?
    // a match is passed through the decoder, and the call fails exactly when that throws
    ensures var header := if disposition.Some? then disposition.value else "";
            FindFilename(header).Some? ==>
              var d := decode(FindFilename(header).value);
              && (r.Success? <==> d.Decoded?)
              && (r.Success? ==> r.value == d.value)
              && (r.Failure? ==> r.error == d.error)
  {
    var header := if disposition.Some? then disposition.value else "";
    match FindFilename(header)
    case None => Success(projectName + ZipSuffix)
    case Some(raw) =>
      match decode(raw)
      case Decoded(name) => Success(name)
      case DecodeThrows(j) => Failure(j)
  }

  // ---------------------------------------------------------------------------------------
  // generateTemplate (network/templates.ts lines 28-109)

  /** The one outcome generateTemplate can have for a given fetch outcome. */
  function GenerateOutcome(payload: GenerateTemplateRequest, fetch: FetchOutcome, host: Host): (r: Result<GenerateTemplateResponse, TemplateGenerationError>)
    // an error carries a status exactly when it carries no code ...
    ensures r.Failure? ==> (r.error.status.Some? <==> r.error.code.None?)
    // ... and the only codes are the two of the outer catch
    ensures r.Failure? && r.error.code.Some? ==> r.error.code.value in {NetworkError, UnknownError}
    // a status on an error is the response's own
    ensures r.Failure? && r.error.status.Some? ==> fetch.Responded? && r.error.status.value == fetch.response.status
    // success only from a 2xx response with a non-empty body, whose status it reports
    ensures r.Success? ==>
              && fetch.Responded? && IsOk(fetch.response.status)
              && r.value.status == fetch.response.status
              && fetch.response.blob == BlobOk(r.value.blob) && |r.value.blob.data| > 0
              && r.value.contentType == (if fetch.response.contentType.Some? then fetch.response.contentType.value else "")
              && ResolveFilename(fetch.response.contentDisposition, payload.projectName, host.decodeUriComponent)
                   == Success(r.value.filename)
    // a fetch that rejects reaches the outer catch
    ensures fetch.Rejected? ==> r == Failure(WrapGenerateError(fetch.error))
    // so does a throwing blob() on a 2xx response, once the filename has resolved
    ensures fetch.Responded? && IsOk(fetch.response.status) && fetch.response.blob.BlobThrows?
            && ResolveFilename(fetch.response.contentDisposition, payload.projectName, host.decodeUriComponent).Success?
            ==> r == Failure(WrapGenerateError(fetch.response.blob.error))
  {
    match fetch
    case Rejected(j) => Failure(WrapGenerateError(j))
    case Responded(response) =>
      if !IsOk(response.status) then
        match ServerErrorMessage(response.status, response.body, host.parseJson)
        case Success(message) => Failure(TemplateGenerationError(message, Some(response.status), None))
        case Failure(j) => Failure(WrapGenerateError(j))
      else
        var contentType := if response.contentType.Some? then response.contentType.value else "";
        match ResolveFilename(response.contentDisposition, payload.projectName, host.decodeUriComponent)
        case Failure(j) => Failure(WrapGenerateError(j))
        case Success(filename) =>
          match response.blob
          case BlobThrows(j) => Failure(WrapGenerateError(j))
          case BlobNull => Failure(TemplateGenerationError(EmptyFileReceived, Some(response.status), None))
          case BlobOk(blob) =>
            if |blob.data| == 0 then
              Failure(TemplateGenerationError(EmptyFileReceived, Some(response.status), None))
            else
              Success(GenerateTemplateResponse(blob, filename, contentType, response.status))
  }

  /** generateTemplate step by step: the early throws become early returns, the mutable
      errorMessage of the non-2xx branch is reassigned as the body is read and parsed. */
  method GenerateTemplate(payload: GenerateTemplateRequest, fetch: FetchOutcome, host: Host)
    returns (r: Result<GenerateTemplateResponse, TemplateGenerationError>)
    ensures r == GenerateOutcome(payload, fetch, host)
  {
    if fetch.Rejected? {
      return Failure(WrapGenerateError(fetch.error));
    }
    var response := fetch.response;
    if !IsOk(response.status) {
      var errorMessage := StatusFailed(response.status);
      // a truthy JSON field taken as the message, still to be converted to a string
      var field := Falsy;
      match response.body {
        case TextThrows(_) =>
        case TextOk(errorText) =>
          if errorText != [] {
            match host.parseJson(errorText) {
              case Parsed(message, error) =>
                if !message.Falsy? {
                  field := message;
                } else if !error.Falsy? {
                  field := error;
                } else {
                  errorMessage := ServerSaid(errorText);
                }
              case _ =>
                errorMessage := ServerSaid(errorText);
            }
          }
      }
      // the Error constructor converts the field to a string, which may throw
      match field {
        case Unprintable(j) => return Failure(WrapGenerateError(j));
        case Truthy(text) => errorMessage := ServerSaid(text);
        case Falsy =>
      }
      return Failure(TemplateGenerationError(errorMessage, Some(response.status), None));
    }
    var contentType := if response.contentType.Some? then response.contentType.value else "";
    var suggestedName := ResolveFilename(response.contentDisposition, payload.projectName, host.decodeUriComponent);
    if suggestedName.Failure? {
      return Failure(WrapGenerateError(suggestedName.error));
    }
    if response.blob.BlobThrows? {
      return Failure(WrapGenerateError(response.blob.error));
    }
    if response.blob.BlobNull? || |response.blob.blob.data| == 0 {
      return Failure(TemplateGenerationError(EmptyFileReceived, Some(response.status), None));
    }
    return Success(GenerateTemplateResponse(response.blob.blob, suggestedName.value, contentType, response.status));
  }

  /** A fetch rejected with a TypeError that mentions "fetch" (the browser's "Failed to
      fetch") is reported as NETWORK_ERROR with the fixed connectivity message and no status. */
  lemma FetchRejectionIsNetworkError(payload: GenerateTemplateRequest, j: JsThrown, host: Host)
    requires j.JsError? && j.kind == TypeError && Includes(j.message, FetchWord)
    ensures GenerateOutcome(payload, Rejected(j), host)
         == Failure(TemplateGenerationError(ConnectFailed, None, Some(NetworkError)))
  {
  }

  /** A 2xx response with an empty body is reported with its status and WITHOUT a code: it
      is not an INVALID_BLOB error. */
  lemma EmptyBodyHasNoCode(payload: GenerateTemplateRequest, response: Response, host: Host)
    requires IsOk(response.status)
    requires response.blob == BlobNull || response.blob == BlobOk(Blob([]))
    requires ResolveFilename(response.contentDisposition, payload.projectName, host.decodeUriComponent).Success?
    ensures GenerateOutcome(payload, Responded(response), host)
         == Failure(TemplateGenerationError(EmptyFileReceived, Some(response.status), None))
  {
  }

  /** A non-2xx response fails with the derived message, its status and no code, whatever
      its headers and blob hold; when deriving the message throws (a `message` or `error`
      field that cannot be turned into a string), it fails as the outer catch wraps that. */
  lemma NonOkCarriesStatus(payload: GenerateTemplateRequest, response: Response, host: Host)
    requires !IsOk(response.status)
    ensures var m := ServerErrorMessage(response.status, response.body, host.parseJson);
            m.Success? ==>
              GenerateOutcome(payload, Responded(response), host)
                == Failure(TemplateGenerationError(m.value, Some(response.status), None))
    ensures var m := ServerErrorMessage(response.status, response.body, host.parseJson);
            m.Failure? ==> GenerateOutcome(payload, Responded(response), host) == Failure(WrapGenerateError(m.error))
  {
  }

  /** A JSON error body whose `message` is an object that cannot be turned into a string
      makes the Error constructor throw: the caller sees UNKNOWN_ERROR (or NETWORK_ERROR,
      for a TypeError mentioning fetch) and not the response status. */
  lemma UnprintableFieldLosesStatus(payload: GenerateTemplateRequest, response: Response, host: Host, j: JsThrown)
    requires !IsOk(response.status) && response.body.TextOk? && response.body.text != []
    requires host.parseJson(response.body.text).Parsed?
    requires host.parseJson(response.body.text).message == Unprintable(j)
    ensures GenerateOutcome(payload, Responded(response), host) == Failure(WrapGenerateError(j))
    ensures GenerateOutcome(payload, Responded(response), host).error.status.None?
  {
  }

  /** A 2xx response with a non-empty body fails only when decoding the filename throws,
      and then as the outer catch wraps that error. */
  lemma OkResponseFailsOnlyInDecoding(payload: GenerateTemplateRequest, response: Response, host: Host)
    requires IsOk(response.status) && response.blob.BlobOk? && |response.blob.blob.data| > 0
    ensures var name := ResolveFilename(response.contentDisposition, payload.projectName, host.decodeUriComponent);
            && (GenerateOutcome(payload, Responded(response), host).Failure? <==> name.Failure?)
            && (name.Failure? ==> GenerateOutcome(payload, Responded(response), host) == Failure(WrapGenerateError(name.error)))
  {
  }

  /** The filename is resolved before the body is read: on a 2xx response a throwing
      decode is what the caller sees, whatever the blob is (null, empty, throwing or not). */
  lemma DecodeFailureBeforeBody(payload: GenerateTemplateRequest, response: Response, host: Host)
    requires IsOk(response.status)
    requires ResolveFilename(response.contentDisposition, payload.projectName, host.decodeUriComponent).Failure?
    ensures GenerateOutcome(payload, Responded(response), host)
         == Failure(WrapGenerateError(ResolveFilename(response.contentDisposition, payload.projectName, host.decodeUriComponent).error))
  {
  }

  /** The round trip of a mock service that answers 200 with `attachment; filename="v"`:
      the result names v, given a decoder that leaves v unchanged (true of
      decodeURIComponent on any text without `%`). */
  lemma {:induction false} QuotedFilenameRoundTrip(payload: GenerateTemplateRequest, v: string, blob: Blob, contentType: Option<string>, host: Host)
    requires v != [] && ';' !in v && '"' !in v
    requires host.decodeUriComponent(v) == Decoded(v)
    requires |blob.data| > 0
    ensures
      var response := Response(200, contentType, Some("attachment; filename=\"" + v + "\""), TextOk(""), BlobOk(blob));
      GenerateOutcome(payload, Responded(response), host)
        == Success(GenerateTemplateResponse(blob, v, if contentType.Some? then contentType.value else "", 200))
  {
    QuotedFilename(v);
  }

  /** Without a Content-Disposition header the filename is the request's project name with
      `.zip`, and decoding is never consulted. */
  lemma FallbackFilename(payload: GenerateTemplateRequest, response: Response, host: Host)
    requires IsOk(response.status) && response.contentDisposition.None?
    requires response.blob.BlobOk? && |response.blob.blob.data| > 0
    ensures GenerateOutcome(payload, Responded(response), host).Success?
    ensures GenerateOutcome(payload, Responded(response), host).value.filename == payload.projectName + ZipSuffix
  {
  }

  // ---------------------------------------------------------------------------------------
  // downloadBlob (network/templates.ts lines 111-153)

  /** How the anchor steps (create, append, click, remove) go: all succeed, or one throws
      before the click, or one throws after it (the save was already started). */
  datatype AnchorStep = AnchorOk | ThrowsBeforeClick(error: JsThrown) | ThrowsAfterClick(error: JsThrown)

  predicate Clicks(step: AnchorStep) {
    !step.ThrowsBeforeClick?
  }

  /** The catch of downloadBlob applied to a foreign error. */
  function WrapDownloadError(j: JsThrown): (e: TemplateGenerationError)
    ensures e.status.None? && e.code == Some(DownloadError)
    ensures e.message == DownloadFailedWith(ThrownMessage(j))
  {
    TemplateGenerationError(DownloadFailedWith(ThrownMessage(j)), None, Some(DownloadError))
  }

  /** The precondition checks of downloadBlob all pass. */
  predicate DownloadGuardsPass(blob: Option<Blob>, filename: string, supportsObjectUrl: bool) {
    blob.Some? && Trim(filename) != [] && supportsObjectUrl
  }

  /** The one outcome downloadBlob can have. */
  function DownloadOutcome(blob: Option<Blob>, filename: string, supportsObjectUrl: bool, step: AnchorStep): (r: Outcome<TemplateGenerationError>)
    // every failure is a TemplateGenerationError with no status and one of four codes
    ensures r.Fail? ==>
              && r.error.status.None? && r.error.code.Some?
              && r.error.code.value in {InvalidBlob, InvalidFilename, BrowserNotSupported, DownloadError}
    // the checks come in order: blob, then filename, then browser support
    ensures blob.None? ==> r == Fail(TemplateGenerationError(NoFileData, None, Some(InvalidBlob)))
    ensures blob.Some? && Trim(filename) == [] ==> r == Fail(TemplateGenerationError(InvalidFilenameGiven, None, Some(InvalidFilename)))
    ensures blob.Some? && Trim(filename) != [] && !supportsObjectUrl ==>
              r == Fail(TemplateGenerationError(BrowserLacksDownloads, None, Some(BrowserNotSupported)))
    // past the checks, a throwing anchor step is a DOWNLOAD_ERROR and nothing else fails
    ensures DownloadGuardsPass(blob, filename, supportsObjectUrl) ==>
              (r.Pass? <==> step.AnchorOk?) && (r.Fail? ==> r.error == WrapDownloadError(step.error))
  {
    if blob.None? then Fail(TemplateGenerationError(NoFileData, None, Some(InvalidBlob)))
    else if Trim(filename) == [] then Fail(TemplateGenerationError(InvalidFilenameGiven, None, Some(InvalidFilename)))
    else if !supportsObjectUrl then Fail(TemplateGenerationError(BrowserLacksDownloads, None, Some(BrowserNotSupported)))
    else match step
      case AnchorOk => Pass
      case ThrowsBeforeClick(j) => Fail(WrapDownloadError(j))
      case ThrowsAfterClick(j) => Fail(WrapDownloadError(j))
  }

  /** Of the URLs 0 .. created-1, those not revoked. */
  ghost function LiveUrls(created: nat, revoked: seq<nat>): set<nat> {
    set u | 0 <= u < created && u !in revoked
  }

  /** Creating URL n and revoking it leaves the live set as it was. */
  lemma CreateThenRevoke(n: nat, revoked: seq<nat>)
    ensures LiveUrls(n + 1, revoked + [n]) == LiveUrls(n, revoked)
  {
  }

  /** A file the browser was asked to save. */
  datatype SavedFile = SavedFile(filename: string, blob: Blob)

  /** The browser's three logs taken together. */
  datatype BrowserLog = BrowserLog(urls: seq<Blob>, revoked: seq<nat>, saved: seq<SavedFile>)

  /** The logs after downloadBlob(blob, filename): as they were when a check fails;
      otherwise one URL more, for the blob, that same URL revoked, and a save of the blob
      under filename when the click happened. */
  ghost function AfterDownload(log: BrowserLog, blob: Option<Blob>, filename: string, supportsObjectUrl: bool, step: AnchorStep): (r: BrowserLog)
    // nothing changes exactly when a check fails
    ensures r == log <==> !DownloadGuardsPass(blob, filename, supportsObjectUrl)
    // no object URL is left live
    ensures LiveUrls(|r.urls|, r.revoked) == LiveUrls(|log.urls|, log.revoked)
  {
    if DownloadGuardsPass(blob, filename, supportsObjectUrl) then
      CreateThenRevoke(|log.urls|, log.revoked);
      BrowserLog(log.urls + [blob.value], log.revoked + [|log.urls|],
                 log.saved + (if Clicks(step) then [SavedFile(filename, blob.value)] else []))
    else log
  }

  /** Every revoked URL is one that was created. */
  ghost predicate RevokesOnlyCreated(log: BrowserLog) {
    forall k :: 0 <= k < |log.revoked| ==> log.revoked[k] < |log.urls|
  }

  /** downloadBlob revokes only the URL it created, so it keeps RevokesOnlyCreated. */
  lemma AfterDownloadRevokesOnlyCreated(log: BrowserLog, blob: Option<Blob>, filename: string, supportsObjectUrl: bool, step: AnchorStep)
    requires RevokesOnlyCreated(log)
    ensures RevokesOnlyCreated(AfterDownload(log, blob, filename, supportsObjectUrl, step))
  {
  }

  /** The browser side of a download: the object-URL table (URL u is the u-th one created,
      for the blob urls[u]), the log of revocations, and the files whose save was started. */
  class Browser {
    const supportsObjectUrl: bool
    var urls: seq<Blob>
    var revoked: seq<nat>
    var saved: seq<SavedFile>

    /** RevokesOnlyCreated of the logs: revokeObjectURL is only ever given a URL that
        createObjectURL returned. */
    ghost predicate Valid()
      reads this
    {
      RevokesOnlyCreated(Log())
    }

    /** The three logs as one value. */
    ghost function Log(): BrowserLog
      reads this
    {
      BrowserLog(urls, revoked, saved)
    }

    /** The object URLs created and not yet revoked. */
    ghost function Live(): set<nat>
      reads this
    {
      LiveUrls(|urls|, revoked)
    }

    constructor (supportsObjectUrl: bool)
      ensures Valid()
      ensures this.supportsObjectUrl == supportsObjectUrl && urls == [] && revoked == [] && saved == []
    {
      this.supportsObjectUrl := supportsObjectUrl;
      urls, revoked, saved := [], [], [];
    }

    /** URL.createObjectURL */
    method CreateObjectUrl(blob: Blob) returns (url: nat)
      requires Valid()
      modifies this`urls
      ensures Valid()
      ensures url == old(|urls|) && urls == old(urls) + [blob]
    {
      url := |urls|;
      urls := urls + [blob];
    }

    /** URL.revokeObjectURL */
    method RevokeObjectUrl(url: nat)
      requires Valid() && url < |urls|
      modifies this`revoked
      ensures Valid()
      ensures revoked == old(revoked) + [url]
    {
      revoked := revoked + [url];
    }

    /** The hidden anchor: created, appended, clicked, removed; the click starts a save of
      the URL's blob under filename. Returns what one of the steps threw, if any. */
    method ClickAnchor(url: nat, filename: string, step: AnchorStep) returns (thrown: Option<JsThrown>)
      requires url < |urls|
      modifies this`saved
      ensures saved == old(saved) + (if Clicks(step) then [SavedFile(filename, urls[url])] else [])
      ensures thrown == (if step.AnchorOk? then None else Some(step.error))
    {
      if Clicks(step) {
        saved := saved + [SavedFile(filename, urls[url])];
      }
      thrown := if step.AnchorOk? then None else Some(step.error);
    }

    /** downloadBlob: the ordered checks, then the object URL acquired, the anchor steps run
      and the URL released as a finally block does, on every exit path. */
    method DownloadBlob(blob: Option<Blob>, filename: string, step: AnchorStep) returns (r: Outcome<TemplateGenerationError>)
      requires Valid()
      modifies this`urls, this`revoked, this`saved
      ensures Valid()
      ensures r == DownloadOutcome(blob, filename, supportsObjectUrl, step)
      // a failed check creates no URL and starts no save
      ensures !DownloadGuardsPass(blob, filename, supportsObjectUrl) ==>
                urls == old(urls) && revoked == old(revoked) && saved == old(saved)
      // past the checks exactly one URL is created, for this blob, and exactly it is revoked
      ensures DownloadGuardsPass(blob, filename, supportsObjectUrl) ==>
                && urls == old(urls) + [blob.value]
                && revoked == old(revoked) + [old(|urls|)]
                && saved == old(saved) + (if Clicks(step) then [SavedFile(filename, blob.value)] else [])
      // no path leaks an object URL
      ensures Live() == old(Live())
      ensures Log() == AfterDownload(old(Log()), blob, filename, supportsObjectUrl, step)
    {
      // the promised outcome, evaluated once before any state changes
      ghost var outcome := DownloadOutcome(blob, filename, supportsObjectUrl, step);
      if blob.None? {
        return Fail(TemplateGenerationError(NoFileData, None, Some(InvalidBlob)));
      }
      if Trim(filename) == [] {
        return Fail(TemplateGenerationError(InvalidFilenameGiven, None, Some(InvalidFilename)));
      }
      if !supportsObjectUrl {
        return Fail(TemplateGenerationError(BrowserLacksDownloads, None, Some(BrowserNotSupported)));
      }
      assert DownloadGuardsPass(blob, filename, supportsObjectUrl);
      var url := CreateObjectUrl(blob.value);
      var thrown := ClickAnchor(url, filename, step);
      RevokeObjectUrl(url);
      CreateThenRevoke(url, old(revoked));
      if thrown.Some? {
        return Fail(WrapDownloadError(thrown.value));
      }
      return Pass;
    }
  }
}
