/** The submission controller of components/template-generator.tsx: the form's state (tier,
    names, library choices, error banner, field errors, retry counter, busy and dialog
    flags), the input validator, the request it builds, the mapping from a caught error to
    the banner text, and the handlers that move the state. Rendering is not modelled. */
module Generator {
  import opened Wrappers
  import opened JsString
  import opened Templates

  // ---------------------------------------------------------------------------------------
  // Template tiers (components/template-generator.tsx lines 24, 50-54)

  datatype Tier = Basic | Intermediate | Advanced

  /** templateStatus[tier].available */
  predicate TierAvailable(t: Tier) {
    match t
    case Basic => true
    case Intermediate => true
    case Advanced => false
  }

  // ---------------------------------------------------------------------------------------
  // Library choices and features (lines 38-48, 55-57)

  datatype NetworkLibrary = Retrofit | Ktor
  datatype DiLibrary = Hilt | Koin
  datatype AnnotationProcessor = Kapt | Ksp

  /** The radio values as the source spells them. */
  function NetworkLabel(n: NetworkLibrary): string {
    match n
    case Retrofit => "Retrofit"
    case Ktor => "Ktor"
  }

  function DiLabel(d: DiLibrary): string {
    match d
    case Hilt => "Hilt"
    case Koin => "Koin"
  }

  function ProcessorLabel(p: AnnotationProcessor): string {
    match p
    case Kapt => "KAPT"
    case Ksp => "KSP"
  }

  datatype Feature = Compose | ViewModel | Coroutines | Room | Navigation

  datatype Features = Features(compose: bool, viewModel: bool, coroutines: bool, room: bool, navigation: bool)
  {
    function Get(f: Feature): bool {
      match f
      case Compose => compose
      case ViewModel => viewModel
      case Coroutines => coroutines
      case Room => room
      case Navigation => navigation
    }

    /** toggleFeature's update: exactly the named flag flips. */
    function Toggle(f: Feature): (r: Features)
      ensures r.Get(f) == !Get(f)
      ensures forall g :: g != f ==> r.Get(g) == Get(g)
    {
      match f
      case Compose => this.(compose := !compose)
      case ViewModel => this.(viewModel := !viewModel)
      case Coroutines => this.(coroutines := !coroutines)
      case Room => this.(room := !room)
      case Navigation => this.(navigation := !navigation)
    }
  }

  /** toggling the same flag twice restores the features. */
  lemma ToggleTwice(features: Features, f: Feature)
    ensures features.Toggle(f).Toggle(f) == features
  {
  }

  /** The ASCII lowercasing of a label is the expected lower-case identifier. */
  lemma LowerOfLabel(name: string, lower: string)
    requires |name| == |lower| && forall i :: 0 <= i < |name| ==> LowerChar(name[i]) == lower[i]
    ensures AsciiLower(name) == lower
  {
  }

  lemma LabelsLowered()
    ensures AsciiLower("Hilt") == "hilt" && AsciiLower("Koin") == "koin"
    ensures AsciiLower("Retrofit") == "retrofit" && AsciiLower("Ktor") == "ktor"
    ensures AsciiLower("KAPT") == "kapt" && AsciiLower("KSP") == "ksp"
  {
    LowerOfLabel("Hilt", "hilt");
    LowerOfLabel("Koin", "koin");
    LowerOfLabel("Retrofit", "retrofit");
    LowerOfLabel("Ktor", "ktor");
    LowerOfLabel("KAPT", "kapt");
    LowerOfLabel("KSP", "ksp");
  }

  /** The dependency list of the request (lines 121-126): the lowered DI and network choices,
      then "coroutines" and "viewmodel" when those flags are set, in that order. */
  function DependencyList(di: DiLibrary, network: NetworkLibrary, features: Features): (r: seq<string>)
    ensures |r| >= 2
    ensures r[..2] == [if di == Hilt then "hilt" else "koin", if network == Retrofit then "retrofit" else "ktor"]
    ensures r[2..] == (if features.coroutines then ["coroutines"] else []) + (if features.viewModel then ["viewmodel"] else [])
  {
    LabelsLowered();
    [AsciiLower(DiLabel(di)), AsciiLower(NetworkLabel(network))]
      + (if features.coroutines then ["coroutines"] else [])
      + (if features.viewModel then ["viewmodel"] else [])
  }

  /** Compose, Room and Navigation never reach the request. */
  lemma DependencyListIgnoresOtherFlags(di: DiLibrary, network: NetworkLibrary, f: Features, g: Features)
    requires f.coroutines == g.coroutines && f.viewModel == g.viewModel
    ensures DependencyList(di, network, f) == DependencyList(di, network, g)
  {
  }

  /** Each optional entry is present exactly when its flag is set. */
  lemma {:induction false} DependencyListMembership(di: DiLibrary, network: NetworkLibrary, f: Features)
    ensures "coroutines" in DependencyList(di, network, f) <==> f.coroutines
    ensures "viewmodel" in DependencyList(di, network, f) <==> f.viewModel
  {
    var r := DependencyList(di, network, f);
    assert r == r[..2] + r[2..];
  }

  /** The compilerType field (line 132): the lowered processor name. */
  function CompilerType(p: AnnotationProcessor): (r: string)
    ensures r == (if p == Kapt then "kapt" else "ksp")
  {
    LabelsLowered();
    AsciiLower(ProcessorLabel(p))
  }

  // ---------------------------------------------------------------------------------------
  // Input validation (lines 59-89)

  /** Which rule a field broke. */
  datatype FieldError = Required | BadFormat | TooLong

  // The messages shown under the two fields.
  const ProjectNameRequiredText := "Project name is required"
  const ProjectNameFormatText := "Project name must start with a letter and contain only letters, numbers, and underscores"
  const ProjectNameLengthText := "Project name must be less than 50 characters"
  const PackageNameRequiredText := "Package name is required"
  const PackageNameFormatText := "Package name must be in format like 'com.example.myapp' (lowercase, dots, underscores only)"
  const PackageNameLengthText := "Package name must be less than 100 characters"

  /** The message shown under the project-name field. */
  function ProjectNameMessage(e: FieldError): string {
    match e
    case Required => ProjectNameRequiredText
    case BadFormat => ProjectNameFormatText
    case TooLong => ProjectNameLengthText
  }

  /** The message shown under the package-name field. */
  function PackageNameMessage(e: FieldError): string {
    match e
    case Required => PackageNameRequiredText
    case BadFormat => PackageNameFormatText
    case TooLong => PackageNameLengthText
  }

  /** Every field message is non-empty, so a truthiness test on a recorded message is a
      presence test. */
  lemma FieldMessagesNonEmpty(e: FieldError)
    ensures ProjectNameMessage(e) != [] && PackageNameMessage(e) != []
  {
  }

  predicate IsAsciiLetter(c: char) {
    ('a' <= c <= 'z') || ('A' <= c <= 'Z')
  }

  predicate IsWordChar(c: char) {
    IsAsciiLetter(c) || IsDigit(c) || c == '_'
  }

  predicate IsLowerLetter(c: char) {
    'a' <= c <= 'z'
  }

  predicate IsSegmentChar(c: char) {
    IsLowerLetter(c) || IsDigit(c) || c == '_'
  }

  /** /[a-zA-Z0-9_]*$/ from the current position. */
  function MatchesWordTail(s: string): bool
    decreases |s|
  {
    s == [] || (IsWordChar(s[0]) && MatchesWordTail(s[1..]))
  }

  /** /^[a-zA-Z][a-zA-Z0-9_]*$/.test(s) */
  function MatchesProjectPattern(s: string): bool {
    |s| > 0 && IsAsciiLetter(s[0]) && MatchesWordTail(s[1..])
  }

  /** A project name's shape: an ASCII letter, then letters, digits and underscores. */
  predicate ProjectNameShape(s: string) {
    |s| > 0 && IsAsciiLetter(s[0]) && forall i :: 1 <= i < |s| ==> IsWordChar(s[i])
  }

  lemma {:induction false} WordTailIsAllWordChars(s: string)
    ensures MatchesWordTail(s) <==> forall i :: 0 <= i < |s| ==> IsWordChar(s[i])
    decreases |s|
  {
    if s != [] {
      WordTailIsAllWordChars(s[1..]);
      assert forall i :: 1 <= i < |s| ==> s[i] == s[1..][i - 1];
    }
  }

  /** The project-name regular expression accepts exactly the strings of that shape. */
  lemma ProjectPatternIsShape(s: string)
    ensures MatchesProjectPattern(s) <==> ProjectNameShape(s)
  {
    if |s| > 0 {
      WordTailIsAllWordChars(s[1..]);
      assert forall i :: 1 <= i < |s| ==> s[i] == s[1..][i - 1];
    }
  }

  /** The rule a project name breaks, checked in order: required, then format, then length,
      all on the trimmed value; at most one is reported. */
  function ProjectNameError(raw: string): (r: Option<FieldError>)
    ensures r == Some(Required) <==> Trim(raw) == []
    ensures r == Some(BadFormat) <==> Trim(raw) != [] && !ProjectNameShape(Trim(raw))
    ensures r == Some(TooLong) <==> ProjectNameShape(Trim(raw)) && |Trim(raw)| > 50
    ensures r.None? <==> ProjectNameShape(Trim(raw)) && |Trim(raw)| <= 50
  {
    var name := Trim(raw);
    ProjectPatternIsShape(name);
    if raw == [] || name == [] then Some(Required)
    else if !MatchesProjectPattern(name) then Some(BadFormat)
    else if |name| > 50 then Some(TooLong)
    else None
  }

  /** A well-formed name of at most 50 characters passes; the limit is inclusive, so 50
      characters pass whatever the message's "less than 50" says. */
  lemma ProjectNameWithinLimitAccepted(name: string)
    requires ProjectNameShape(name) && |name| <= 50
    ensures ProjectNameError(name).None?
  {
    TrimFixesUnpadded(name);
  }

  /** "My App" fails on format: the space is not a word character. */
  lemma SpaceInProjectNameRejected()
    ensures ProjectNameError("My App") == Some(BadFormat)
  {
    TrimFixesUnpadded("My App");
    assert !IsWordChar("My App"[2]);
  }

  /** /[a-z0-9_]*(\.[a-z][a-z0-9_]*)*$/ from a position inside a segment; a dot must be
      followed by a lower-case letter. */
  function MatchesPackageTail(s: string): bool
    decreases |s|
  {
    if s == [] then true
    else if IsSegmentChar(s[0]) then MatchesPackageTail(s[1..])
    else s[0] == '.' && |s| > 1 && IsLowerLetter(s[1]) && MatchesPackageTail(s[2..])
  }

  /** /^[a-z][a-z0-9_]*(\.[a-z][a-z0-9_]*)*$/.test(s) */
  function MatchesPackagePattern(s: string): bool {
    |s| > 0 && IsLowerLetter(s[0]) && MatchesPackageTail(s[1..])
  }

  /** The pieces between dots, as String.prototype.split(".") cuts them. */
  function SplitOnDots(s: string): (parts: seq<string>)
    ensures |parts| >= 1
    ensures forall k :: 0 <= k < |parts| ==> '.' !in parts[k]
    decreases |s|
  {
    if s == [] then [[]]
    else if s[0] == '.' then [[]] + SplitOnDots(s[1..])
    else
      var rest := SplitOnDots(s[1..]);
      [[s[0]] + rest[0]] + rest[1..]
  }

  function JoinWithDots(parts: seq<string>): string
    requires |parts| >= 1
    decreases |parts|
  {
    if |parts| == 1 then parts[0] else parts[0] + "." + JoinWithDots(parts[1..])
  }

  /** Splitting loses nothing: joining the pieces with dots gives the string back. */
  lemma {:induction false} SplitThenJoin(s: string)
    ensures JoinWithDots(SplitOnDots(s)) == s
    decreases |s|
  {
    if s != [] {
      SplitThenJoin(s[1..]);
      var rest := SplitOnDots(s[1..]);
      if s[0] == '.' {
        assert SplitOnDots(s) == [[]] + rest;
        assert ([[]] + rest)[1..] == rest;
        assert s == "." + s[1..];
      } else {
        var parts := SplitOnDots(s);
        assert parts == [[s[0]] + rest[0]] + rest[1..];
        if |rest| == 1 {
          assert s == [s[0]] + s[1..];
        } else {
          assert parts[1..] == rest[1..];
          assert s == [s[0]] + s[1..];
        }
      }
    }
  }

  predicate AllSegmentChars(t: string) {
    forall i :: 0 <= i < |t| ==> IsSegmentChar(t[i])
  }

  /** One package segment: a lower-case letter, then lower-case letters, digits and
      underscores. */
  predicate IsSegment(t: string) {
    |t| > 0 && IsLowerLetter(t[0]) && forall i :: 1 <= i < |t| ==> IsSegmentChar(t[i])
  }

  /** Every piece after the first is a segment. */
  predicate LaterSegments(parts: seq<string>) {
    forall k :: 1 <= k < |parts| ==> IsSegment(parts[k])
  }

  /** A package name's shape: every dot-separated piece is a segment (there is always at
      least one piece). */
  predicate PackageNameShape(s: string) {
    var parts := SplitOnDots(s);
    forall k :: 0 <= k < |parts| ==> IsSegment(parts[k])
  }

  /** After a leading dot the first piece is empty and the others are the pieces of the
      rest. */
  lemma SplitAfterDot(s: string)
    requires s != [] && s[0] == '.'
    ensures var parts := SplitOnDots(s);
            parts[0] == [] && ((forall k :: 1 <= k < |parts| ==> IsSegment(parts[k])) <==> PackageNameShape(s[1..]))
  {
    var rest := SplitOnDots(s[1..]);
    var parts := SplitOnDots(s);
    assert parts == [[]] + rest;
    assert forall k :: 1 <= k < |parts| ==> parts[k] == rest[k - 1];
    assert forall k :: 0 <= k < |rest| ==> rest[k] == parts[k + 1];
  }

  /** A leading non-dot character joins the first piece of the rest; the later pieces are
      the rest's. */
  lemma SplitAfterChar(s: string)
    requires s != [] && s[0] != '.'
    ensures AllSegmentChars(SplitOnDots(s)[0]) <==> IsSegmentChar(s[0]) && AllSegmentChars(SplitOnDots(s[1..])[0])
    ensures IsSegment(SplitOnDots(s)[0]) <==> IsLowerLetter(s[0]) && AllSegmentChars(SplitOnDots(s[1..])[0])
    ensures LaterSegments(SplitOnDots(s)) <==> LaterSegments(SplitOnDots(s[1..]))
  {
    var parts := SplitOnDots(s);
    var rest := SplitOnDots(s[1..]);
    ConsPieces(s[0], parts, rest);
  }

  /** The pieces of a string that starts with the character c, in terms of the pieces of
      the rest: c joins the first piece, and the later pieces are the same. */
  lemma ConsPieces(c: char, parts: seq<string>, rest: seq<string>)
    requires |rest| >= 1 && parts == [[c] + rest[0]] + rest[1..]
    ensures && (AllSegmentChars(parts[0]) <==> IsSegmentChar(c) && AllSegmentChars(rest[0]))
            && (IsSegment(parts[0]) <==> IsLowerLetter(c) && AllSegmentChars(rest[0]))
            && (LaterSegments(parts) <==> LaterSegments(rest))
  {
    ConsSegment(c, rest[0]);
    assert forall k :: 1 <= k < |parts| ==> parts[k] == rest[k];
  }

  /** A character in front of a piece: the piece stays all segment characters, or becomes
      a segment, exactly as that character allows. */
  lemma ConsSegment(c: char, t: string)
    ensures AllSegmentChars([c] + t) <==> IsSegmentChar(c) && AllSegmentChars(t)
    ensures IsSegment([c] + t) <==> IsLowerLetter(c) && AllSegmentChars(t)
  {
    var h := [c] + t;
    assert h[0] == c;
    assert forall i :: 1 <= i < |h| ==> h[i] == t[i - 1];
    assert forall j :: 0 <= j < |t| ==> t[j] == h[j + 1];
  }

  lemma {:induction false} TailMatchesSegments(s: string)
    ensures MatchesPackageTail(s) <==>
              var parts := SplitOnDots(s);
              AllSegmentChars(parts[0]) && forall k :: 1 <= k < |parts| ==> IsSegment(parts[k])
    decreases |s|
  {
    if s == [] {
    } else if s[0] == '.' {
      PackagePatternIsShape(s[1..]);
      SplitAfterDot(s);
      if |s| > 1 {
        assert s[1..][1..] == s[2..];
      }
    } else {
      TailMatchesSegments(s[1..]);
      SplitAfterChar(s);
    }
  }

  /** The package-name regular expression accepts exactly the strings of that shape. */
  lemma {:induction false} PackagePatternIsShape(s: string)
    ensures MatchesPackagePattern(s) <==> PackageNameShape(s)
    decreases |s|
  {
    if s == [] {
    } else if s[0] == '.' {
      assert SplitOnDots(s)[0] == [];
    } else {
      TailMatchesSegments(s[1..]);
      SplitAfterChar(s);
      var parts := SplitOnDots(s);
      assert PackageNameShape(s) <==> IsSegment(parts[0]) && forall k :: 1 <= k < |parts| ==> IsSegment(parts[k]);
    }
  }

  /** Inside a matched tail every character is a segment character or a dot, and every dot
      is followed by a lower-case letter. */
  lemma {:induction false} TailCharacters(s: string, i: nat)
    requires MatchesPackageTail(s) && i < |s|
    ensures IsSegmentChar(s[i]) || s[i] == '.'
    ensures s[i] == '.' ==> i + 1 < |s| && IsLowerLetter(s[i + 1])
    decreases |s|
  {
    if IsSegmentChar(s[0]) {
      if i > 0 {
        TailCharacters(s[1..], i - 1);
      }
    } else if i >= 2 {
      TailCharacters(s[2..], i - 2);
    }
  }

  /** A matched package name starts with a letter, does not end with a dot and never has two
      dots in a row. */
  lemma PackagePatternDots(s: string)
    requires MatchesPackagePattern(s)
    ensures s[0] != '.' && s[|s| - 1] != '.'
    ensures forall i :: 0 <= i < |s| ==> IsSegmentChar(s[i]) || s[i] == '.'
    ensures forall i :: 0 <= i < |s| - 1 && s[i] == '.' ==> s[i + 1] != '.'
  {
    forall i | 1 <= i < |s|
      ensures IsSegmentChar(s[i]) || s[i] == '.'
      ensures s[i] == '.' ==> i + 1 < |s| && IsLowerLetter(s[i + 1])
    {
      TailCharacters(s[1..], i - 1);
    }
    if |s| > 1 {
      TailCharacters(s[1..], |s| - 2);
    }
  }

  /** The rule a package name breaks, checked in order: required, then format, then length,
      all on the trimmed value; at most one is reported. */
  function PackageNameError(raw: string): (r: Option<FieldError>)
    ensures r == Some(Required) <==> Trim(raw) == []
    ensures r == Some(BadFormat) <==> Trim(raw) != [] && !PackageNameShape(Trim(raw))
    ensures r == Some(TooLong) <==> PackageNameShape(Trim(raw)) && |Trim(raw)| > 100
    ensures r.None? <==> PackageNameShape(Trim(raw)) && |Trim(raw)| <= 100
  {
    var name := Trim(raw);
    PackagePatternIsShape(name);
    assert !PackageNameShape([]) by { assert !IsSegment(SplitOnDots([])[0]); }
    if raw == [] || name == [] then Some(Required)
    else if !MatchesPackagePattern(name) then Some(BadFormat)
    else if |name| > 100 then Some(TooLong)
    else None
  }

  /** Leading, trailing and doubled dots are format errors. */
  lemma PackageDotsRejected(raw: string)
    requires var name := Trim(raw);
      && name != []
      && (name[0] == '.' || name[|name| - 1] == '.' || exists i :: 0 <= i < |name| - 1 && name[i] == '.' && name[i + 1] == '.')
    ensures PackageNameError(raw) == Some(BadFormat)
  {
    var name := Trim(raw);
    PackagePatternIsShape(name);
    if MatchesPackagePattern(name) {
      PackagePatternDots(name);
    }
  }

  /** A well-formed package name of at most 100 characters passes; the limit is inclusive. */
  lemma PackageNameWithinLimitAccepted(name: string)
    requires PackageNameShape(name) && |name| <= 100
    ensures PackageNameError(name).None?
  {
    PackagePatternIsShape(name);
    PackagePatternDots(name);
    TrimFixesUnpadded(name);
  }

  /** The field errors of the form: the rule each field broke, if any. The text shown is
      ProjectNameMessage or PackageNameMessage of it. */
  datatype ValidationErrors = ValidationErrors(projectName: Option<FieldError>, packageName: Option<FieldError>)

  const NoErrors := ValidationErrors(None, None)

  /** The errors object validateInputs records for the two fields. */
  function InputErrors(projectName: string, packageName: string): ValidationErrors {
    ValidationErrors(ProjectNameError(projectName), PackageNameError(packageName))
  }

  /** The form's initial project name passes validation. */
  lemma InitialProjectNameValid()
    ensures ProjectNameError("MyAndroidApp").None?
  {
    ProjectNameWithinLimitAccepted("MyAndroidApp");
  }

  /** The form's initial package name passes validation. */
  lemma InitialPackageNameValid()
    ensures PackageNameError("com.example.myapp").None?
  {
    var name := "com.example.myapp";
    assert name == "com" + "." + "example" + "." + "myapp";
    ThreeSegmentsMatch("com", "example", "myapp");
    PackagePatternIsShape(name);
    PackageNameWithinLimitAccepted(name);
  }

  /** Three segments joined by dots are a well-formed package name. */
  lemma ThreeSegmentsMatch(a: string, b: string, c: string)
    requires IsSegment(a) && IsSegment(b) && IsSegment(c)
    ensures MatchesPackagePattern(a + "." + b + "." + c)
  {
    TailAfterDot(c, []);
    assert "." + c + [] == "." + c;
    TailAfterDot(b, "." + c);
    assert "." + b + ("." + c) == "." + b + "." + c;
    SegmentRest(a);
    TailOfSegment(a[1..], "." + b + "." + c);
    assert (a + "." + b + "." + c)[1..] == a[1..] + ("." + b + "." + c);
  }

  /** After its first letter, a segment is a run of segment characters. */
  lemma SegmentRest(t: string)
    requires IsSegment(t)
    ensures AllSegmentChars(t[1..])
  {
    assert forall j :: 0 <= j < |t| - 1 ==> t[1..][j] == t[j + 1];
  }

  /** A run of segment characters extends a matched tail on the left. */
  lemma {:induction false} TailOfSegment(segment: string, rest: string)
    requires AllSegmentChars(segment) && MatchesPackageTail(rest)
    ensures MatchesPackageTail(segment + rest)
    decreases |segment|
  {
    if segment != [] {
      assert AllSegmentChars(segment[1..]) by {
        assert forall j :: 0 <= j < |segment| - 1 ==> segment[1..][j] == segment[j + 1];
      }
      TailOfSegment(segment[1..], rest);
      assert (segment + rest)[0] == segment[0];
      assert (segment + rest)[1..] == segment[1..] + rest;
    } else {
      assert segment + rest == rest;
    }
  }

  /** So does a dot followed by a whole segment. */
  lemma TailAfterDot(segment: string, rest: string)
    requires IsSegment(segment) && MatchesPackageTail(rest)
    ensures MatchesPackageTail("." + segment + rest)
  {
    SegmentRest(segment);
    TailOfSegment(segment[1..], rest);
    var s := "." + segment + rest;
    assert s[0] == '.' && s[1] == segment[0];
    assert s[2..] == segment[1..] + rest;
  }

  // ---------------------------------------------------------------------------------------
  // From a caught error to the banner text (lines 110-171)

  // The fixed banner texts.
  const ChooseTemplateText := "Please choose a template first."
  const ConnectivityText := "Unable to connect to the template generation service. Please check your internet connection and try again."
  const InvalidArchiveText := "The generated template file is invalid. Please try again."
  const FilenameIssueText := "There was an issue with the generated file name. Please try again."
  const UnsupportedBrowserText := "Your browser doesn't support file downloads. Please try using a different browser."
  const DownloadFailedText := "Failed to download the generated template. Please try again."
  const GenerationFallbackText := "An unexpected error occurred while generating your template."
  const UnexpectedText := "An unexpected error occurred. Please try again or contact support if the problem persists."

  /** What the banner shows: one of the fixed texts, or an error's own message as it is. */
  datatype Notice =
    | ChooseTemplateFirst
    | Connectivity | InvalidArchive | FilenameIssue | UnsupportedBrowser | DownloadFailed
    | GenerationFallback | Unexpected
    | OwnMessage(message: ErrorMessage)
  {
    /** The text on screen. */
    function Text(): string {
      match this
      case ChooseTemplateFirst => ChooseTemplateText
      case Connectivity => ConnectivityText
      case InvalidArchive => InvalidArchiveText
      case FilenameIssue => FilenameIssueText
      case UnsupportedBrowser => UnsupportedBrowserText
      case DownloadFailed => DownloadFailedText
      case GenerationFallback => GenerationFallbackText
      case Unexpected => UnexpectedText
      case OwnMessage(message) => message.Text()
    }
  }

  /** A notice that puts something on screen. */
  predicate Readable(n: Notice) {
    !n.OwnMessage? || !IsBlank(n.message)
  }

  lemma ReadableTextNonEmpty(n: Notice)
    requires Readable(n)
    ensures n.Text() != []
  {
    if n.OwnMessage? {
      BlankIffEmptyText(n.message);
    }
  }

  /** What the catch of handleDownload receives. */
  datatype Caught = CaughtTge(error: TemplateGenerationError) | CaughtOther(thrown: JsThrown)

  /** The five codes the switch names, each with its fixed notice. */
  function FixedNotice(code: Option<ErrorCode>): (n: Option<Notice>)
    // every code but UNKNOWN_ERROR has a fixed text
    ensures n.Some? <==> code.Some? && code.value != UnknownError
  {
    match code
    case Some(NetworkError) => Some(Connectivity)
    case Some(InvalidBlob) => Some(InvalidArchive)
    case Some(InvalidFilename) => Some(FilenameIssue)
    case Some(BrowserNotSupported) => Some(UnsupportedBrowser)
    case Some(DownloadError) => Some(DownloadFailed)
    case _ => None
  }

  /** The banner for a caught error. It is always readable, so no failure goes unseen; an
      error's own message is shown only when no fixed code applies and it is non-empty. */
  function UserMessage(c: Caught): (n: Notice)
    ensures Readable(n)
    ensures n.OwnMessage? ==> c.CaughtTge? && FixedNotice(c.error.code).None? && n.message == c.error.message
    ensures c.CaughtTge? && FixedNotice(c.error.code).None? && !IsBlank(c.error.message) ==> n == OwnMessage(c.error.message)
    ensures c.CaughtOther? ==> n == Unexpected
  {
    match c
    case CaughtTge(e) =>
      (match FixedNotice(e.code)
       case Some(notice) => notice
       case None => if !IsBlank(e.message) then OwnMessage(e.message) else GenerationFallback)
    case CaughtOther(_) => Unexpected
  }

  /** For the five codes the banner depends on the code alone, not on the error's message
      or status. */
  lemma FixedCodeIgnoresMessage(e: TemplateGenerationError, f: TemplateGenerationError)
    requires e.code == f.code && FixedNotice(e.code).Some?
    ensures UserMessage(CaughtTge(e)) == UserMessage(CaughtTge(f)) == FixedNotice(e.code).value
  {
  }

  /** The five fixed texts tell the five codes apart. */
  lemma FixedTextsDistinct(a: ErrorCode, b: ErrorCode)
    requires FixedNotice(Some(a)).Some? && FixedNotice(Some(b)).Some? && a != b
    ensures FixedNotice(Some(a)).value.Text() != FixedNotice(Some(b)).value.Text()
  {
  }

  /** An error with no fixed code (none, or UNKNOWN_ERROR) and a blank message falls back to
      the generic text. */
  lemma EmptyMessageFallsBack(e: TemplateGenerationError)
    requires FixedNotice(e.code).None? && IsBlank(e.message)
    ensures UserMessage(CaughtTge(e)) == GenerationFallback
  {
  }

  /** The empty-body error has no code, so the banner shows its raw text and not the
      invalid-archive text. */
  lemma EmptyFileShowsRawText(status: nat)
    ensures UserMessage(CaughtTge(TemplateGenerationError(EmptyFileReceived, Some(status), None))) == OwnMessage(EmptyFileReceived)
    ensures OwnMessage(EmptyFileReceived).Text() != InvalidArchive.Text()
  {
  }

  /** The four codes downloadBlob raises each have a fixed notice, which is the banner. */
  lemma FixedCodesHaveNotices(e: TemplateGenerationError)
    requires e.code.Some? && e.code.value in {InvalidBlob, InvalidFilename, BrowserNotSupported, DownloadError}
    ensures FixedNotice(e.code).Some? && UserMessage(CaughtTge(e)) == FixedNotice(e.code).value
  {
  }

  /** Every failure of the download step is shown with its code's fixed notice. */
  lemma DownloadFailuresHaveFixedText(blob: Option<Blob>, filename: string, supportsObjectUrl: bool, step: AnchorStep)
    requires DownloadOutcome(blob, filename, supportsObjectUrl, step).Fail?
    ensures var e := DownloadOutcome(blob, filename, supportsObjectUrl, step).error;
            FixedNotice(e.code).Some? && UserMessage(CaughtTge(e)) == FixedNotice(e.code).value
  {
    var e := DownloadOutcome(blob, filename, supportsObjectUrl, step).error;
    FixedCodesHaveNotices(e);
  }

  /** A server error's derived message is what the banner shows, unless it is empty. */
  lemma ServerMessageShown(payload: GenerateTemplateRequest, response: Response, host: Host)
    requires !IsOk(response.status)
    ensures var m := ServerErrorMessage(response.status, response.body, host.parseJson);
            m.Success? ==>
              UserMessage(CaughtTge(GenerateOutcome(payload, Responded(response), host).error))
                == (if !IsBlank(m.value) then OwnMessage(m.value) else GenerationFallback)
  {
  }

  /** The request a submission sends (lines 121-133): the trimmed names, the dependency
      list and the compiler type. */
  function BuildRequest(
    projectName: string, packageName: string, di: DiLibrary, network: NetworkLibrary,
    features: Features, processor: AnnotationProcessor): (r: GenerateTemplateRequest)
    // the dependency list and compiler type are those of the form's choices
    ensures r.dependencyList == DependencyList(di, network, features) && r.compilerType == CompilerType(processor)
    // the names are sent with no whitespace at either end
    ensures Unpadded(r.projectName) && Unpadded(r.packageName)
  {
    GenerateTemplateRequest(
      Trim(projectName), Trim(packageName), DependencyList(di, network, features), CompilerType(processor))
  }

  /** The filename handed to downloadBlob (line 137). */
  function DownloadName(filename: string, projectName: string): (name: string)
    ensures filename != [] ==> name == filename
    // the fallback always passes downloadBlob's blank-name check
    ensures filename == [] ==> Trim(name) != []
  {
    if filename != [] then filename
    else
      var name := Trim(projectName) + ZipSuffix;
      TrimEmptyIffBlank(name);
      assert !IsJsWhitespace(name[|name| - 1]);
      name
  }

  /** The project-name rules of validateInputs, checked one after the other. */
  method CheckProjectName(raw: string) returns (error: Option<FieldError>)
    ensures error == ProjectNameError(raw)
  {
    error := None;
    var name := Trim(raw);
    if raw == [] || name == [] {
      error := Some(Required);
    } else if !MatchesProjectPattern(name) {
      error := Some(BadFormat);
    } else if |name| > 50 {
      error := Some(TooLong);
    }
  }

  /** The package-name rules of validateInputs, checked one after the other. */
  method CheckPackageName(raw: string) returns (error: Option<FieldError>)
    ensures error == PackageNameError(raw)
  {
    error := None;
    var name := Trim(raw);
    if raw == [] || name == [] {
      error := Some(Required);
    } else if !MatchesPackagePattern(name) {
      error := Some(BadFormat);
    } else if |name| > 100 {
      error := Some(TooLong);
    }
  }

  /** The body of validateInputs: the errors object and the isValid flag, built field by
      field. */
  method CheckInputs(projectName: string, packageName: string) returns (errors: ValidationErrors, isValid: bool)
    ensures errors == InputErrors(projectName, packageName)
    ensures isValid <==> errors == NoErrors
  {
    errors := NoErrors;
    isValid := true;

    var projectError := CheckProjectName(projectName);
    if projectError.Some? {
      errors := errors.(projectName := projectError);
      isValid := false;
    }

    var packageError := CheckPackageName(packageName);
    if packageError.Some? {
      errors := errors.(packageName := packageError);
      isValid := false;
    }
  }

  /** The download step of a submission, given what generateTemplate gave: the error of the
      first part that failed, or Pass when the file was handed to the browser. */
  function Delivery(
    generated: Result<GenerateTemplateResponse, TemplateGenerationError>, projectName: string,
    supportsObjectUrl: bool, step: AnchorStep): (r: Outcome<TemplateGenerationError>)
    ensures r.Pass? ==> generated.Success?
    ensures generated.Failure? ==> r == Fail(generated.error)
    // a failure after a successful generation is a download failure: a fixed code, no status
    ensures generated.Success? && r.Fail? ==> r.error.status.None? && r.error.code.Some? && r.error.code.value != UnknownError
  {
    match generated
    case Failure(e) => Fail(e)
    case Success(response) =>
      DownloadOutcome(Some(response.blob), DownloadName(response.filename, projectName), supportsObjectUrl, step)
  }

  /** The browser's logs after a submission: downloadBlob ran, on the response's blob and
      the name handed to it, exactly when generateTemplate succeeded. */
  ghost function Handover(
    generated: Option<Result<GenerateTemplateResponse, TemplateGenerationError>>, projectName: string,
    supportsObjectUrl: bool, step: AnchorStep, log: BrowserLog): BrowserLog
  {
    if generated.Some? && generated.value.Success? then
      var response := generated.value.value;
      AfterDownload(log, Some(response.blob), DownloadName(response.filename, projectName), supportsObjectUrl, step)
    else log
  }

  /** The banner after a submission's delivery step: the caught error's text, or nothing. */
  function Banner(delivery: Outcome<TemplateGenerationError>): (m: Option<Notice>)
    ensures m.Some? ==> Readable(m.value)
    // a banner is shown exactly when the delivery failed
    ensures m.None? <==> delivery.Pass?
  {
    match delivery
    case Pass => None
    case Fail(e) => Some(UserMessage(CaughtTge(e)))
  }

  /** What a submission reads from the form. */
  datatype FormInput = FormInput(
    selectedTemplate: Option<Tier>, projectName: string, packageName: string,
    network: NetworkLibrary, di: DiLibrary, processor: AnnotationProcessor, features: Features)

  /** What a submission leaves: the banner, the field messages, and, when a request was
      sent, that request, what generateTemplate gave for it and the result of the download. */
  datatype Submission = Submission(
    errorMessage: Option<Notice>, validationErrors: ValidationErrors,
    sent: Option<GenerateTemplateRequest>,
    generated: Option<Result<GenerateTemplateResponse, TemplateGenerationError>>,
    delivery: Option<Outcome<TemplateGenerationError>>)

  /** handleDownload as a function of the form, the server's answer, the foreign functions
      and the browser's behaviour. What it guarantees is stated by SubmitGate and
      SubmitMessages. */
  function Submit(form: FormInput, fetch: FetchOutcome, host: Host, supportsObjectUrl: bool, step: AnchorStep): Submission {
    if form.selectedTemplate.None? then Submission(Some(ChooseTemplateFirst), NoErrors, None, None, None)
    else
      var errors := InputErrors(form.projectName, form.packageName);
      if errors != NoErrors then Submission(None, errors, None, None, None)
      else
        var request := BuildRequest(form.projectName, form.packageName, form.di, form.network, form.features, form.processor);
        var generated := GenerateOutcome(request, fetch, host);
        var delivery := Delivery(generated, form.projectName, supportsObjectUrl, step);
        Submission(Banner(delivery), NoErrors, Some(request), Some(generated), Some(delivery))
  }

  // The three ways a submission goes, one lemma each, for the handlers' proofs.

  lemma SubmitWithoutTier(form: FormInput, fetch: FetchOutcome, host: Host, supportsObjectUrl: bool, step: AnchorStep)
    requires form.selectedTemplate.None?
    ensures Submit(form, fetch, host, supportsObjectUrl, step) == Submission(Some(ChooseTemplateFirst), NoErrors, None, None, None)
  {
  }

  lemma SubmitRejected(form: FormInput, fetch: FetchOutcome, host: Host, supportsObjectUrl: bool, step: AnchorStep, errors: ValidationErrors)
    requires form.selectedTemplate.Some? && errors == InputErrors(form.projectName, form.packageName) != NoErrors
    ensures Submit(form, fetch, host, supportsObjectUrl, step) == Submission(None, errors, None, None, None)
  {
  }

  lemma SubmitSent(
    form: FormInput, fetch: FetchOutcome, host: Host, supportsObjectUrl: bool, step: AnchorStep,
    request: GenerateTemplateRequest, generated: Result<GenerateTemplateResponse, TemplateGenerationError>,
    delivery: Outcome<TemplateGenerationError>)
    requires form.selectedTemplate.Some? && InputErrors(form.projectName, form.packageName) == NoErrors
    requires request == BuildRequest(form.projectName, form.packageName, form.di, form.network, form.features, form.processor)
    requires generated == GenerateOutcome(request, fetch, host)
    requires delivery == Delivery(generated, form.projectName, supportsObjectUrl, step)
    ensures Submit(form, fetch, host, supportsObjectUrl, step)
              == Submission(Banner(delivery), NoErrors, Some(request), Some(generated), Some(delivery))
  {
  }

  /** A request goes out exactly when a tier is chosen and both names pass validation, and
      only trimmed, well-formed names within their limits reach the server. */
  lemma SubmitGate(form: FormInput, fetch: FetchOutcome, host: Host, supportsObjectUrl: bool, step: AnchorStep)
    ensures var r := Submit(form, fetch, host, supportsObjectUrl, step);
            && (r.sent.Some? <==> form.selectedTemplate.Some? && InputErrors(form.projectName, form.packageName) == NoErrors)
            && (r.generated.Some? <==> r.sent.Some?) && (r.delivery.Some? <==> r.sent.Some?)
            && (r.sent.Some? ==> r.generated.value == GenerateOutcome(r.sent.value, fetch, host))
            && (r.sent.Some? ==>
                  && r.sent.value.projectName == Trim(form.projectName)
                  && r.sent.value.packageName == Trim(form.packageName)
                  && r.sent.value.dependencyList == DependencyList(form.di, form.network, form.features)
                  && r.sent.value.compilerType == CompilerType(form.processor)
                  && ProjectNameShape(r.sent.value.projectName) && |r.sent.value.projectName| <= 50
                  && PackageNameShape(r.sent.value.packageName) && |r.sent.value.packageName| <= 100)
  {
  }

  /** Every failure leaves one readable banner: with no tier, the one message and nothing
      else; with a tier, the field messages of validateInputs and no banner when they stop
      the submission; after a request, a banner exactly when the file was not handed over. */
  lemma SubmitMessages(form: FormInput, fetch: FetchOutcome, host: Host, supportsObjectUrl: bool, step: AnchorStep)
    ensures var r := Submit(form, fetch, host, supportsObjectUrl, step);
            && (r.errorMessage.Some? ==> Readable(r.errorMessage.value))
            && (form.selectedTemplate.None? ==> r.errorMessage == Some(ChooseTemplateFirst) && r.validationErrors == NoErrors)
            && (form.selectedTemplate.Some? ==> r.validationErrors == InputErrors(form.projectName, form.packageName))
            && (form.selectedTemplate.Some? && r.sent.None? ==> r.errorMessage.None?)
            && (r.sent.Some? ==> (r.errorMessage.None? <==> r.delivery == Some(Pass)))
  {
    var errors := InputErrors(form.projectName, form.packageName);
    if form.selectedTemplate.None? {
      SubmitWithoutTier(form, fetch, host, supportsObjectUrl, step);
    } else if errors != NoErrors {
      SubmitRejected(form, fetch, host, supportsObjectUrl, step, errors);
    } else {
      var request := BuildRequest(form.projectName, form.packageName, form.di, form.network, form.features, form.processor);
      var generated := GenerateOutcome(request, fetch, host);
      var delivery := Delivery(generated, form.projectName, supportsObjectUrl, step);
      SubmitSent(form, fetch, host, supportsObjectUrl, step, request, generated, delivery);
      assert Banner(delivery).None? <==> delivery == Pass;
    }
  }

  // ---------------------------------------------------------------------------------------
  // The form's state and handlers

  class TemplateGenerator {
    var selectedTemplate: Option<Tier>
    var isDialogOpen: bool
    var projectName: string
    var packageName: string
    var isGenerating: bool
    var errorMessage: Option<Notice>
    var validationErrors: ValidationErrors
    var retryCount: nat
    var networkClientType: NetworkLibrary
    var dependencyInjectionType: DiLibrary
    var compileTime: AnnotationProcessor
    var features: Features

    /** Only an available tier is ever selected, and every message on show is non-empty
        (so a truthiness test on it is a presence test). */
    ghost predicate Valid()
      reads this`selectedTemplate, this`errorMessage
    {
      && (selectedTemplate.Some? ==> TierAvailable(selectedTemplate.value))
      && (errorMessage.Some? ==> Readable(errorMessage.value))
    }

    /** The initial state of the useState hooks (lines 27-48). */
    constructor ()
      ensures Valid()
      ensures selectedTemplate.None? && !isDialogOpen && !isGenerating
      ensures projectName == "MyAndroidApp" && packageName == "com.example.myapp"
      ensures errorMessage.None? && validationErrors == NoErrors && retryCount == 0
      ensures networkClientType == Ktor && dependencyInjectionType == Hilt && compileTime == Ksp
      ensures features == Features(true, true, true, false, false)
    {
      selectedTemplate := None;
      isDialogOpen := false;
      projectName := "MyAndroidApp";
      packageName := "com.example.myapp";
      isGenerating := false;
      errorMessage := None;
      validationErrors := NoErrors;
      retryCount := 0;
      networkClientType := Ktor;
      dependencyInjectionType := Hilt;
      compileTime := Ksp;
      features := Features(true, true, true, false, false);
    }

    /** A click on a tier card or its button: only an available tier is taken. */
    method SelectTemplate(t: Tier)
      requires Valid()
      modifies this`selectedTemplate
      ensures Valid()
      ensures selectedTemplate == if TierAvailable(t) then Some(t) else old(selectedTemplate)
    {
      if TierAvailable(t) {
        selectedTemplate := Some(t);
      }
    }

    /** "Generate Project", rendered only once a tier is selected. */
    method OpenDialog()
      requires selectedTemplate.Some?
      modifies this`isDialogOpen
      ensures isDialogOpen
    {
      isDialogOpen := true;
    }

    /** The dialog's own open/close events (Escape, the overlay): they change the open flag
        and nothing else, so errors and the retry counter survive. */
    method DialogOpenChange(open: bool)
      modifies this`isDialogOpen
      ensures isDialogOpen == open
    {
      isDialogOpen := open;
    }

    /** clearErrors */
    method ClearErrors()
      requires Valid()
      modifies this`errorMessage, this`validationErrors, this`retryCount
      ensures Valid()
      ensures errorMessage.None? && validationErrors == NoErrors && retryCount == 0
    {
      errorMessage := None;
      validationErrors := NoErrors;
      retryCount := 0;
    }

    /** The Cancel button: close the dialog, then clearErrors. */
    method Cancel()
      requires Valid()
      modifies this`isDialogOpen, this`errorMessage, this`validationErrors, this`retryCount
      ensures Valid()
      ensures !isDialogOpen && errorMessage.None? && validationErrors == NoErrors && retryCount == 0
    {
      isDialogOpen := false;
      ClearErrors();
    }

    /** Typing into the project-name field: the value changes and that field's message, if
        any, is cleared; the other field's message stays. */
    method EditProjectName(value: string)
      requires Valid()
      modifies this`projectName, this`validationErrors
      ensures Valid()
      ensures projectName == value
      ensures validationErrors == old(validationErrors).(projectName := None)
    {
      projectName := value;
      if validationErrors.projectName.Some? {
        validationErrors := validationErrors.(projectName := None);
      }
    }

    /** Typing into the package-name field, likewise. */
    method EditPackageName(value: string)
      requires Valid()
      modifies this`packageName, this`validationErrors
      ensures Valid()
      ensures packageName == value
      ensures validationErrors == old(validationErrors).(packageName := None)
    {
      packageName := value;
      if validationErrors.packageName.Some? {
        validationErrors := validationErrors.(packageName := None);
      }
    }

    method ChooseNetworkLibrary(n: NetworkLibrary)
      modifies this`networkClientType
      ensures networkClientType == n
    {
      networkClientType := n;
    }

    method ChooseDiLibrary(d: DiLibrary)
      modifies this`dependencyInjectionType
      ensures dependencyInjectionType == d
    {
      dependencyInjectionType := d;
    }

    method ChooseAnnotationProcessor(p: AnnotationProcessor)
      modifies this`compileTime
      ensures compileTime == p
    {
      compileTime := p;
    }

    /** toggleFeature */
    method ToggleFeature(f: Feature)
      modifies this`features
      ensures features == old(features).Toggle(f)
    {
      features := features.Toggle(f);
    }

    /** validateInputs: the errors object and the isValid flag are built field by field,
        then recorded. Only the field messages change, so Valid() is untouched. */
    method ValidateInputs() returns (isValid: bool)
      modifies this`validationErrors
      ensures validationErrors == InputErrors(projectName, packageName)
      ensures isValid <==> validationErrors == NoErrors
    {
      var project, package := projectName, packageName;
      var errors;
      errors, isValid := CheckInputs(project, package);
      validationErrors := errors;
      assert project == projectName && package == packageName;
    }

    /** The retry affordance (lines 465-468): an error is on show and fewer than three
        retries were made. */
    predicate RetryOffered()
      reads this
    {
      errorMessage.Some? && retryCount < 3
    }

    /** The retry caption (line 471). */
    function RetryCaption(): (caption: string)
      reads this
      ensures caption == [] <==> retryCount == 0
    {
      if retryCount > 0 then "Retry attempt " + Decimal(retryCount) + "/3" else ""
    }

    /** The form's current input, as handleDownload reads it. */
    function Inputs(): FormInput
      reads this
    {
      FormInput(selectedTemplate, projectName, packageName, networkClientType, dependencyInjectionType, compileTime, features)
    }

    /** handleDownload: clear the banner and field errors (not the retry counter), check the
        tier, validate, then generate and download. The out-parameter is the request sent to
        the server, if any. The busy flag ends false once a request was sent, and the dialog
        closes only when the file was handed to the browser. */
    method HandleDownload(fetch: FetchOutcome, host: Host, browser: Browser, step: AnchorStep)
      returns (sent: Option<GenerateTemplateRequest>)
      requires Valid() && browser.Valid()
      modifies this`errorMessage, this`validationErrors, this`isGenerating, this`isDialogOpen
      modifies browser`urls, browser`revoked, browser`saved
      ensures Valid() && browser.Valid()
      ensures var r := Submit(old(Inputs()), fetch, host, browser.supportsObjectUrl, step);
              && errorMessage == r.errorMessage && validationErrors == r.validationErrors && sent == r.sent
              && isGenerating == (if r.sent.Some? then false else old(isGenerating))
              && isDialogOpen == (if r.delivery == Some(Pass) then false else old(isDialogOpen))
              && browser.Log() == Handover(r.generated, old(projectName), browser.supportsObjectUrl, step, old(browser.Log()))
      ensures LiveUrls(|browser.urls|, browser.revoked) == LiveUrls(|old(browser.urls)|, old(browser.revoked))
    {
      var form := Inputs();
      errorMessage := None;
      validationErrors := NoErrors;

      if form.selectedTemplate.None? {
        errorMessage := Some(ChooseTemplateFirst);
        SubmitWithoutTier(form, fetch, host, browser.supportsObjectUrl, step);
        assert isDialogOpen == old(isDialogOpen);
        return None;
      }

      assert form == Inputs() && isDialogOpen == old(isDialogOpen) && isGenerating == old(isGenerating);
      sent := ValidateAndDeliver(form, fetch, host, browser, step);
    }

    /** handleDownload once a tier is selected and the messages are cleared: validate, and
        when the names pass, send the request and deliver the file. */
    method ValidateAndDeliver(form: FormInput, fetch: FetchOutcome, host: Host, browser: Browser, step: AnchorStep)
      returns (sent: Option<GenerateTemplateRequest>)
      requires Valid() && browser.Valid()
      requires form == Inputs() && form.selectedTemplate.Some?
      requires errorMessage.None? && validationErrors == NoErrors
      modifies this`errorMessage, this`validationErrors, this`isGenerating, this`isDialogOpen
      modifies browser`urls, browser`revoked, browser`saved
      ensures Valid() && browser.Valid()
      ensures var r := Submit(form, fetch, host, browser.supportsObjectUrl, step);
              && errorMessage == r.errorMessage && validationErrors == r.validationErrors && sent == r.sent
              && isGenerating == (if r.sent.Some? then false else old(isGenerating))
              && isDialogOpen == (if r.delivery == Some(Pass) then false else old(isDialogOpen))
              && browser.Log() == Handover(r.generated, form.projectName, browser.supportsObjectUrl, step, old(browser.Log()))
      ensures LiveUrls(|browser.urls|, browser.revoked) == LiveUrls(|old(browser.urls)|, old(browser.revoked))
    {
      var valid := ValidateInputs();
      assert form.projectName == projectName && form.packageName == packageName;
      if !valid {
        SubmitRejected(form, fetch, host, browser.supportsObjectUrl, step, validationErrors);
        assert browser.Log() == old(browser.Log()) == Handover(None, form.projectName, browser.supportsObjectUrl, step, old(browser.Log()));
        assert isDialogOpen == old(isDialogOpen);
        return None;
      }

      assert isDialogOpen == old(isDialogOpen) && isGenerating == old(isGenerating) && browser.Log() == old(browser.Log());
      sent := SendValid(form, fetch, host, browser, step);
    }

    /** The rest of handleDownload once both names have passed validation: build the
        request from the trimmed names and the form's choices, then generate and deliver. */
    method SendValid(form: FormInput, fetch: FetchOutcome, host: Host, browser: Browser, step: AnchorStep)
      returns (sent: Option<GenerateTemplateRequest>)
      requires Valid() && browser.Valid()
      requires form.selectedTemplate.Some? && InputErrors(form.projectName, form.packageName) == NoErrors
      requires errorMessage.None? && validationErrors == NoErrors
      modifies this`errorMessage, this`isGenerating, this`isDialogOpen
      modifies browser`urls, browser`revoked, browser`saved
      ensures Valid() && browser.Valid()
      ensures var r := Submit(form, fetch, host, browser.supportsObjectUrl, step);
              && errorMessage == r.errorMessage && validationErrors == r.validationErrors && sent == r.sent
              && isGenerating == (if r.sent.Some? then false else old(isGenerating))
              && isDialogOpen == (if r.delivery == Some(Pass) then false else old(isDialogOpen))
              && browser.Log() == Handover(r.generated, form.projectName, browser.supportsObjectUrl, step, old(browser.Log()))
      ensures LiveUrls(|browser.urls|, browser.revoked) == LiveUrls(|old(browser.urls)|, old(browser.revoked))
    {
      var request := BuildRequest(form.projectName, form.packageName, form.di, form.network, form.features, form.processor);
      sent := Some(request);
      ghost var outcome := GenerateOutcome(request, fetch, host);
      SubmitSent(form, fetch, host, browser.supportsObjectUrl, step, request, outcome,
                 Delivery(outcome, form.projectName, browser.supportsObjectUrl, step));
      var generated := Deliver(request, form.projectName, fetch, host, browser, step);
    }

    /** The try block of handleDownload once the inputs are valid: mark the form busy,
        generate, download, and clear the busy flag whatever happened (the finally). The
        out-parameter is what generateTemplate gave. */
    method Deliver(
      request: GenerateTemplateRequest, project: string, fetch: FetchOutcome, host: Host,
      browser: Browser, step: AnchorStep)
      returns (generated: Result<GenerateTemplateResponse, TemplateGenerationError>)
      requires Valid() && browser.Valid() && errorMessage.None?
      modifies this`errorMessage, this`isGenerating, this`isDialogOpen
      modifies browser`urls, browser`revoked, browser`saved
      ensures Valid() && browser.Valid() && !isGenerating
      ensures generated == GenerateOutcome(request, fetch, host)
      ensures var delivery := Delivery(generated, project, browser.supportsObjectUrl, step);
              && errorMessage == Banner(delivery)
              && isDialogOpen == (if delivery.Pass? then false else old(isDialogOpen))
      ensures browser.Log() == Handover(Some(generated), project, browser.supportsObjectUrl, step, old(browser.Log()))
      ensures LiveUrls(|browser.urls|, browser.revoked) == LiveUrls(|old(browser.urls)|, old(browser.revoked))
    {
      isGenerating := true;
      generated := GenerateTemplate(request, fetch, host);
      if generated.Failure? {
        errorMessage := Some(UserMessage(CaughtTge(generated.error)));
        assert browser.Log() == old(browser.Log());
      } else {
        DownloadGenerated(generated.value, project, browser, step);
      }
      isGenerating := false;
    }

    /** The download half of Deliver, once generateTemplate has given a response: hand
        the blob to downloadBlob under the chosen name; close the dialog when that
        passes, show its error otherwise. */
    method DownloadGenerated(response: GenerateTemplateResponse, project: string, browser: Browser, step: AnchorStep)
      requires Valid() && browser.Valid() && errorMessage.None?
      modifies this`errorMessage, this`isDialogOpen
      modifies browser`urls, browser`revoked, browser`saved
      ensures Valid() && browser.Valid()
      ensures var delivery := Delivery(Success(response), project, browser.supportsObjectUrl, step);
              && errorMessage == Banner(delivery)
              && isDialogOpen == (if delivery.Pass? then false else old(isDialogOpen))
      ensures browser.Log() == Handover(Some(Success(response)), project, browser.supportsObjectUrl, step, old(browser.Log()))
      ensures LiveUrls(|browser.urls|, browser.revoked) == LiveUrls(|old(browser.urls)|, old(browser.revoked))
    {
      var downloaded := browser.DownloadBlob(Some(response.blob), DownloadName(response.filename, project), step);
      if downloaded.Fail? {
        errorMessage := Some(UserMessage(CaughtTge(downloaded.error)));
      } else {
        isDialogOpen := false;
      }
    }

    /** handleRetry: one more retry counted, then a full submission. */
    method HandleRetry(fetch: FetchOutcome, host: Host, browser: Browser, step: AnchorStep)
      returns (sent: Option<GenerateTemplateRequest>)
      requires Valid() && browser.Valid()
      modifies this`retryCount, this`errorMessage, this`validationErrors, this`isGenerating, this`isDialogOpen
      modifies browser`urls, browser`revoked, browser`saved
      ensures Valid() && browser.Valid()
      ensures retryCount == old(retryCount) + 1
      // the third retry in a row takes the retry button away
      ensures RetryOffered() <==> errorMessage.Some? && old(retryCount) < 2
      ensures var r := Submit(old(Inputs()), fetch, host, browser.supportsObjectUrl, step);
              && errorMessage == r.errorMessage && validationErrors == r.validationErrors && sent == r.sent
              && isGenerating == (if r.sent.Some? then false else old(isGenerating))
              && isDialogOpen == (if r.delivery == Some(Pass) then false else old(isDialogOpen))
              && browser.Log() == Handover(r.generated, old(projectName), browser.supportsObjectUrl, step, old(browser.Log()))
      ensures LiveUrls(|browser.urls|, browser.revoked) == LiveUrls(|old(browser.urls)|, old(browser.revoked))
    {
      retryCount := retryCount + 1;
      sent := HandleDownload(fetch, host, browser, step);
    }
  }
}
