// Small helpers of src/utils.rs: coordinate parsing, duration formatting,
// file-name sanitising, truncation, app-path validation, retry with
// exponential backoff and version-line extraction.

module Utils {
  import opened Common
  import opened Errors

  // ---------------------------------------------------------------------
  // parse_coordinates

  /** "x,y": exactly two comma-separated parts, each trimmed and read as an i32. */
  function ParseCoordinates(text: string): (r: KResult<(int, int)>)
    ensures r.Ok? <==> (|Split(text, ',')| == 2
                        && ParseI32(Trim(Split(text, ',')[0])).Some?
                        && ParseI32(Trim(Split(text, ',')[1])).Some?)
    ensures r.Ok? ==> InI32(r.value.0) && InI32(r.value.1)
    ensures r.Err? ==> r.error.kind == InvalidInput
  {
    var parts := Split(text, ',');
    if |parts| != 2 then Err(KMobileError(InvalidInput, "Invalid coordinate format. Expected 'x,y'"))
    else match ParseI32(Trim(parts[0]))
      case None => Err(KMobileError(InvalidInput, "Invalid x coordinate"))
      case Some(x) =>
        match ParseI32(Trim(parts[1]))
        case None => Err(KMobileError(InvalidInput, "Invalid y coordinate"))
        case Some(y) => Ok((x, y))
  }

  lemma {:induction false} DigitsHaveNoComma(s: string)
    requires AllDigits(s)
    ensures FindChar(s, ',').None?
  {
  }

  lemma {:induction false} SplitAtOneComma(a: string, b: string)
    requires FindChar(a, ',').None? && FindChar(b, ',').None?
    ensures Split(a + "," + b, ',') == [a, b]
  {
    var s := a + "," + b;
    assert s[|a|] == ',';
    assert forall j :: 0 <= j < |a| ==> s[j] == a[j];
    assert FindChar(s, ',') == Some(|a|);
    assert s[..|a|] == a;
    assert s[|a| + 1..] == b;
  }

  lemma ParseRendered(x: int)
    requires InI32(x)
    ensures ParseI32(Trim(IntToString(x))) == Some(x)
    ensures FindChar(IntToString(x), ',').None?
  {
    IntToStringShape(x);
    FindCharAbsent(IntToString(x), ',');
    TrimUnchanged(IntToString(x));
    ParseIntToString(x);
  }

  /** Rendering a pair as "x,y" and parsing it gives the pair back. */
  lemma CoordinatesRoundTrip(x: int, y: int)
    requires InI32(x) && InI32(y)
    ensures ParseCoordinates(IntToString(x) + "," + IntToString(y)) == Ok((x, y))
  {
    ParseRendered(x);
    ParseRendered(y);
    SplitAtOneComma(IntToString(x), IntToString(y));
  }

  lemma NatToStringHundreds()
    ensures NatToString(100) == "100" && NatToString(200) == "200"
  {
    assert NatToString(1) == "1" && NatToString(10) == "10";
    assert NatToString(2) == "2" && NatToString(20) == "20";
  }

  /** The accepted inputs of the unit test. */
  lemma CoordinatesAccepted()
    ensures ParseCoordinates("100,200") == Ok((100, 200))
    ensures ParseCoordinates("0,0") == Ok((0, 0))
  {
    HundredsAccepted();
    OriginAccepted();
  }

  lemma HundredsAccepted()
    ensures ParseCoordinates("100,200") == Ok((100, 200))
  {
    HundredsText();
    CoordinatesRoundTrip(100, 200);
  }

  lemma HundredsText()
    ensures IntToString(100) + "," + IntToString(200) == "100,200"
  {
    NatToStringHundreds();
    assert "100" + "," + "200" == "100,200";
  }

  lemma OriginAccepted()
    ensures ParseCoordinates("0,0") == Ok((0, 0))
  {
    CoordinatesRoundTrip(0, 0);
    assert IntToString(0) + "," + IntToString(0) == "0,0";
  }

  /** The rejected inputs of the unit test: no comma at all. */
  lemma CoordinatesRejected()
    ensures ParseCoordinates("invalid").Err?
    ensures ParseCoordinates("100").Err?
  {
    FindCharAbsent("invalid", ',');
    FindCharAbsent("100", ',');
  }

  // ---------------------------------------------------------------------
  // format_duration

  /** "{h}h {m}m {s}s" when there are hours, "{m}m {s}s" when there are
    * minutes, else "{s}s"; sub-second parts are dropped before the call. */
  function FormatDuration(totalSeconds: nat): string
  {
    FormatClock(totalSeconds / 3600, (totalSeconds % 3600) / 60, totalSeconds % 60)
  }

  function FormatClock(hours: nat, minutes: nat, seconds: nat): string
  {
    if hours > 0 then NatToString(hours) + "h " + NatToString(minutes) + "m " + NatToString(seconds) + "s"
    else if minutes > 0 then NatToString(minutes) + "m " + NatToString(seconds) + "s"
    else NatToString(seconds) + "s"
  }

  function UnitSeconds(unit: char): nat
  {
    if unit == 'h' then 3600 else if unit == 'm' then 60 else 1
  }

  /** Reads a rendered duration back: space-separated "<digits><unit>" parts, summed. */
  function DurationValue(parts: seq<string>): Option<nat>
  {
    if parts == [] then Some(0)
    else
      var p := parts[0];
      if |p| < 2 || !AllDigits(p[..|p| - 1]) then None
      else match DurationValue(parts[1..])
        case None => None
        case Some(rest) => Some(DigitsValue(p[..|p| - 1]) * UnitSeconds(p[|p| - 1]) + rest)
  }

  function ParseDuration(text: string): Option<nat>
  {
    DurationValue(Split(text, ' '))
  }

  lemma {:induction false} DigitsHaveNoSpace(s: string)
    requires AllDigits(s)
    ensures FindChar(s, ' ').None?
  {
  }

  lemma {:induction false} SplitAtSpace(a: string, b: string)
    requires FindChar(a, ' ').None?
    ensures Split(a + " " + b, ' ') == [a] + Split(b, ' ')
  {
    var s := a + " " + b;
    assert s[|a|] == ' ';
    assert forall j :: 0 <= j < |a| ==> s[j] == a[j];
    assert FindChar(s, ' ') == Some(|a|);
    assert s[..|a|] == a;
    assert s[|a| + 1..] == b;
  }

  lemma {:induction false} UnitPart(n: nat, unit: char, rest: seq<string>)
    requires unit != ' ' && DurationValue(rest).Some?
    ensures FindChar(NatToString(n) + [unit], ' ').None?
    ensures DurationValue([NatToString(n) + [unit]] + rest) == Some(n * UnitSeconds(unit) + DurationValue(rest).value)
  {
    var p := NatToString(n) + [unit];
    NatToStringValue(n);
    assert p[..|p| - 1] == NatToString(n);
    DigitsHaveNoSpace(NatToString(n));
    FindCharAbsent(p, ' ');
    assert ([p] + rest)[1..] == rest;
  }

  lemma {:induction false} SecondsPart(sec: nat)
    ensures Split(NatToString(sec) + "s", ' ') == [NatToString(sec) + "s"]
    ensures ParseDuration(NatToString(sec) + "s") == Some(sec)
  {
    UnitPart(sec, 's', []);
    assert [NatToString(sec) + "s"] + [] == [NatToString(sec) + "s"];
  }

  lemma {:induction false} MinutesPart(m: nat, sec: nat)
    ensures Split(NatToString(m) + "m " + NatToString(sec) + "s", ' ') == [NatToString(m) + "m", NatToString(sec) + "s"]
    ensures ParseDuration(NatToString(m) + "m " + NatToString(sec) + "s") == Some(m * 60 + sec)
  {
    var pm, ps := NatToString(m) + "m", NatToString(sec) + "s";
    SecondsPart(sec);
    UnitPart(m, 'm', [ps]);
    assert NatToString(m) + "m " + NatToString(sec) + "s" == pm + " " + ps;
    SplitAtSpace(pm, ps);
  }

  lemma {:induction false} HoursPart(h: nat, m: nat, sec: nat)
    ensures ParseDuration(NatToString(h) + "h " + NatToString(m) + "m " + NatToString(sec) + "s")
            == Some(h * 3600 + m * 60 + sec)
  {
    var ph, rest := NatToString(h) + "h", NatToString(m) + "m " + NatToString(sec) + "s";
    MinutesPart(m, sec);
    var parts := Split(rest, ' ');
    assert DurationValue(parts) == Some(m * 60 + sec);
    UnitPart(h, 'h', parts);
    assert UnitSeconds('h') == 3600;
    assert DurationValue([ph] + parts) == Some(h * 3600 + (m * 60 + sec));
    assert NatToString(h) + "h " + NatToString(m) + "m " + NatToString(sec) + "s" == ph + " " + rest;
    SplitAtSpace(ph, rest);
  }

  /** Reading a rendered clock back gives its number of seconds. */
  lemma FormatClockRoundTrip(h: nat, m: nat, sec: nat)
    ensures ParseDuration(FormatClock(h, m, sec)) == Some(h * 3600 + m * 60 + sec)
  {
    if h > 0 {
      HoursPart(h, m, sec);
    } else if m > 0 {
      MinutesPart(m, sec);
    } else {
      SecondsPart(sec);
    }
  }

  lemma DurationParts(total: nat)
    ensures total == (total / 3600) * 3600 + ((total % 3600) / 60) * 60 + total % 60
  {
    var h, rem := total / 3600, total % 3600;
    var m, sec := rem / 60, rem % 60;
    assert total == h * 3600 + rem;
    assert rem == m * 60 + sec;
    assert total == (h * 60 + m) * 60 + sec;
    RemainderOfSixty(total, h * 60 + m, sec);
  }

  /** `a % 60` is the remainder of any division of `a` by 60. */
  lemma RemainderOfSixty(a: nat, q: nat, r: nat)
    requires r < 60 && a == q * 60 + r
    ensures a % 60 == r
  {
  }

  /** Reading the rendered duration back gives the number of seconds. */
  lemma FormatDurationRoundTrip(total: nat)
    ensures ParseDuration(FormatDuration(total)) == Some(total)
  {
    DurationParts(total);
    FormatClockRoundTrip(total / 3600, (total % 3600) / 60, total % 60);
  }

  lemma FormatDurationExamples()
    ensures FormatDuration(30) == "30s"
    ensures FormatDuration(90) == "1m 30s"
    ensures FormatDuration(3661) == "1h 1m 1s"
  {
    SecondsExample();
    MinutesExample();
    HoursExample();
  }

  lemma SecondsExample()
    ensures FormatDuration(30) == "30s"
  {
    assert NatToString(30) == "30";
  }

  lemma MinutesExample()
    ensures FormatDuration(90) == "1m 30s"
  {
    assert NatToString(30) == "30";
    assert NatToString(1) == "1";
  }

  lemma HoursExample()
    ensures FormatDuration(3661) == "1h 1m 1s"
  {
    assert NatToString(1) == "1";
  }

  // ---------------------------------------------------------------------
  // sanitize_filename

  predicate IsForbiddenInFilename(c: char)
  {
    c == '/' || c == '\\' || c == ':' || c == '*' || c == '?' || c == '"' || c == '<' || c == '>' || c == '|'
  }

  function SanitizeChar(c: char): char
  {
    if IsForbiddenInFilename(c) then '_' else c
  }

  /** Replaces each of / \ : * ? " < > | by '_' and keeps every other character. */
  function SanitizeFilename(name: string): (r: string)
    ensures |r| == |name|
    ensures forall i :: 0 <= i < |r| ==> !IsForbiddenInFilename(r[i])
    ensures forall i :: 0 <= i < |r| ==> !IsForbiddenInFilename(name[i]) ==> r[i] == name[i]
    ensures forall i :: 0 <= i < |r| ==> IsForbiddenInFilename(name[i]) ==> r[i] == '_'
  {
    seq(|name|, i requires 0 <= i < |name| => SanitizeChar(name[i]))
  }

  lemma SanitizeIdempotent(name: string)
    ensures SanitizeFilename(SanitizeFilename(name)) == SanitizeFilename(name)
  {
  }

  lemma SanitizeReplacesSpecials()
    ensures SanitizeFilename("test:file<name>") == "test_file_name_"
  {
    var r := SanitizeFilename("test:file<name>");
    assert |r| == 15;
    forall i | 0 <= i < 15
      ensures r[i] == "test_file_name_"[i]
    {
    }
  }

  lemma SanitizeKeepsPlainName()
    ensures SanitizeFilename("normal_name.txt") == "normal_name.txt"
  {
    var q := SanitizeFilename("normal_name.txt");
    assert |q| == 15;
    forall i | 0 <= i < 15
      ensures q[i] == "normal_name.txt"[i]
    {
    }
  }

  // ---------------------------------------------------------------------
  // truncate_string (on the UTF-8 bytes of the string, as Rust slices it)

  /** A byte index where a character starts (or the end): not a UTF-8 continuation byte. */
  predicate IsCharBoundary(s: seq<byte>, i: nat)
  {
    i == 0 || i == |s| || (i < |s| && !(0x80 <= s[i] < 0xC0))
  }

  function Ellipsis(): seq<byte> { [0x2E, 0x2E, 0x2E] }

  function SaturatingSub(a: nat, b: nat): (r: nat)
    ensures r == if a >= b then a - b else 0
  {
    if a >= b then a - b else 0
  }

  /** The source as written: `&s[..max.saturating_sub(3)]` panics (None here)
    * when that byte index falls inside a multi-byte character. */
  function TruncateAsWritten(s: seq<byte>, maxLength: nat): Option<seq<byte>>
  {
    if |s| <= maxLength then Some(s)
    else
      var cut := SaturatingSub(maxLength, 3);
      if IsCharBoundary(s, cut) then Some(s[..cut] + Ellipsis()) else None
  }

  /** The nearest character boundary at or below `i`. */
  function FloorCharBoundary(s: seq<byte>, i: nat): (b: nat)
    requires i <= |s|
    ensures b <= i && IsCharBoundary(s, b)
    ensures forall j :: b < j <= i ==> !IsCharBoundary(s, j)
  {
    if IsCharBoundary(s, i) then i else FloorCharBoundary(s, i - 1)
  }

  /** The evidently intended truncation: cut at the last character boundary
    * that leaves room for the ellipsis. */
  function Truncate(s: seq<byte>, maxLength: nat): (r: seq<byte>)
    ensures |s| <= maxLength ==> r == s
    ensures |s| > maxLength ==>
              exists k :: 0 <= k <= SaturatingSub(maxLength, 3) && IsCharBoundary(s, k) && r == s[..k] + Ellipsis()
                          && forall j :: k < j <= SaturatingSub(maxLength, 3) ==> !IsCharBoundary(s, j)
    ensures maxLength >= 3 ==> |r| <= maxLength
  {
    if |s| <= maxLength then s
    else
      var cut := FloorCharBoundary(s, SaturatingSub(maxLength, 3));
      s[..cut] + Ellipsis()
  }

  /** Wherever the source does not panic, the corrected truncation agrees with it. */
  lemma TruncateAgreesWhenDefined(s: seq<byte>, maxLength: nat)
    requires TruncateAsWritten(s, maxLength).Some?
    ensures Truncate(s, maxLength) == TruncateAsWritten(s, maxLength).value
  {
  }

  /** "ééé" is six bytes; a limit of 4 puts the cut at byte 1, inside the first 'é'. */
  lemma TruncatePanicsInsideCharacter()
    ensures TruncateAsWritten([0xC3, 0xA9, 0xC3, 0xA9, 0xC3, 0xA9], 4).None?
    ensures Truncate([0xC3, 0xA9, 0xC3, 0xA9, 0xC3, 0xA9], 4) == Ellipsis()
  {
    var s: seq<byte> := [0xC3, 0xA9, 0xC3, 0xA9, 0xC3, 0xA9];
    assert !IsCharBoundary(s, 1) && IsCharBoundary(s, 0);
    assert FloorCharBoundary(s, 1) == 0;
  }

  /** The unit test's cases, spelled as the ASCII bytes of "short",
    * "very long string" and "very lo...". */
  lemma TruncateExamples()
    ensures Truncate([0x73, 0x68, 0x6F, 0x72, 0x74], 10) == [0x73, 0x68, 0x6F, 0x72, 0x74]
    ensures Truncate([0x76, 0x65, 0x72, 0x79, 0x20, 0x6C, 0x6F, 0x6E, 0x67, 0x20, 0x73, 0x74, 0x72, 0x69, 0x6E, 0x67], 10)
            == [0x76, 0x65, 0x72, 0x79, 0x20, 0x6C, 0x6F, 0x2E, 0x2E, 0x2E]
  {
    var s: seq<byte> := [0x76, 0x65, 0x72, 0x79, 0x20, 0x6C, 0x6F, 0x6E, 0x67, 0x20, 0x73, 0x74, 0x72, 0x69, 0x6E, 0x67];
    assert IsCharBoundary(s, 7);
  }

  // ---------------------------------------------------------------------
  // validate_app_path

  /** The normal components of a '/'-separated path: empty and "."
    * components are dropped. */
  function FilterNormal(parts: seq<string>): (r: seq<string>)
    ensures forall p :: p in r ==> p in parts && p != "" && p != "."
  {
    if parts == [] then []
    else if parts[0] == "" || parts[0] == "." then FilterNormal(parts[1..])
    else [parts[0]] + FilterNormal(parts[1..])
  }

  /** `Path::extension` of a '/'-separated path. */
  function Extension(path: string): (r: Option<string>)
    ensures r.Some? ==> FileNameOf(FilterNormal(Split(path, '/'))).Some?
                        && ExtensionAt(FileNameOf(FilterNormal(Split(path, '/'))).value, r.value)
  {
    match FileNameOf(FilterNormal(Split(path, '/')))
    case None => None
    case Some(name) => NameExtension(name)
  }

  predicate IsAppExtension(ext: string)
  {
    var e := ToLower(ext);
    e == "apk" || e == "aab" || e == "app" || e == "ipa"
  }

  /** `exists` is what the file system reports for the path. */
  function ValidateAppPath(path: string, fileExists: bool): (r: KResult<()>)
    ensures r.Ok? <==> fileExists && Extension(path).Some? && IsAppExtension(Extension(path).value)
    ensures !fileExists ==> r.Err? && r.error.kind == FileSystemError
    ensures fileExists && r.Err? ==> r.error.kind == InvalidInput
  {
    if !fileExists then Err(KMobileError(FileSystemError, "App file not found: " + path))
    else match Extension(path)
      case None => Err(KMobileError(InvalidInput, "App file has no extension"))
      case Some(ext) =>
        if IsAppExtension(ext) then Ok(())
        else Err(KMobileError(InvalidInput, "Invalid app file extension: " + ext))
  }

  lemma ValidateUpperCaseApk()
    ensures ValidateAppPath("app.APK", true) == Ok(())
  {
    UpperCaseApkExtension();
    assert ToLower("APK") == "apk";
    assert IsAppExtension("APK");
  }

  lemma UpperCaseApkExtension()
    ensures Extension("app.APK") == Some("APK")
  {
    FindCharAbsent("app.APK", '/');
    assert FilterNormal(["app.APK"]) == ["app.APK"];
    assert LastDotExtension("app.APK", 4) == Some("APK");
  }

  lemma ValidateHiddenFile()
    ensures ValidateAppPath(".apk", true) == Err(KMobileError(InvalidInput, "App file has no extension"))
  {
    FindCharAbsent(".apk", '/');
    assert FilterNormal([".apk"]) == [".apk"];
    assert LastDotExtension(".apk", 1) == None;
  }

  // ---------------------------------------------------------------------
  // retry_with_backoff

  predicate NoneSucceeded<R>(outcomes: seq<Result<R, string>>, n: nat)
    requires n <= |outcomes|
  {
    forall i :: 0 <= i < n ==> outcomes[i].Err?
  }

  /** Calls the operation until it succeeds, at most `maxRetries + 1` times.
    * `outcomes[i]` is what the i-th call returns; `sleeps` are the delays
    * slept between calls (in the delay's own unit), doubling each time. */
  method RetryWithBackoff<R>(outcomes: seq<Result<R, string>>, maxRetries: nat, initialDelay: nat)
    returns (r: KResult<R>, calls: nat, sleeps: seq<nat>)
    requires |outcomes| > maxRetries
    ensures 1 <= calls <= maxRetries + 1
    ensures NoneSucceeded(outcomes, calls - 1)
    ensures r.Ok? <==> outcomes[calls - 1].Ok?
    ensures r.Ok? ==> r.value == outcomes[calls - 1].value
    ensures r.Err? ==> calls == maxRetries + 1 && r.error == KMobileError(Unknown,
              "Operation failed after " + NatToString(maxRetries + 1) + " attempts: " + outcomes[maxRetries].error)
    ensures |sleeps| == calls - 1
    ensures |sleeps| > 0 ==> sleeps[0] == initialDelay
    ensures forall k :: 0 <= k < |sleeps| - 1 ==> sleeps[k + 1] == 2 * sleeps[k]
  {
    var delay := initialDelay;
    var attempt := 0;
    sleeps := [];
    while attempt <= maxRetries
      invariant 0 <= attempt <= maxRetries + 1
      invariant NoneSucceeded(outcomes, attempt)
      invariant |sleeps| == (if attempt <= maxRetries then attempt else maxRetries)
      invariant |sleeps| == 0 ==> delay == initialDelay
      invariant |sleeps| > 0 ==> sleeps[0] == initialDelay && delay == 2 * Last(sleeps)
      invariant forall k :: 0 <= k < |sleeps| - 1 ==> sleeps[k + 1] == 2 * sleeps[k]
    {
      var outcome := outcomes[attempt];
      if outcome.Ok? {
        r, calls := Ok(outcome.value), attempt + 1;
        return;
      }
      if attempt < maxRetries {
        sleeps := sleeps + [delay];
        delay := delay * 2;
      }
      attempt := attempt + 1;
    }
    calls := maxRetries + 1;
    r := Err(KMobileError(Unknown,
      "Operation failed after " + NatToString(maxRetries + 1) + " attempts: " + outcomes[maxRetries].error));
  }

  // ---------------------------------------------------------------------
  // get_tool_version

  /** The version reported on the first line of a tool's output: for
    * xcodebuild the line without "Xcode ", trimmed; for every other tool
    * the line's last whitespace-separated token; "unknown" when missing. */
  function VersionFromOutput(tool: string, stdout: string): (r: string)
    ensures Lines(stdout) == [] ==> r == "unknown"
    ensures tool != "xcodebuild" && Lines(stdout) != [] && SplitWhitespace(Lines(stdout)[0]) != [] ==>
              r == Last(SplitWhitespace(Lines(stdout)[0])) && r != [] && NoWhitespace(r)
    ensures tool != "xcodebuild" && Lines(stdout) != [] && SplitWhitespace(Lines(stdout)[0]) == [] ==>
              r == "unknown"
    ensures tool == "xcodebuild" && Lines(stdout) != [] ==>
              r == Trim(ReplaceAll(Lines(stdout)[0], "Xcode ", ""))
    ensures tool == "xcodebuild" && Lines(stdout) != [] && !Contains(Lines(stdout)[0], "Xcode ") ==>
              r == Trim(Lines(stdout)[0])
  {
    var lines := Lines(stdout);
    if lines == [] then "unknown"
    else if tool == "xcodebuild" then
      (ReplaceAllAbsentIfMissing(lines[0]); Trim(ReplaceAll(lines[0], "Xcode ", "")))
    else
      var tokens := SplitWhitespace(lines[0]);
      if tokens == [] then "unknown"
      else
        assert Last(tokens) in tokens;
        Last(tokens)
  }

  /** xcodebuild's "Xcode <version>" first line gives the version, when it
    * is trimmed and holds no second "Xcode ". */
  lemma XcodeVersionLine(version: string, rest: string)
    requires version == Trim(version) && !Contains(version, "Xcode ") && '\n' !in version
    ensures VersionFromOutput("xcodebuild", "Xcode " + version + "\n" + rest) == version
  {
    var line := "Xcode " + version;
    var stdout := line + "\n" + rest;
    assert '\n' !in line by {
      assert forall i | 6 <= i < |line| :: line[i] == version[i - 6];
    }
    FindCharFirst(stdout, '\n', |line|);
    assert stdout[..|line|] == line;
    assert Lines(stdout)[0] == StripCarriageReturn(line);
    assert line[|line| - 1] != '\r' by {
      if version != [] {
        assert line[|line| - 1] == version[|version| - 1];
      }
    }
    ReplaceAllLeading("Xcode ", version, "");
    ReplaceAllAbsent(version, "Xcode ", "");
  }

  /** The version Xcode 15 reports: its first line is "Xcode 15.0", and
    * whatever follows (a "Build version 15A240d" line) does not matter. */
  lemma XcodeVersionExample(version: string, later: string)
    requires version == "15.0"
    ensures VersionFromOutput("xcodebuild", "Xcode " + version + "\n" + later) == "15.0"
  {
    assert '\n' !in version;
    TrimUnchanged(version);
    NotContainsLonger(version, "Xcode ");
    XcodeVersionLine(version, later);
  }

  lemma ReplaceAllAbsentIfMissing(line: string)
    ensures !Contains(line, "Xcode ") ==> ReplaceAll(line, "Xcode ", "") == line
  {
    if !Contains(line, "Xcode ") {
      ReplaceAllAbsent(line, "Xcode ", "");
    }
  }
}
