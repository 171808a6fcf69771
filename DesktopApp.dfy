// The desktop application's state and its agent-command pipeline
// (src/desktop/app.rs): connecting a device, toggling audio recording,
// forwarding sensor input, and turning a natural-language command into
// actions by keyword matching, then running them in order. What the
// application's components (device bridge, hardware emulator, audio
// processor) answer is a parameter.

module DesktopApp {
  import opened Common

  /** `anyhow::Result`: errors are messages. */
  type XResult<T> = Result<T, string>

  /** An action an agent command asks for; tap coordinates are `i32`s. */
  datatype AgentAction =
    | TakeScreenshot
    | Speak(text: string)
    | Listen
    | Tap(x: int, y: int)
    | SimulateSensor(sensorType: string, data: Json)

  // ---------------------------------------------------------------------
  // Speech text

  /** Positions of the first double quote and of the next one after it. */
  function QuotePair(s: string): (r: Option<(nat, nat)>)
    ensures r.Some? ==> r.value.0 < r.value.1 < |s| && s[r.value.0] == '"' && s[r.value.1] == '"'
    ensures r.Some? ==> forall k | 0 <= k < r.value.1 && k != r.value.0 :: s[k] != '"'
    ensures r.None? ==> forall i, j | 0 <= i < j < |s| && s[i] == '"' :: s[j] != '"'
  {
    match FindChar(s, '"')
    case None => None
    case Some(start) =>
      match FindChar(s[start + 1..], '"')
      case None =>
        assert forall j | start < j < |s| :: s[j] == s[start + 1..][j - start - 1];
        None
      case Some(end) => Some((start, start + 1 + end))
  }

  /** The trimmed rest of `command` after the first occurrence of `keyword`. */
  function AfterKeyword(command: string, keyword: string): (r: Option<string>)
    ensures r.Some? <==> Contains(command, keyword)
  {
    match IndexOf(command, keyword)
    case Some(pos) => Some(Trim(command[pos + |keyword|..]))
    case None => None
  }

  /** `extract_speech_text`: the text between the first two double quotes;
    * failing that, the trimmed rest after the first "say ", or else after
    * the first "speak ". */
  function ExtractSpeechText(command: string): (r: Option<string>)
    ensures QuotePair(command).Some? ==> r.Some? && '"' !in r.value
    ensures QuotePair(command).Some? ==>
              r.value == command[QuotePair(command).value.0 + 1..QuotePair(command).value.1]
    ensures QuotePair(command).None? ==> (r.Some? <==> Contains(command, "say ") || Contains(command, "speak "))
    ensures QuotePair(command).None? && Contains(command, "say ") ==> r == AfterKeyword(command, "say ")
    ensures QuotePair(command).None? && !Contains(command, "say ") ==> r == AfterKeyword(command, "speak ")
  {
    match QuotePair(command)
    case Some((start, end)) =>
      var text := command[start + 1..end];
      assert forall k | 0 <= k < |text| :: text[k] == command[start + 1 + k];
      Some(text)
    case None =>
      var said := AfterKeyword(command, "say ");
      if said.Some? then said else AfterKeyword(command, "speak ")
  }

  /** Quoting a quote-free text after a quote-free prefix makes it the
    * speech text, whatever follows. */
  lemma SpeechOfQuoted(prefix: string, text: string, rest: string)
    requires '"' !in prefix && '"' !in text
    ensures ExtractSpeechText(prefix + ['"'] + text + ['"'] + rest) == Some(text)
  {
    var s := prefix + ['"'] + text + ['"'] + rest;
    var after := text + ['"'] + rest;
    QuotesAround(prefix, text, rest);
    assert s[|prefix| + 1..] == after;
    assert s[|prefix| + 1..|prefix| + 1 + |text|] == after[..|text|];
    assert after[..|text|] == text;
  }

  /** The first two quotes are the ones around the quote-free text. */
  lemma QuotesAround(prefix: string, text: string, rest: string)
    requires '"' !in prefix && '"' !in text
    ensures QuotePair(prefix + ['"'] + text + ['"'] + rest) == Some((|prefix|, |prefix| + 1 + |text|))
  {
    QuotedLayout(prefix, text, rest);
    QuotesAt(prefix + ['"'] + text + ['"'] + rest, |prefix|, |prefix| + 1 + |text|);
  }

  /** Where the quotes of a quoted text stand. */
  lemma QuotedLayout(prefix: string, text: string, rest: string)
    requires '"' !in prefix && '"' !in text
    ensures var s := prefix + ['"'] + text + ['"'] + rest;
      && |prefix| + 1 + |text| < |s|
      && s[|prefix|] == '"' && s[|prefix| + 1 + |text|] == '"'
      && forall k | 0 <= k < |prefix| + 1 + |text| && k != |prefix| :: s[k] != '"'
  {
    var s := prefix + ['"'] + text + ['"'] + rest;
    forall k | 0 <= k < |prefix| + 1 + |text| && k != |prefix|
      ensures s[k] != '"'
    {
      if k < |prefix| {
        assert s[k] == prefix[k];
      } else {
        assert s[k] == text[k - |prefix| - 1];
      }
    }
  }

  /** Two quotes with none before the second but the first are the pair. */
  lemma QuotesAt(s: string, open: nat, close: nat)
    requires open < close < |s| && s[open] == '"' && s[close] == '"'
    requires forall k | 0 <= k < close && k != open :: s[k] != '"'
    ensures QuotePair(s) == Some((open, close))
  {
    var first := FindChar(s, '"');
    assert first == Some(open);
    var tail := s[open + 1..];
    assert tail[close - open - 1] == '"';
    assert forall k | 0 <= k < close - open - 1 :: tail[k] == s[open + 1 + k];
    assert FindChar(tail, '"') == Some(close - open - 1);
  }

  /** "say " followed by a trimmed quote-free text speaks that text. */
  lemma SpeechAfterSay(text: string)
    requires '"' !in text
    requires text == [] || (!IsWhitespace(text[0]) && !IsWhitespace(text[|text| - 1]))
    ensures ExtractSpeechText("say " + text) == Some(text)
  {
    var s := "say " + text;
    assert forall k | 4 <= k < |s| :: s[k] == text[k - 4];
    assert forall k | 0 <= k < |s| :: s[k] != '"';
    assert QuotePair(s).None?;
    assert OccursAt(s, "say ", 0);
    assert s[4..] == text;
    TrimUnchanged(text);
  }

  // ---------------------------------------------------------------------
  // Coordinates: the first match of `(\d+),?\s*(\d+)`

  /** Length of the run of ASCII digits starting at `i`. */
  function DigitRun(s: string, i: nat): (n: nat)
    requires i <= |s|
    ensures i + n <= |s|
    decreases |s| - i
  {
    if i < |s| && IsAsciiDigit(s[i]) then 1 + DigitRun(s, i + 1) else 0
  }

  /** The run is all digits and stops at a non-digit or at the end. */
  lemma {:induction false} DigitRunMaximal(s: string, i: nat)
    requires i <= |s|
    ensures forall k | i <= k < i + DigitRun(s, i) :: IsAsciiDigit(s[k])
    ensures i + DigitRun(s, i) == |s| || !IsAsciiDigit(s[i + DigitRun(s, i)])
    decreases |s| - i
  {
    if i < |s| && IsAsciiDigit(s[i]) {
      DigitRunMaximal(s, i + 1);
    }
  }

  /** Length of the run of whitespace starting at `i`. */
  function SpaceRun(s: string, i: nat): (n: nat)
    requires i <= |s|
    ensures i + n <= |s|
    decreases |s| - i
  {
    if i < |s| && IsWhitespace(s[i]) then 1 + SpaceRun(s, i + 1) else 0
  }

  /** The two groups of a match starting at `p`, as the backtracking
    * matcher finds them: the whole first run of digits, an optional comma,
    * whitespace and a second run; failing that, the first run less its last
    * digit, which becomes the second group. */
  function MatchAt(s: string, p: nat): (m: Option<(string, string)>)
    requires p <= |s|
    ensures m.Some? ==> m.value.0 != [] && AllDigits(m.value.0) && m.value.1 != [] && AllDigits(m.value.1)
    ensures m.Some? ==> p < |s| && IsAsciiDigit(s[p])
  {
    var n := DigitRun(s, p);
    if n == 0 then None
    else
      var q := SecondRunAt(s, p);
      DigitRunMaximal(s, p);
      if q < |s| && IsAsciiDigit(s[q]) then
        DigitRunMaximal(s, q);
        Some((s[p..p + n], s[q..q + DigitRun(s, q)]))
      else if n >= 2 then Some((s[p..p + n - 1], s[p + n - 1..p + n]))
      else None
  }

  /** Where the second group would start after the whole first run: past
    * an optional comma and any whitespace. */
  function SecondRunAt(s: string, p: nat): (q: nat)
    requires p <= |s|
    ensures p + DigitRun(s, p) <= q <= |s|
  {
    var after := p + DigitRun(s, p);
    var sep := if after < |s| && s[after] == ',' then after + 1 else after;
    sep + SpaceRun(s, sep)
  }

  /** The whole first run is followed by a separator and a second run. */
  predicate SeparatedPairAt(s: string, p: nat)
    requires p <= |s|
  {
    var q := SecondRunAt(s, p);
    q < |s| && IsAsciiDigit(s[q])
  }

  /** The leftmost position at or after `p` where a match starts. */
  function FirstMatchAt(s: string, p: nat): (r: Option<nat>)
    requires p <= |s|
    ensures r.Some? ==> p <= r.value <= |s| && MatchAt(s, r.value).Some?
    ensures r.Some? ==> forall k | p <= k < r.value :: MatchAt(s, k).None?
    ensures r.None? ==> forall k | p <= k <= |s| :: MatchAt(s, k).None?
    decreases |s| - p
  {
    if MatchAt(s, p).Some? then Some(p)
    else if p == |s| then None
    else FirstMatchAt(s, p + 1)
  }

  /** The two groups of the leftmost match, if there is one. */
  function Groups(command: string): (g: Option<(string, string)>)
    ensures g.Some? <==> exists p | 0 <= p <= |command| :: MatchAt(command, p).Some?
    ensures g.Some? ==> g.value.0 != [] && AllDigits(g.value.0) && g.value.1 != [] && AllDigits(g.value.1)
  {
    match FirstMatchAt(command, 0)
    case None => None
    case Some(p) => MatchAt(command, p)
  }

  /** A string of ASCII digits parses as an `i32` exactly when its value
    * is in range. */
  lemma ParseDigits(s: string)
    requires s != [] && AllDigits(s)
    ensures ParseI32(s) == if DigitsValue(s) <= I32_MAX then Some(DigitsValue(s) as int) else None
  {
    assert IsAsciiDigit(s[0]);
  }

  /** `extract_coordinates`: the two groups of the leftmost match, each
    * parsed as an `i32`; nothing when there is no match or a group
    * overflows. */
  function ExtractCoordinates(command: string): (r: Option<(int, int)>)
    ensures r.Some? ==> Groups(command).Some?
    ensures Groups(command).Some? ==>
              (r.Some? <==> DigitsValue(Groups(command).value.0) <= I32_MAX && DigitsValue(Groups(command).value.1) <= I32_MAX)
    ensures r.Some? ==> r.value == (DigitsValue(Groups(command).value.0) as int, DigitsValue(Groups(command).value.1) as int)
  {
    match Groups(command)
    case None => None
    case Some((a, b)) =>
      ParseDigits(a);
      ParseDigits(b);
      var x, y := ParseI32(a), ParseI32(b);
      if x.Some? && y.Some? then Some((x.value, y.value)) else None
  }

  /** A run of exactly `n` digits starts at `i`. */
  lemma {:induction false} DigitRunIs(s: string, i: nat, n: nat)
    requires i + n <= |s|
    requires forall k | i <= k < i + n :: IsAsciiDigit(s[k])
    requires i + n == |s| || !IsAsciiDigit(s[i + n])
    ensures DigitRun(s, i) == n
    decreases n
  {
    if n > 0 {
      DigitRunIs(s, i + 1, n - 1);
    }
  }

  /** A run of exactly `n` whitespace characters starts at `i`. */
  lemma {:induction false} SpaceRunIs(s: string, i: nat, n: nat)
    requires i + n <= |s|
    requires forall k | i <= k < i + n :: IsWhitespace(s[k])
    requires i + n == |s| || !IsWhitespace(s[i + n])
    ensures SpaceRun(s, i) == n
    decreases n
  {
    if n > 0 {
      SpaceRunIs(s, i + 1, n - 1);
    }
  }

  /** Nothing matches before the first digit. */
  lemma {:induction false} FirstMatchSkipsToDigit(s: string, p: nat, d: nat)
    requires p <= d < |s| && IsAsciiDigit(s[d]) && MatchAt(s, d).Some?
    requires forall k | p <= k < d :: !IsAsciiDigit(s[k])
    ensures FirstMatchAt(s, p) == Some(d)
    decreases d - p
  {
    if p < d {
      assert !IsAsciiDigit(s[p]);
      assert DigitRun(s, p) == 0;
      assert MatchAt(s, p).None?;
      FirstMatchSkipsToDigit(s, p + 1, d);
    }
  }

  /** A digit-free prefix, then two numbers in `i32` range separated by a
    * comma and whitespace, then anything not starting with a digit: the
    * two numbers are the coordinates. */
  lemma CoordinatesOfPair(prefix: string, x: nat, spaces: string, y: nat, rest: string)
    requires forall k | 0 <= k < |prefix| :: !IsAsciiDigit(prefix[k])
    requires forall k | 0 <= k < |spaces| :: IsWhitespace(spaces[k])
    requires x <= I32_MAX && y <= I32_MAX
    requires rest == [] || !IsAsciiDigit(rest[0])
    ensures ExtractCoordinates(prefix + NatToString(x) + "," + spaces + NatToString(y) + rest) == Some((x, y))
  {
    var dx, dy := NatToString(x), NatToString(y);
    NatToStringValue(x);
    NatToStringValue(y);
    var s := prefix + dx + "," + spaces + dy + rest;
    var p := |prefix|;
    PairLayout(prefix, dx, spaces, dy, rest);
    PairMatches(s, p, dx, spaces, dy);
    FirstMatchSkipsToDigit(s, 0, p);
    assert Groups(s) == Some((dx, dy));
  }

  /** Where each piece of a prefix, a number, a comma, whitespace, a second
    * number and a rest lies in their concatenation. */
  lemma PairLayout(prefix: string, dx: string, spaces: string, dy: string, rest: string)
    ensures var s := prefix + dx + "," + spaces + dy + rest;
      var c := |prefix| + |dx|;
      var q := c + 1 + |spaces|;
      && q + |dy| <= |s|
      && s[|prefix|..c] == dx && s[c] == ',' && s[c + 1..q] == spaces && s[q..q + |dy|] == dy
      && (q + |dy| < |s| ==> s[q + |dy|] == rest[0])
      && (forall k | 0 <= k < |prefix| :: s[k] == prefix[k])
  {
    var s := prefix + dx + "," + spaces + dy + rest;
    assert s == prefix + (dx + (([','] + spaces) + (dy + rest)));
  }

  /** Where `dx`, a comma, whitespace and `dy` start at `p`, followed by a
    * non-digit, the match at `p` has the groups `dx` and `dy`. */
  lemma PairMatches(s: string, p: nat, dx: string, spaces: string, dy: string)
    requires dx != [] && AllDigits(dx) && dy != [] && AllDigits(dy)
    requires forall k | 0 <= k < |spaces| :: IsWhitespace(spaces[k])
    requires p + |dx| + 1 + |spaces| + |dy| <= |s|
    requires s[p..p + |dx|] == dx && s[p + |dx|] == ','
    requires s[p + |dx| + 1..p + |dx| + 1 + |spaces|] == spaces
    requires s[p + |dx| + 1 + |spaces|..p + |dx| + 1 + |spaces| + |dy|] == dy
    requires p + |dx| + 1 + |spaces| + |dy| == |s| || !IsAsciiDigit(s[p + |dx| + 1 + |spaces| + |dy|])
    ensures MatchAt(s, p) == Some((dx, dy))
  {
    var q := p + |dx| + 1 + |spaces|;
    FirstRunOf(s, p, dx);
    SpacesBefore(s, p + |dx| + 1, spaces, dy);
    SliceDigits(s, q, dy);
    DigitRunIs(s, q, |dy|);
  }

  /** The first run is the digits `dx` when a comma follows them. */
  lemma FirstRunOf(s: string, p: nat, dx: string)
    requires AllDigits(dx) && p + |dx| < |s|
    requires s[p..p + |dx|] == dx && s[p + |dx|] == ','
    ensures DigitRun(s, p) == |dx|
  {
    SliceDigits(s, p, dx);
    DigitRunIs(s, p, |dx|);
  }

  /** Whitespace followed by a digit is skipped as a whole. */
  lemma SpacesBefore(s: string, i: nat, spaces: string, dy: string)
    requires forall k | 0 <= k < |spaces| :: IsWhitespace(spaces[k])
    requires dy != [] && AllDigits(dy) && i + |spaces| + |dy| <= |s|
    requires s[i..i + |spaces|] == spaces
    requires s[i + |spaces|..i + |spaces| + |dy|] == dy
    ensures SpaceRun(s, i) == |spaces| && IsAsciiDigit(s[i + |spaces|])
  {
    forall k | i <= k < i + |spaces| ensures IsWhitespace(s[k]) {
      assert s[k] == s[i..i + |spaces|][k - i];
    }
    assert s[i + |spaces|] == dy[0];
    SpaceRunIs(s, i, |spaces|);
  }

  /** The characters of a slice of digits are digits. */
  lemma SliceDigits(s: string, i: nat, d: string)
    requires i + |d| <= |s| && s[i..i + |d|] == d && AllDigits(d)
    ensures forall k | i <= k < i + |d| :: IsAsciiDigit(s[k])
  {
    forall k | i <= k < i + |d| ensures IsAsciiDigit(s[k]) {
      assert s[k] == d[k - i];
    }
  }

  /** A lone number of three digits or more is split before its last digit:
    * "tap 123" taps (12, 3). */
  lemma LoneNumberSplits()
    ensures ExtractCoordinates("tap 123") == Some((12, 3))
  {
    LoneNumberMatch();
    FirstMatchSkipsToDigit("tap 123", 0, 4);
    assert DigitsValue("12") == 12 by {
      assert "12"[..1] == "1";
    }
  }

  /** The match in "tap 123" starts at the number and backtracks one digit. */
  lemma LoneNumberMatch()
    ensures MatchAt("tap 123", 4) == Some(("12", "3"))
  {
    var s := "tap 123";
    DigitRunIs(s, 4, 3);
    SpaceRunIs(s, 7, 0);
    assert SecondRunAt(s, 4) == 7;
    assert s[4..6] == "12" && s[6..7] == "3";
  }

  // ---------------------------------------------------------------------
  // Command parsing

  /** The position of an action in the fixed order the parser emits them. */
  function Rank(a: AgentAction): nat
  {
    match a
    case TakeScreenshot => 0
    case Speak(_) => 1
    case Listen => 2
    case Tap(_, _) => 3
    case SimulateSensor(_, _) => 4
  }

  predicate AsksToSpeak(command: string)
  {
    Contains(command, "say") || Contains(command, "speak")
  }

  predicate AsksToTap(command: string)
  {
    Contains(command, "tap") || Contains(command, "click")
  }

  /** The actions for the keywords found: a screenshot, speech when there
    * is text to speak, listening, and a tap when there are coordinates. */
  function Assemble(shoot: bool, speech: Option<string>, listen: bool, tap: Option<(int, int)>): seq<AgentAction>
  {
    (if shoot then [TakeScreenshot] else [])
    + (if speech.Some? then [Speak(speech.value)] else [])
    + (if listen then [Listen] else [])
    + (if tap.Some? then [Tap(tap.value.0, tap.value.1)] else [])
  }

  /** The assembled actions come in the fixed order, so each at most once. */
  lemma AssembleOrdered(shoot: bool, speech: Option<string>, listen: bool, tap: Option<(int, int)>)
    ensures var actions := Assemble(shoot, speech, listen, tap);
      forall i, j | 0 <= i < j < |actions| :: Rank(actions[i]) < Rank(actions[j])
  {
  }

  /** An action is assembled exactly when its keyword was found. */
  lemma AssembleMembers(shoot: bool, speech: Option<string>, listen: bool, tap: Option<(int, int)>)
    ensures var actions := Assemble(shoot, speech, listen, tap);
      && (TakeScreenshot in actions <==> shoot)
      && (forall t :: Speak(t) in actions <==> speech == Some(t))
      && (Listen in actions <==> listen)
      && (forall x, y :: Tap(x, y) in actions <==> tap == Some((x, y)))
      && (forall a | a in actions :: !a.SimulateSensor?)
  {
    var actions := Assemble(shoot, speech, listen, tap);
    assert forall a | a in actions ::
      (a == TakeScreenshot && shoot) || (speech.Some? && a == Speak(speech.value))
      || (a == Listen && listen) || (tap.Some? && a == Tap(tap.value.0, tap.value.1));
  }

  /** What a command asks to say, when it asks to speak at all. */
  function SpeechRequested(command: string): Option<string>
  {
    if AsksToSpeak(command) then ExtractSpeechText(command) else None
  }

  /** Where a command asks to tap, when it asks to tap at all. */
  function TapRequested(command: string): Option<(int, int)>
  {
    if AsksToTap(command) then ExtractCoordinates(command) else None
  }

  /** The actions keyword matching finds in a command. */
  function Planned(command: string): seq<AgentAction>
  {
    Assemble(Contains(command, "take screenshot"), SpeechRequested(command),
             Contains(command, "listen"), TapRequested(command))
  }

  /** A command yields a screenshot, speech when it asks to speak and has
    * text to speak, listening, and a tap when it asks to tap and has
    * coordinates, in that order and each at most once. */
  lemma PlannedShape(command: string)
    ensures var actions := Planned(command);
      && (forall i, j | 0 <= i < j < |actions| :: Rank(actions[i]) < Rank(actions[j]))
      && (TakeScreenshot in actions <==> Contains(command, "take screenshot"))
      && (forall t :: Speak(t) in actions <==> AsksToSpeak(command) && ExtractSpeechText(command) == Some(t))
      && (Listen in actions <==> Contains(command, "listen"))
      && (forall x, y :: Tap(x, y) in actions <==> AsksToTap(command) && ExtractCoordinates(command) == Some((x, y)))
      && (forall a | a in actions :: !a.SimulateSensor?)
  {
    var shoot, speech := Contains(command, "take screenshot"), SpeechRequested(command);
    var listen, tap := Contains(command, "listen"), TapRequested(command);
    AssembleOrdered(shoot, speech, listen, tap);
    AssembleMembers(shoot, speech, listen, tap);
  }

  /** Push the actions found, one keyword at a time. */
  method PushActions(shoot: bool, speech: Option<string>, listen: bool, tap: Option<(int, int)>)
    returns (actions: seq<AgentAction>)
    ensures actions == Assemble(shoot, speech, listen, tap)
  {
    actions := [];
    if shoot {
      actions := actions + [TakeScreenshot];
    }
    if speech.Some? {
      actions := actions + [Speak(speech.value)];
    }
    if listen {
      actions := actions + [Listen];
    }
    if tap.Some? {
      actions := actions + [Tap(tap.value.0, tap.value.1)];
    }
  }

  /** `parse_agent_command` */
  method ParseAgentCommand(command: string) returns (actions: seq<AgentAction>)
    ensures actions == Planned(command)
  {
    var shoot := Contains(command, "take screenshot");
    var speech := SpeechRequested(command);
    var listen := Contains(command, "listen");
    var tap := TapRequested(command);
    actions := PushActions(shoot, speech, listen, tap);
  }

  // ---------------------------------------------------------------------
  // The application

  /** What the application's components answer. */
  datatype Components = Components(
    /** The width and height of the screenshot the bridge takes. */
    screenshot: Result<(nat, nat), string>,
    speak: string -> Result<(), string>,
    listen: Result<string, string>,
    tap: (int, int) -> Result<(), string>,
    /** The emulator's answer for a device id, sensor type and reading. */
    sensor: (string, string, Json) -> Result<(), string>)

  const ScreenshotTaken := "\U{1F4F8} Screenshot taken: "
  const Spoke := "\U{1F5E3}\U{FE0F} Spoke: '"
  const Heard := "\U{1F442} Heard: '"
  const TappedAt := "\U{1F446} Tapped at ("
  const Simulated := "\U{1F4E1} Simulated "

  class App {
    var connectedDevice: Option<string>
    var isRecordingAudio: bool
    var emulationActive: bool
    var agentMode: bool

    /** `KMobileDesktopApp::new`: the device given on the command line, if
      * any; nothing recording or emulated. */
    constructor(deviceId: Option<string>)
      ensures connectedDevice == deviceId
      ensures !isRecordingAudio && !emulationActive && !agentMode
    {
      connectedDevice := deviceId;
      isRecordingAudio := false;
      emulationActive := false;
      agentMode := false;
    }

    /** `start_screen_mirroring`: with a device connected, start the
      * bridge's capture and attach the emulator; emulation is active once
      * both succeed. Without a device nothing happens. */
    method StartScreenMirroring(capture: XResult<()>, attach: XResult<()>) returns (r: XResult<()>)
      modifies this`emulationActive
      ensures connectedDevice.None? ==> r.Ok?
      ensures connectedDevice.Some? ==> r == (if capture.Err? then capture else attach)
      ensures emulationActive == (old(emulationActive) || (connectedDevice.Some? && r.Ok?))
    {
      if connectedDevice.Some? {
        if capture.Err? {
          return capture;
        }
        if attach.Err? {
          return attach;
        }
        emulationActive := true;
        return attach;
      }
      r := Ok(());
    }

    /** `connect_to_device`: the device is recorded only once the bridge
      * connects, and then mirroring starts for it. */
    method ConnectToDevice(deviceId: string, connect: XResult<()>, capture: XResult<()>, attach: XResult<()>)
      returns (r: XResult<()>)
      modifies this`connectedDevice, this`emulationActive
      ensures connect.Err? ==> r == connect && connectedDevice == old(connectedDevice)
      ensures connect.Ok? ==> connectedDevice == Some(deviceId) && r == (if capture.Err? then capture else attach)
      ensures emulationActive == (old(emulationActive) || r.Ok?)
    {
      if connect.Err? {
        return connect;
      }
      connectedDevice := Some(deviceId);
      r := StartScreenMirroring(capture, attach);
    }

    /** `toggle_audio_recording`: stop when recording, start otherwise; the
      * flag flips only when that call succeeds. */
    method ToggleAudioRecording(start: XResult<()>, stop: XResult<()>) returns (r: XResult<()>)
      modifies this`isRecordingAudio
      ensures r == (if old(isRecordingAudio) then stop else start)
      ensures isRecordingAudio == (if r.Ok? then !old(isRecordingAudio) else old(isRecordingAudio))
    {
      r := if isRecordingAudio then stop else start;
      if r.Err? {
        return;
      }
      isRecordingAudio := !isRecordingAudio;
    }

    /** `simulate_sensor_input`: forwarded to the emulator for the connected
      * device; without one it does nothing and succeeds. */
    function SimulateSensorInput(sensorType: string, data: Json, c: Components): (r: XResult<()>)
      reads this`connectedDevice
      ensures connectedDevice.None? ==> r.Ok?
      ensures connectedDevice.Some? ==> r == c.sensor(connectedDevice.value, sensorType, data)
    {
      match connectedDevice
      case None => Ok(())
      case Some(id) => c.sensor(id, sensorType, data)
    }

    /** `execute_action`: the component's error, or a report of what was
      * done. */
    function ExecuteAction(action: AgentAction, c: Components): (r: XResult<string>)
      reads this`connectedDevice
      ensures action.TakeScreenshot? ==> (r.Ok? <==> c.screenshot.Ok?)
      ensures action.Speak? ==> (r.Ok? <==> c.speak(action.text).Ok?)
      ensures action.Listen? ==> (r.Ok? <==> c.listen.Ok?)
      ensures action.Tap? ==> (r.Ok? <==> c.tap(action.x, action.y).Ok?)
      ensures action.SimulateSensor? ==> (r.Ok? <==> SimulateSensorInput(action.sensorType, action.data, c).Ok?)
      ensures action.SimulateSensor? && connectedDevice.None? ==> r.Ok?
      ensures action.Speak? && r.Ok? ==> r.value == Spoke + action.text + "'"
    {
      match action
      case TakeScreenshot =>
        (match c.screenshot
         case Err(e) => Err(e)
         case Ok((w, h)) => Ok(ScreenshotTaken + NatToString(w) + "x" + NatToString(h)))
      case Speak(text) =>
        (match c.speak(text)
         case Err(e) => Err(e)
         case Ok(_) => Ok(Spoke + text + "'"))
      case Listen =>
        (match c.listen
         case Err(e) => Err(e)
         case Ok(transcript) => Ok(Heard + transcript + "'"))
      case Tap(x, y) =>
        (match c.tap(x, y)
         case Err(e) => Err(e)
         case Ok(_) => Ok(TappedAt + IntToString(x) + ", " + IntToString(y) + ")"))
      case SimulateSensor(sensorType, data) =>
        (match SimulateSensorInput(sensorType, data, c)
         case Err(e) => Err(e)
         case Ok(_) => Ok(Simulated + sensorType + " sensor"))
    }

    /** The outputs of executing `actions` in order, or the error of the
      * first one that fails. */
    function Outputs(actions: seq<AgentAction>, c: Components): XResult<seq<string>>
      reads this`connectedDevice
    {
      if actions == [] then Ok([])
      else
        match Outputs(actions[..|actions| - 1], c)
        case Err(e) => Err(e)
        case Ok(outs) =>
          match ExecuteAction(Last(actions), c)
          case Err(e) => Err(e)
          case Ok(out) => Ok(outs + [out])
    }

    /** `process_agent_command`: run the planned actions in order, stop at
      * the first error, and report one line per action. */
    method ProcessAgentCommand(command: string, c: Components) returns (r: XResult<string>)
      ensures Outputs(Planned(command), c).Err? ==> r == Err(Outputs(Planned(command), c).error)
      ensures Outputs(Planned(command), c).Ok? ==> r == Ok(Join(Outputs(Planned(command), c).value, '\n'))
    {
      var actions := ParseAgentCommand(command);
      var results: seq<string> := [];
      var i := 0;
      while i < |actions|
        invariant 0 <= i <= |actions|
        invariant Outputs(actions[..i], c) == Ok(results)
      {
        var result := ExecuteAction(actions[i], c);
        assert actions[..i + 1][..i] == actions[..i];
        assert Last(actions[..i + 1]) == actions[i];
        if result.Err? {
          PrefixFailure(actions, i + 1, c);
          return Err(result.error);
        }
        results := results + [result.value];
        i := i + 1;
      }
      assert actions[..i] == actions;
      r := Ok(Join(results, '\n'));
    }

    /** The run succeeds exactly when every action does. */
    lemma {:induction false} OutputsSucceed(actions: seq<AgentAction>, c: Components)
      ensures Outputs(actions, c).Ok? <==> forall i | 0 <= i < |actions| :: ExecuteAction(actions[i], c).Ok?
    {
      if actions != [] {
        var n := |actions| - 1;
        var init := actions[..n];
        OutputsSucceed(init, c);
        OutputsStep(actions, c);
        if forall i | 0 <= i < |actions| :: ExecuteAction(actions[i], c).Ok? {
          assert forall i | 0 <= i < n :: ExecuteAction(init[i], c).Ok? by {
            assert forall i | 0 <= i < n :: init[i] == actions[i];
          }
        } else {
          var k :| 0 <= k < |actions| && ExecuteAction(actions[k], c).Err?;
          if k < n {
            assert init[k] == actions[k];
          }
        }
      }
    }

    /** The run of all actions succeeds exactly when the run of all but the
      * last does and the last action does. */
    lemma OutputsStep(actions: seq<AgentAction>, c: Components)
      requires actions != []
      ensures Outputs(actions, c).Ok? <==>
                Outputs(actions[..|actions| - 1], c).Ok? && ExecuteAction(actions[|actions| - 1], c).Ok?
    {
      assert Last(actions) == actions[|actions| - 1];
    }

    /** A successful run has one output per action, in order. */
    lemma {:induction false} OutputsInOrder(actions: seq<AgentAction>, c: Components)
      ensures var r := Outputs(actions, c);
        r.Ok? ==> |r.value| == |actions|
                  && forall i | 0 <= i < |actions| :: ExecuteAction(actions[i], c) == Ok(r.value[i])
    {
      if actions != [] {
        var n := |actions| - 1;
        var init := actions[..n];
        OutputsInOrder(init, c);
        assert forall i | 0 <= i < n :: init[i] == actions[i];
      }
    }

    /** A failed run fails with the error of its first failing action. */
    lemma {:induction false} OutputsFail(actions: seq<AgentAction>, c: Components)
      ensures var r := Outputs(actions, c);
        r.Err? ==> exists i | 0 <= i < |actions| ::
                     ExecuteAction(actions[i], c) == Err(r.error)
                     && forall j | 0 <= j < i :: ExecuteAction(actions[j], c).Ok?
    {
      if actions != [] {
        var init := actions[..|actions| - 1];
        var n := |actions| - 1;
        OutputsFail(init, c);
        OutputsSucceed(init, c);
        assert forall i | 0 <= i < |init| :: init[i] == actions[i];
        if Outputs(init, c).Ok? && Outputs(actions, c).Err? {
          assert ExecuteAction(actions[n], c) == Err(Outputs(actions, c).error);
        }
      }
    }

    /** A failure within a prefix is the failure of the whole run. */
    lemma {:induction false} PrefixFailure(actions: seq<AgentAction>, n: nat, c: Components)
      requires n <= |actions| && Outputs(actions[..n], c).Err?
      ensures Outputs(actions, c) == Outputs(actions[..n], c)
      decreases |actions| - n
    {
      if n < |actions| {
        var longer := actions[..n + 1];
        assert longer[..|longer| - 1] == actions[..n];
        PrefixFailure(actions, n + 1, c);
      } else {
        assert actions[..n] == actions;
      }
    }
  }
}
