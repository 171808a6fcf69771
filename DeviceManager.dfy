// Device discovery (src/device.rs): the Android and iOS device lists a
// `DeviceManager` refreshes from `adb devices -l`, `adb shell getprop` and
// `instruments -s devices`, and the connect / install / deploy operations
// that look an id up in those lists, Android first.

module DeviceManager {
  import opened Common
  import opened Errors

  datatype DeviceStatus = Connected | Disconnected | Unauthorized | Offline

  datatype Device = Device(
    id: string,
    name: string,
    platform: string,
    version: string,
    status: DeviceStatus,
    capabilities: map<string, bool>)

  // ---------------------------------------------------------------------
  // getprop output

  const PropSeparator := "]: ["

  /** One `getprop` line "[key]: [value]": kept when it starts with '[' and
    * holds "]: ["; split at the first separator, the key loses its leading
    * '[' characters and the value its trailing ']' characters. */
  function GetpropLine(line: string): (r: Option<(string, string)>)
    ensures r.Some? <==> StartsWith(line, "[") && Contains(line, PropSeparator)
  {
    if StartsWith(line, "[") && Contains(line, PropSeparator) then
      var i := IndexOf(line, PropSeparator).value;
      Some((TrimStartMatches(line[..i], '['), TrimEndMatches(line[i + |PropSeparator|..], ']')))
    else None
  }

  /** `key` is the text before `i` less its leading '['s. */
  predicate KeySlice(line: string, i: nat, key: string)
  {
    && i <= |line| && |key| <= i && key == line[i - |key|..i] && (key == [] || key[0] != '[')
    && forall j | 0 <= j < i - |key| :: line[j] == '['
  }

  /** `value` is the text after the separator at `i` less its trailing ']'s. */
  predicate ValueSlice(line: string, i: nat, value: string)
  {
    && i + 4 + |value| <= |line| && value == line[i + 4..i + 4 + |value|] && (value == [] || Last(value) != ']')
    && forall j | i + 4 + |value| <= j < |line| :: line[j] == ']'
  }

  /** Where a kept line's key and value lie: around the first "]: [". */
  lemma GetpropLineParts(line: string)
    requires GetpropLine(line).Some?
    ensures KeySlice(line, IndexOf(line, PropSeparator).value, GetpropLine(line).value.0)
    ensures ValueSlice(line, IndexOf(line, PropSeparator).value, GetpropLine(line).value.1)
  {
    var i := IndexOf(line, PropSeparator).value;
    KeyPart(line, i);
    ValuePart(line, i);
  }

  lemma KeyPart(line: string, i: nat)
    requires i <= |line|
    ensures KeySlice(line, i, TrimStartMatches(line[..i], '['))
  {
    var key := TrimStartMatches(line[..i], '[');
    TrimStartMatchesDrops(line[..i], '[');
    assert forall j | 0 <= j < i - |key| :: line[j] == line[..i][j];
  }

  lemma ValuePart(line: string, i: nat)
    requires i + 4 <= |line|
    ensures ValueSlice(line, i, TrimEndMatches(line[i + 4..], ']'))
  {
    var value := TrimEndMatches(line[i + 4..], ']');
    TrimEndMatchesDrops(line[i + 4..], ']');
    assert forall j | i + 4 + |value| <= j < |line| :: line[j] == line[i + 4..][j - i - 4];
  }

  /** A line printed as "[key]: [value]" gives back its key and value, for a
    * key without brackets and a value that does not end in ']'. */
  lemma GetpropRoundTrip(key: string, value: string)
    requires '[' !in key && ']' !in key && (value == [] || Last(value) != ']')
    ensures GetpropLine("[" + key + PropSeparator + value + "]") == Some((key, value))
  {
    var line := "[" + key + PropSeparator + value + "]";
    var i := |key| + 1;
    GetpropSeparatorFound(key, value);
    GetpropParts(key, value);
    TrimStartBracket(key);
    TrimEndBracket(value);
    GetpropAt(line, i, key, value);
  }

  /** The pieces a printed line is split into. */
  lemma GetpropParts(key: string, value: string)
    ensures var line, i := "[" + key + PropSeparator + value + "]", |key| + 1;
      |line| == i + 5 + |value| && line[..1] == "[" && line[..i] == "[" + key && line[i + 4..] == value + "]"
  {
  }

  /** The first separator of a printed line is the one printed. */
  lemma GetpropSeparatorFound(key: string, value: string)
    requires ']' !in key
    ensures IndexOf("[" + key + PropSeparator + value + "]", PropSeparator) == Some(|key| + 1)
  {
    var line := "[" + key + PropSeparator + value + "]";
    var i := |key| + 1;
    assert line[i..i + 4] == PropSeparator;
    assert OccursAt(line, PropSeparator, i);
    assert forall j | 1 <= j < i :: line[j] == key[j - 1];
    forall j | 0 <= j < i
      ensures !OccursAt(line, PropSeparator, j)
    {
      if j + 4 <= |line| {
        assert line[j..j + 4][0] == line[j] != ']';
      }
    }
  }

  lemma TrimStartBracket(key: string)
    requires '[' !in key
    ensures TrimStartMatches("[" + key, '[') == key
  {
    assert ("[" + key)[1..] == key;
    if key != [] {
      assert key[0] in key;
    }
  }

  lemma TrimEndBracket(value: string)
    requires value == [] || Last(value) != ']'
    ensures TrimEndMatches(value + "]", ']') == value
  {
    assert (value + "]")[..|value|] == value;
  }

  /** A line starting with '[' whose first separator is at `i` gives the
    * trimmed pieces around it. */
  lemma GetpropAt(line: string, i: nat, key: string, value: string)
    requires i + 4 <= |line| && line[..1] == "[" && IndexOf(line, PropSeparator) == Some(i)
    requires TrimStartMatches(line[..i], '[') == key && TrimEndMatches(line[i + 4..], ']') == value
    ensures GetpropLine(line) == Some((key, value))
  {
    assert StartsWith(line, "[");
  }

  /** The property map the lines build, inserted in order. */
  function PropsOf(lines: seq<string>): map<string, string>
  {
    if lines == [] then map[]
    else
      var m := PropsOf(lines[..|lines| - 1]);
      var p := GetpropLine(Last(lines));
      if p.Some? then m[p.value.0 := p.value.1] else m
  }

  predicate Defines(line: string, k: string)
  {
    GetpropLine(line).Some? && GetpropLine(line).value.0 == k
  }

  /** A key is present exactly when some line defines it. */
  lemma {:induction false} PropsOfKeys(lines: seq<string>, k: string)
    ensures k in PropsOf(lines) <==> exists i | 0 <= i < |lines| :: Defines(lines[i], k)
  {
    if lines != [] {
      var n := |lines| - 1;
      var init := lines[..n];
      PropsOfKeys(init, k);
      assert forall i | 0 <= i < n :: lines[i] == init[i];
      assert k in PropsOf(lines) <==> k in PropsOf(init) || Defines(lines[n], k);
    }
  }

  /** Line `i` defines `k` as `v` and no later line defines `k`. */
  predicate LastDefinition(lines: seq<string>, k: string, v: string, i: int)
  {
    && 0 <= i < |lines|
    && GetpropLine(lines[i]) == Some((k, v))
    && forall j | i < j < |lines| :: !Defines(lines[j], k)
  }

  /** A present key holds the value of the last line that defines it: later
    * duplicates overwrite earlier ones. */
  lemma {:induction false} PropsOfLastWins(lines: seq<string>, k: string)
    requires k in PropsOf(lines)
    ensures exists i :: LastDefinition(lines, k, PropsOf(lines)[k], i)
  {
    var n := |lines| - 1;
    var init := lines[..n];
    PropsOfLookup(lines, k);
    if Defines(lines[n], k) {
      assert LastDefinition(lines, k, PropsOf(lines)[k], n);
    } else {
      PropsOfLastWins(init, k);
      var i :| LastDefinition(init, k, PropsOf(init)[k], i);
      assert lines == init + [lines[n]];
      LastDefinitionKept(init, lines[n], k, PropsOf(init)[k], i);
    }
  }

  /** How the last line affects the lookup of `k`: it defines `k`, or the
    * lookup is the one before it. */
  lemma PropsOfLookup(lines: seq<string>, k: string)
    requires lines != []
    ensures var init := lines[..|lines| - 1];
            if Defines(Last(lines), k)
            then k in PropsOf(lines) && GetpropLine(Last(lines)) == Some((k, PropsOf(lines)[k]))
            else (k in PropsOf(lines) <==> k in PropsOf(init))
                 && (k in PropsOf(init) ==> PropsOf(lines)[k] == PropsOf(init)[k])
  {
  }

  /** A line that does not define `k` keeps the last definition of `k`. */
  lemma LastDefinitionKept(lines: seq<string>, line: string, k: string, v: string, i: int)
    requires LastDefinition(lines, k, v, i) && !Defines(line, k)
    ensures LastDefinition(lines + [line], k, v, i)
  {
    var all := lines + [line];
    assert forall j | i < j < |all| :: j == |lines| || all[j] == lines[j];
  }

  /** The getprop loop: scan the lines, inserting every property line. */
  method ParseGetprop(output: string) returns (props: map<string, string>)
    ensures props == PropsOf(Lines(output))
  {
    var lines := Lines(output);
    props := map[];
    for i := 0 to |lines|
      invariant props == PropsOf(lines[..i])
    {
      assert lines[..i + 1][..i] == lines[..i];
      match GetpropLine(lines[i])
      case Some((k, v)) => props := props[k := v];
      case None =>
    }
    assert lines[..|lines|] == lines;
  }

  /** `get_android_device_properties` once adb is configured: an unsuccessful
    * getprop gives no properties. */
  function PropertiesFrom(out: CmdOutput): map<string, string>
  {
    if out.success then PropsOf(Lines(out.stdout)) else map[]
  }

  // ---------------------------------------------------------------------
  // adb devices -l

  function StatusOf(word: string): DeviceStatus
  {
    if word == "device" then Connected
    else if word == "unauthorized" then Unauthorized
    else if word == "offline" then Offline
    else Disconnected
  }

  /** The record for an Android device: the model number names it (else
    * the id) and the release is its version (else "unknown"). */
  function AndroidDevice(id: string, state: string, props: map<string, string>): (d: Device)
    ensures d.id == id && d.status == StatusOf(state) && d.platform == "android"
    ensures d.name == (if "ro.product.model" in props then props["ro.product.model"] else id)
    ensures d.version == (if "ro.build.version.release" in props then props["ro.build.version.release"] else "unknown")
  {
    Device(
      id := id,
      name := if "ro.product.model" in props then props["ro.product.model"] else id,
      platform := "android",
      version := if "ro.build.version.release" in props then props["ro.build.version.release"] else "unknown",
      status := StatusOf(state),
      capabilities := map[])
  }

  /** The device an `adb devices -l` line describes, with `getprop` giving
    * each id's properties: the first token is the id, the second the state.
    * A line with fewer than two tokens (a blank one has none) describes no
    * device. */
  function AndroidDeviceOf(line: string, getprop: string -> CmdOutput): (r: Option<Device>)
    ensures r.Some? <==> |SplitWhitespace(line)| >= 2
    ensures r.Some? ==>
              var tokens := SplitWhitespace(line);
              r.value == AndroidDevice(tokens[0], tokens[1], PropertiesFrom(getprop(tokens[0])))
  {
    var tokens := SplitWhitespace(line);
    if |tokens| < 2 then None
    else Some(AndroidDevice(tokens[0], tokens[1], PropertiesFrom(getprop(tokens[0]))))
  }

  /** One iteration of the `adb devices -l` loop: split the line, and for a
    * device line fetch and parse its properties. */
  method ParseAndroidLine(line: string, getprop: string -> CmdOutput) returns (d: Option<Device>)
    ensures d == AndroidDeviceOf(line, getprop)
  {
    var tokens := SplitWhitespace(line);
    if |tokens| < 2 {
      return None;
    }
    var id := tokens[0];
    var props := map[];
    if getprop(id).success {
      props := ParseGetprop(getprop(id).stdout);
    }
    d := Some(AndroidDevice(id, tokens[1], props));
  }

  /** Every line after the header. */
  function AfterHeader(lines: seq<string>): seq<string>
  {
    if lines == [] then [] else lines[1..]
  }

  function AndroidOutcomes(body: seq<string>, getprop: string -> CmdOutput): (r: seq<Option<Device>>)
    ensures |r| == |body| && forall i | 0 <= i < |body| :: r[i] == AndroidDeviceOf(body[i], getprop)
  {
    seq(|body|, i requires 0 <= i < |body| => AndroidDeviceOf(body[i], getprop))
  }

  /** The Android list a successful `adb devices -l` produces. */
  function AndroidDevicesFrom(stdout: string, getprop: string -> CmdOutput): seq<Device>
  {
    Somes(AndroidOutcomes(AfterHeader(Lines(stdout)), getprop))
  }

  // ---------------------------------------------------------------------
  // instruments -s devices

  /** What the iOS line parser does with one line as written: the slices
    * `line[start+1..end]` and `line[udid_start+1..udid_end]` panic when the
    * closing character comes before the opening one. */
  datatype LineOutcome = Panics | Parsed(device: Option<Device>)

  /** Lines that mention "(" and ")" and not "Simulator" are candidates. */
  predicate IosCandidate(line: string)
  {
    FindChar(line, '(').Some? && FindChar(line, ')').Some? && !Contains(line, "Simulator")
  }

  function IosDevice(udid: string, name: string, version: string): Device
  {
    Device(Trim(udid), Trim(name), "ios", Trim(version), Connected, map[])
  }

  /** The positions of the first '(', ')', '[' and ']' of a candidate line
    * that has all four. */
  function Delimiters(line: string): (r: Option<(nat, nat, nat, nat)>)
    ensures r.Some? ==> r.value.0 < |line| && r.value.1 < |line| && r.value.2 < |line| && r.value.3 < |line|
  {
    if !IosCandidate(line) || FindChar(line, '[').None? || FindChar(line, ']').None? then None
    else Some((FindChar(line, '(').value, FindChar(line, ')').value, FindChar(line, '[').value, FindChar(line, ']').value))
  }

  /** The iOS line parser as written: "name (version) [udid]". The version
    * slice is taken before the brackets are looked for. */
  function IosLineAsWritten(line: string): LineOutcome
  {
    if !IosCandidate(line) then Parsed(None)
    else if FindChar(line, ')').value < FindChar(line, '(').value + 1 then Panics
    else match Delimiters(line)
      case None => Parsed(None)
      case Some((start, end, us, ue)) =>
        if ue < us + 1 then Panics
        else Parsed(Some(IosDevice(line[us + 1..ue], line[..start], line[start + 1..end])))
  }

  /** The iOS line parser with the panics replaced by skipping the line:
    * the name is the text before the first '(', the version lies between the
    * first '(' and the first ')', the udid between the first '[' and ']'. */
  function IosDeviceOf(line: string): (r: Option<Device>)
    ensures r.None? <==> Delimiters(line).None? || Delimiters(line).value.1 <= Delimiters(line).value.0
                         || Delimiters(line).value.3 <= Delimiters(line).value.2
    ensures Delimiters(line).Some? ==> var d := Delimiters(line).value;
              d.0 < d.1 && d.2 < d.3 ==> r == Some(IosDevice(line[d.2 + 1..d.3], line[..d.0], line[d.0 + 1..d.1]))
    ensures r.Some? ==> r.value.platform == "ios" && r.value.status == Connected
  {
    if Delimiters(line).None? then None
    else
      var (start, end, us, ue) := Delimiters(line).value;
      if end <= start || ue <= us then None
      else Some(IosDevice(line[us + 1..ue], line[..start], line[start + 1..end]))
  }

  /** A text that can stand as one field of a device line. */
  predicate PlainField(t: string)
  {
    '(' !in t && ')' !in t && '[' !in t && ']' !in t && !Contains(t, "Simulator")
  }

  /** A device line as `instruments -s devices` prints it. */
  function IosLine(name: string, version: string, udid: string): string
  {
    name + " (" + version + ") [" + udid + "]"
  }

  /** Where the delimiters of a printed device line lie. */
  lemma IosLineLayout(name: string, version: string, udid: string)
    ensures var line, n, v := IosLine(name, version, udid), |name|, |version|;
      |line| == n + v + |udid| + 6
      && line[..n] == name && line[n] == ' ' && line[n + 1] == '('
      && line[n + 2..n + 2 + v] == version && line[n + 2 + v] == ')' && line[n + 3 + v] == ' '
      && line[n + 4 + v] == '[' && line[n + 5 + v..n + 5 + v + |udid|] == udid && line[n + 5 + v + |udid|] == ']'
  {
  }

  /** Parsing a printed device line gives back its fields: the name with the
    * space before '(' (trimmed away by IosDevice), the version and the udid. */
  lemma IosLineRoundTrip(name: string, version: string, udid: string)
    requires PlainField(name) && PlainField(version) && PlainField(udid)
    ensures IosDeviceOf(IosLine(name, version, udid)) == Some(IosDevice(udid, name + " ", version))
  {
    IosLineDelimiters(name, version, udid);
    IosLineParsed(name, version, udid);
  }

  /** A printed line whose delimiters are found where they were printed
    * parses to its fields. */
  lemma IosLineParsed(name: string, version: string, udid: string)
    requires var n, v := |name|, |version|;
      Delimiters(IosLine(name, version, udid)) == Some((n + 1, n + 2 + v, n + 4 + v, n + 5 + v + |udid|))
    ensures IosDeviceOf(IosLine(name, version, udid)) == Some(IosDevice(udid, name + " ", version))
  {
    var n, v := |name|, |version|;
    IosLineFields(name, version, udid);
    IosDeviceAt(IosLine(name, version, udid), (n + 1, n + 2 + v, n + 4 + v, n + 5 + v + |udid|), udid, name + " ", version);
  }

  /** A line whose delimiters enclose the given fields parses to them. */
  lemma IosDeviceAt(line: string, d: (nat, nat, nat, nat), udid: string, name: string, version: string)
    requires Delimiters(line) == Some(d) && d.0 < d.1 && d.2 < d.3
    requires line[d.2 + 1..d.3] == udid && line[..d.0] == name && line[d.0 + 1..d.1] == version
    ensures IosDeviceOf(line) == Some(IosDevice(udid, name, version))
  {
  }

  /** The fields as the parser slices them out of a printed line. */
  lemma IosLineFields(name: string, version: string, udid: string)
    ensures var line, n, v := IosLine(name, version, udid), |name|, |version|;
      line[..n + 1] == name + " " && line[n + 2..n + 2 + v] == version
      && line[n + 5 + v..n + 5 + v + |udid|] == udid
  {
    var line, n := IosLine(name, version, udid), |name|;
    IosLineLayout(name, version, udid);
    assert line[..n + 1] == line[..n] + [line[n]];
  }

  /** The delimiters of a printed device line are the ones printed. */
  lemma IosLineDelimiters(name: string, version: string, udid: string)
    requires PlainField(name) && PlainField(version) && PlainField(udid)
    ensures var n, v := |name|, |version|;
      Delimiters(IosLine(name, version, udid)) == Some((n + 1, n + 2 + v, n + 4 + v, n + 5 + v + |udid|))
  {
    var line := IosLine(name, version, udid);
    IosLineFinds(name, version, udid);
    NotContainsLonger([], "Simulator");
    IosLineAbsent(name, version, udid, "Simulator");
    assert IosCandidate(line);
  }

  /** Each delimiter is first found where it was printed. */
  lemma IosLineFinds(name: string, version: string, udid: string)
    requires PlainField(name) && PlainField(version) && PlainField(udid)
    ensures var line, n, v := IosLine(name, version, udid), |name|, |version|;
      FindChar(line, '(') == Some(n + 1) && FindChar(line, ')') == Some(n + 2 + v)
      && FindChar(line, '[') == Some(n + 4 + v) && FindChar(line, ']') == Some(n + 5 + v + |udid|)
  {
    IosLineFindsParentheses(name, version, udid);
    IosLineFindsBrackets(name, version, udid);
  }

  lemma IosLineFindsParentheses(name: string, version: string, udid: string)
    requires PlainField(name) && PlainField(version)
    ensures var line, n, v := IosLine(name, version, udid), |name|, |version|;
      FindChar(line, '(') == Some(n + 1) && FindChar(line, ')') == Some(n + 2 + v)
  {
    var line, n, v := IosLine(name, version, udid), |name|, |version|;
    IosLineLayout(name, version, udid);
    assert forall j | 0 <= j < n :: line[j] == name[j];
    FindCharFirst(line, '(', n + 1);
    assert forall j | n + 2 <= j < n + 2 + v :: line[j] == version[j - n - 2];
    FindCharFirst(line, ')', n + 2 + v);
  }

  lemma IosLineFindsBrackets(name: string, version: string, udid: string)
    requires PlainField(name) && PlainField(version) && PlainField(udid)
    ensures var line, n, v := IosLine(name, version, udid), |name|, |version|;
      FindChar(line, '[') == Some(n + 4 + v) && FindChar(line, ']') == Some(n + 5 + v + |udid|)
  {
    var line, n, v := IosLine(name, version, udid), |name|, |version|;
    IosLineLayout(name, version, udid);
    var p2, p3 := n + 4 + v, n + 5 + v + |udid|;
    assert forall j | 0 <= j < n :: line[j] == name[j];
    assert forall j | n + 2 <= j < n + 2 + v :: line[j] == version[j - n - 2];
    FindCharFirst(line, '[', p2);
    assert forall j | p2 + 1 <= j < p3 :: line[j] == udid[j - p2 - 1];
    FindCharFirst(line, ']', p3);
  }

  /** A text holding none of the delimiters occurs in a printed line only
    * if it occurs in one of its fields. */
  lemma IosLineAbsent(name: string, version: string, udid: string, sub: string)
    requires ' ' !in sub && '(' !in sub && ')' !in sub && '[' !in sub && ']' !in sub
    requires !Contains(name, sub) && !Contains(version, sub) && !Contains(udid, sub)
    requires !Contains([], sub)
    ensures !Contains(IosLine(name, version, udid), sub)
  {
    var tail := version + ") [" + udid + "]";
    IosTailAbsent(version, udid, sub);
    NotContainsJoin([], '(', tail, sub);
    var r1 := [] + ['('] + tail;
    NotContainsJoin(name, ' ', r1, sub);
    assert IosLine(name, version, udid) == name + [' '] + r1;
  }

  /** The part of a printed line after its '('. */
  lemma IosTailAbsent(version: string, udid: string, sub: string)
    requires ' ' !in sub && ')' !in sub && '[' !in sub && ']' !in sub
    requires !Contains(version, sub) && !Contains(udid, sub) && !Contains([], sub)
    ensures !Contains(version + ") [" + udid + "]", sub)
  {
    var bracket := "[" + udid + "]";
    IosBracketAbsent(udid, sub);
    NotContainsJoin([], ' ', bracket, sub);
    var r3 := [] + [' '] + bracket;
    NotContainsJoin(version, ')', r3, sub);
    assert version + ") [" + udid + "]" == version + [')'] + r3;
  }

  /** The bracketed udid of a printed line. */
  lemma IosBracketAbsent(udid: string, sub: string)
    requires '[' !in sub && ']' !in sub
    requires !Contains(udid, sub) && !Contains([], sub)
    ensures !Contains("[" + udid + "]", sub)
  {
    NotContainsJoin(udid, ']', [], sub);
    var r5 := udid + [']'] + [];
    NotContainsJoin([], '[', r5, sub);
    assert "[" + udid + "]" == [] + ['['] + r5;
  }

  /** Wherever the parser as written does not panic, the corrected one agrees. */
  lemma IosLineAgrees(line: string)
    requires IosLineAsWritten(line).Parsed?
    ensures IosDeviceOf(line) == IosLineAsWritten(line).device
  {
  }

  /** A line whose ')' comes before its '(' crashes the refresh as written;
    * the corrected parser skips it. */
  lemma IosLinePanicsOnReversedParentheses()
    ensures IosLineAsWritten("x) (") == Panics
    ensures IosDeviceOf("x) (") == None
  {
    assert FindChar("x) (", '(') == Some(3);
    assert FindChar("x) (", ')') == Some(1);
    NotContainsLonger("x) (", "Simulator");
  }

  function IosOutcomes(lines: seq<string>): (r: seq<Option<Device>>)
    ensures |r| == |lines| && forall i | 0 <= i < |lines| :: r[i] == IosDeviceOf(lines[i])
  {
    seq(|lines|, i requires 0 <= i < |lines| => IosDeviceOf(lines[i]))
  }

  /** The iOS list a successful `instruments -s devices` produces. */
  function IosDevicesFrom(stdout: string): seq<Device>
  {
    Somes(IosOutcomes(Lines(stdout)))
  }

  /** The device-list loop of `refresh_android_devices`: every line after
    * the header that names a device, in order. */
  method ParseDeviceList(stdout: string, getprop: string -> CmdOutput) returns (devices: seq<Device>)
    ensures devices == AndroidDevicesFrom(stdout, getprop)
  {
    var body := AfterHeader(Lines(stdout));
    ghost var outcomes := AndroidOutcomes(body, getprop);
    devices := [];
    for i := 0 to |body|
      invariant devices == Somes(outcomes[..i])
    {
      SomesPrefix(outcomes, i);
      var device := ParseAndroidLine(body[i], getprop);
      if device.Some? {
        devices := devices + [device.value];
      }
    }
    assert outcomes[..|body|] == outcomes;
  }

  // ---------------------------------------------------------------------
  // The manager

  predicate Listed(devices: seq<Device>, id: string)
  {
    exists i | 0 <= i < |devices| :: devices[i].id == id
  }

  predicate AllOnPlatform(devices: seq<Device>, platform: string)
  {
    forall i | 0 <= i < |devices| :: devices[i].platform == platform
  }

  lemma SomesOnPlatform(s: seq<Option<Device>>, platform: string)
    requires forall i | 0 <= i < |s| :: s[i].Some? ==> s[i].value.platform == platform
    ensures AllOnPlatform(Somes(s), platform)
  {
    forall i | 0 <= i < |Somes(s)|
      ensures Somes(s)[i].platform == platform
    {
      SomesMembers(s, Somes(s)[i]);
    }
  }

  /** Every device adb reports is an Android device. */
  lemma AndroidDevicesOnAndroid(stdout: string, getprop: string -> CmdOutput)
    ensures AllOnPlatform(AndroidDevicesFrom(stdout, getprop), "android")
  {
    SomesOnPlatform(AndroidOutcomes(AfterHeader(Lines(stdout)), getprop), "android");
  }

  class Manager {
    var adbPath: Option<string>
    var androidDevices: seq<Device>
    var iosDevices: seq<Device>

    /** Android devices come from adb and iOS devices from instruments. */
    predicate Valid()
      reads this
    {
      AllOnPlatform(androidDevices, "android") && AllOnPlatform(iosDevices, "ios")
    }

    /** The manager before its first refresh (`new` then refreshes). */
    constructor(adbPath: Option<string>)
      ensures Valid() && this.adbPath == adbPath && androidDevices == [] && iosDevices == []
    {
      this.adbPath := adbPath;
      androidDevices := [];
      iosDevices := [];
    }

    /** `refresh_android_devices`: without adb, or when `adb devices -l`
      * fails, the error is returned and the old list kept; otherwise the
      * list is cleared and refilled from the lines after the header. */
    method RefreshAndroidDevices(devicesOut: CmdOutput, getprop: string -> CmdOutput) returns (r: KResult<()>)
      requires Valid()
      modifies this`androidDevices
      ensures Valid()
      ensures adbPath.None? ==>
                r == Err(KMobileError(ConfigError, "ADB path not configured")) && androidDevices == old(androidDevices)
      ensures adbPath.Some? && !devicesOut.success ==>
                r == Err(KMobileError(CommandError, "Failed to execute adb devices"))
                && androidDevices == old(androidDevices)
      ensures adbPath.Some? && devicesOut.success ==>
                r.Ok? && androidDevices == AndroidDevicesFrom(devicesOut.stdout, getprop)
    {
      if adbPath.None? {
        return Err(KMobileError(ConfigError, "ADB path not configured"));
      }
      if !devicesOut.success {
        return Err(KMobileError(CommandError, "Failed to execute adb devices"));
      }
      androidDevices := ParseDeviceList(devicesOut.stdout, getprop);
      AndroidDevicesOnAndroid(devicesOut.stdout, getprop);
      r := Ok(());
    }

    /** `refresh_ios_devices`: a failing `instruments` leaves the list alone
      * and still succeeds; otherwise the list is cleared and refilled. */
    method RefreshIosDevices(out: CmdOutput) returns (r: KResult<()>)
      requires Valid()
      modifies this`iosDevices
      ensures Valid() && r.Ok?
      ensures !out.success ==> iosDevices == old(iosDevices)
      ensures out.success ==> iosDevices == IosDevicesFrom(out.stdout)
    {
      if !out.success {
        return Ok(());
      }
      var lines := Lines(out.stdout);
      ghost var outcomes := IosOutcomes(lines);
      iosDevices := [];
      for i := 0 to |lines|
        invariant iosDevices == Somes(outcomes[..i])
      {
        SomesPrefix(outcomes, i);
        var device := IosDeviceOf(lines[i]);
        if device.Some? {
          iosDevices := iosDevices + [device.value];
        }
      }
      assert outcomes[..|lines|] == outcomes;
      SomesOnPlatform(outcomes, "ios");
      r := Ok(());
    }

    /** `refresh_devices`: refresh both platforms; a platform's failure is
      * only logged, so the refresh as a whole always succeeds. */
    method RefreshDevices(devicesOut: CmdOutput, getprop: string -> CmdOutput, instrumentsOut: CmdOutput)
      returns (r: KResult<()>)
      requires Valid()
      modifies this
      ensures Valid() && r.Ok? && adbPath == old(adbPath)
      ensures androidDevices == (if adbPath.Some? && devicesOut.success
                                 then AndroidDevicesFrom(devicesOut.stdout, getprop) else old(androidDevices))
      ensures iosDevices == (if instrumentsOut.success then IosDevicesFrom(instrumentsOut.stdout) else old(iosDevices))
    {
      var _ := RefreshAndroidDevices(devicesOut, getprop);
      var _ := RefreshIosDevices(instrumentsOut);
      r := Ok(());
    }

    /** `list_devices`: the Android devices, then the iOS devices. */
    function ListDevices(): (r: seq<Device>)
      reads this
      requires Valid()
      ensures |r| == |androidDevices| + |iosDevices|
      ensures forall i | 0 <= i < |r| :: r[i].platform == (if i < |androidDevices| then "android" else "ios")
      ensures r[..|androidDevices|] == androidDevices && r[|androidDevices|..] == iosDevices
    {
      androidDevices + iosDevices
    }

    /** Which platform handles `id`: Android if listed there, else iOS. */
    function RouteOf(id: string): (r: Route)
      reads this
      ensures r == OnAndroid <==> Listed(androidDevices, id)
      ensures r == OnIos <==> !Listed(androidDevices, id) && Listed(iosDevices, id)
    {
      if Listed(androidDevices, id) then OnAndroid
      else if Listed(iosDevices, id) then OnIos
      else NotFound
    }

    /** `connect_device`: an Android device is probed with `adb get-state`;
      * an iOS device is already connected. */
    function ConnectDevice(id: string, getState: CmdOutput): (r: KResult<()>)
      reads this
      ensures RouteOf(id) == NotFound ==> r == Err(KMobileError(DeviceNotFound, id))
      ensures RouteOf(id) == OnIos ==> r.Ok?
      ensures RouteOf(id) == OnAndroid ==>
                (r.Ok? <==> adbPath.Some? && getState.success)
                && (adbPath.None? ==> r == Err(KMobileError(ConfigError, "ADB path not configured")))
                && (adbPath.Some? && !getState.success ==> r == Err(KMobileError(DeviceConnectionError, id)))
    {
      match RouteOf(id)
      case OnAndroid =>
        if adbPath.None? then Err(KMobileError(ConfigError, "ADB path not configured"))
        else if !getState.success then Err(KMobileError(DeviceConnectionError, id))
        else Ok(())
      case OnIos => Ok(())
      case NotFound => Err(KMobileError(DeviceNotFound, id))
    }

    /** `install_app`: `adb install -r` or `ios-deploy`, whose stderr is
      * reported on failure. */
    function InstallApp(id: string, appPath: string, out: CmdOutput): (r: KResult<()>)
      reads this
      ensures RouteOf(id) == NotFound ==> r == Err(KMobileError(DeviceNotFound, id))
      ensures RouteOf(id) == OnAndroid && adbPath.None? ==> r == Err(KMobileError(ConfigError, "ADB path not configured"))
      ensures RouteOf(id) != NotFound && (RouteOf(id) == OnIos || adbPath.Some?) ==>
                (r.Ok? <==> out.success)
                && (!out.success ==> r.error.kind == AppInstallError && EndsWith(r.error.message, out.stderr))
    {
      match RouteOf(id)
      case OnAndroid =>
        if adbPath.None? then Err(KMobileError(ConfigError, "ADB path not configured"))
        else if !out.success then Err(KMobileError(AppInstallError, "Failed to install app: " + out.stderr))
        else Ok(())
      case OnIos =>
        if !out.success then Err(KMobileError(AppInstallError, "Failed to install iOS app: " + out.stderr))
        else Ok(())
      case NotFound => Err(KMobileError(DeviceNotFound, id))
    }

    /** `deploy_project`: run the platform's deploy command in the project
      * directory (default "."); returns the directory used. */
    function DeployProject(id: string, projectPath: Option<string>, out: CmdOutput): (r: KResult<string>)
      reads this
      ensures RouteOf(id) == NotFound ==> r == Err(KMobileError(DeviceNotFound, id))
      ensures RouteOf(id) != NotFound ==>
                (r.Ok? <==> out.success)
                && (r.Ok? ==> r.value == (if projectPath.Some? then projectPath.value else "."))
                && (r.Err? ==> r.error.kind == ProjectDeployError && EndsWith(r.error.message, out.stderr))
    {
      var dir := if projectPath.Some? then projectPath.value else ".";
      match RouteOf(id)
      case OnAndroid =>
        if !out.success then Err(KMobileError(ProjectDeployError, "Failed to deploy Android project: " + out.stderr))
        else Ok(dir)
      case OnIos =>
        if !out.success then Err(KMobileError(ProjectDeployError, "Failed to deploy iOS project: " + out.stderr))
        else Ok(dir)
      case NotFound => Err(KMobileError(DeviceNotFound, id))
    }
  }
}
