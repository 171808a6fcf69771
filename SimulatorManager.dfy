// Simulator and emulator registry (src/simulator.rs): the Android emulator
// list refreshed from `emulator -list-avds` (with each AVD's state read from
// `adb devices`), the iOS simulator list refreshed from the parsed JSON of
// `xcrun simctl list devices --json`, and the start / stop / reset / install
// operations dispatched on those lists, Android first.

module SimulatorManager {
  import opened Common
  import opened Errors

  datatype SimulatorStatus = Booted | Shutdown | Booting | ShuttingDown

  datatype Simulator = Simulator(
    id: string,
    name: string,
    platform: string,
    version: string,
    status: SimulatorStatus,
    deviceType: string)

  // ---------------------------------------------------------------------
  // Android emulators

  /** An `adb devices` line shows the AVD running. */
  predicate ShowsRunning(line: string, avd: string)
  {
    Contains(line, avd) && Contains(line, "device")
  }

  /** Some line of a successful `adb devices` shows the AVD running. */
  predicate BootedIn(avd: string, adbOut: CmdOutput)
  {
    adbOut.success && exists line | line in Lines(adbOut.stdout) :: ShowsRunning(line, avd)
  }

  function StatusFor(avd: string, adbOut: CmdOutput): SimulatorStatus
  {
    if BootedIn(avd, adbOut) then Booted else Shutdown
  }

  /** The record of one AVD: the trimmed line is both id and name. */
  function EmulatorRecord(avd: string, status: SimulatorStatus): Simulator
  {
    Simulator(avd, avd, "android", "unknown", status, "emulator")
  }

  /** What one line of `emulator -list-avds` contributes: blank lines nothing. */
  function AvdLine(line: string, adbOut: CmdOutput): Option<Simulator>
  {
    var avd := Trim(line);
    if avd == [] then None else Some(EmulatorRecord(avd, StatusFor(avd, adbOut)))
  }

  /** A line that is empty once trimmed. */
  predicate Blank(line: string)
  {
    Trim(line) == []
  }

  /** Every line is blank. */
  predicate AllBlank(lines: seq<string>)
  {
    forall j | 0 <= j < |lines| :: Blank(lines[j])
  }

  function AvdOutcomes(lines: seq<string>, adbOut: CmdOutput): (r: seq<Option<Simulator>>)
    ensures |r| == |lines| && forall i | 0 <= i < |lines| :: r[i] == AvdLine(lines[i], adbOut)
  {
    seq(|lines|, i requires 0 <= i < |lines| => AvdLine(lines[i], adbOut))
  }

  /** The Android list a successful `-list-avds` produces when adb is configured. */
  function AndroidEmulatorsFrom(stdout: string, adbOut: CmdOutput): seq<Simulator>
  {
    Somes(AvdOutcomes(Lines(stdout), adbOut))
  }

  /** One more line of `-list-avds`: a non-blank one adds its record. */
  lemma AvdStep(lines: seq<string>, adbOut: CmdOutput, i: nat)
    requires i < |lines|
    ensures var outcomes := AvdOutcomes(lines, adbOut);
            var avd := Trim(lines[i]);
            Somes(outcomes[..i + 1])
            == Somes(outcomes[..i]) + (if avd == [] then [] else [EmulatorRecord(avd, StatusFor(avd, adbOut))])
  {
    SomesPrefix(AvdOutcomes(lines, adbOut), i);
  }

  /** One emulator per non-blank line, named by the trimmed line. */
  lemma {:induction false} AndroidEmulatorShape(lines: seq<string>, adbOut: CmdOutput, e: Simulator)
    requires e in Somes(AvdOutcomes(lines, adbOut))
    ensures e.id == e.name && e.id != [] && e.platform == "android" && e.version == "unknown"
    ensures exists line | line in lines :: e.id == Trim(line)
    ensures e.status == Booted <==> BootedIn(e.id, adbOut)
  {
    var outcomes := AvdOutcomes(lines, adbOut);
    SomesMembers(outcomes, e);
    var i :| 0 <= i < |outcomes| && outcomes[i] == Some(e);
    assert lines[i] in lines;
  }

  /** A line that mentions "emulator" has a first token (so the source's
    * `unwrap` of it cannot fail). */
  function FirstToken(line: string): (t: string)
    requires Contains(line, "emulator")
    ensures SplitWhitespace(line) != [] && t == SplitWhitespace(line)[0] && t != []
  {
    var k := IndexOf(line, "emulator").value;
    assert line[k..k + 8] == "emulator";
    assert line[k] == 'e';
    SplitWhitespaceNonEmpty(line, k);
    assert SplitWhitespace(line)[0] in SplitWhitespace(line);
    SplitWhitespace(line)[0]
  }

  predicate RunningEmulatorLine(line: string)
  {
    Contains(line, "emulator") && Contains(line, "device")
  }

  /** The serial of the first running emulator a successful `adb devices`
    * lists. */
  function FirstRunningEmulator(lines: seq<string>): (r: Option<string>)
    ensures r.Some? <==> exists i | 0 <= i < |lines| :: RunningEmulatorLine(lines[i])
    ensures r.Some? ==>
              exists i | 0 <= i < |lines| ::
                && RunningEmulatorLine(lines[i]) && r.value == FirstToken(lines[i])
                && forall j | 0 <= j < i :: !RunningEmulatorLine(lines[j])
  {
    if lines == [] then None
    else if RunningEmulatorLine(lines[0]) then Some(FirstToken(lines[0]))
    else
      var r := FirstRunningEmulator(lines[1..]);
      assert forall i | 1 <= i < |lines| :: lines[i] == lines[1..][i - 1];
      r
  }

  /** The loop the stop and install operations use to find "the" emulator:
    * the first line mentioning both "emulator" and "device". */
  method FindRunningEmulator(adbOut: CmdOutput) returns (serial: Option<string>)
    ensures serial == (if adbOut.success then FirstRunningEmulator(Lines(adbOut.stdout)) else None)
  {
    if !adbOut.success {
      return None;
    }
    var lines := Lines(adbOut.stdout);
    var i := 0;
    while i < |lines|
      invariant 0 <= i <= |lines|
      invariant FirstRunningEmulator(lines) == FirstRunningEmulator(lines[i..])
    {
      assert lines[i..][1..] == lines[i + 1..];
      if RunningEmulatorLine(lines[i]) {
        return Some(FirstToken(lines[i]));
      }
      i := i + 1;
    }
    return None;
  }

  // ---------------------------------------------------------------------
  // iOS simulators

  const RuntimePrefix := "com.apple.CoreSimulator.SimRuntime."

  /** The version shown for a runtime key: the prefix removed and every '-'
    * turned into '.'. */
  function RuntimeVersion(runtime: string): string
  {
    ReplaceAll(ReplaceAll(runtime, RuntimePrefix, ""), "-", ".")
  }

  /** For a runtime key of the usual form, the version is the rest of the key
    * with dashes turned into dots ("…SimRuntime.iOS-17-0" gives "iOS.17.0"). */
  lemma RuntimeVersionOf(rest: string)
    requires !Contains(rest, RuntimePrefix)
    ensures RuntimeVersion(RuntimePrefix + rest) == ReplaceChar(rest, '-', '.')
    ensures forall i | 0 <= i < |RuntimeVersion(RuntimePrefix + rest)| :: RuntimeVersion(RuntimePrefix + rest)[i] != '-'
  {
    ReplaceAllLeading(RuntimePrefix, rest, "");
    ReplaceAllAbsent(rest, RuntimePrefix, "");
    assert ReplaceAll(RuntimePrefix + rest, RuntimePrefix, "") == rest;
    ReplaceAllOneChar(rest, '-', '.');
    assert "-" == ['-'] && "." == ['.'];
  }

  function StateOf(state: string): SimulatorStatus
  {
    if state == "Booted" then Booted
    else if state == "Booting" then Booting
    else if state == "Shutting Down" then ShuttingDown
    else Shutdown
  }

  /** One device object of a runtime's list: it needs string `udid`, `name`
    * and `state` fields, or it is skipped. */
  function SimulatorOf(runtime: string, device: Json): (r: Option<Simulator>)
    ensures r.Some? <==> StrField(device, "udid").Some? && StrField(device, "name").Some? && StrField(device, "state").Some?
    ensures r.Some? ==>
              && r.value.id == StrField(device, "udid").value
              && r.value.name == StrField(device, "name").value
              && r.value.status == StateOf(StrField(device, "state").value)
              && r.value.platform == "ios" && r.value.version == RuntimeVersion(runtime)
  {
    match (StrField(device, "udid"), StrField(device, "name"), StrField(device, "state"))
    case (Some(udid), Some(name), Some(state)) =>
      Some(Simulator(udid, name, "ios", RuntimeVersion(runtime), StateOf(state), "simulator"))
    case _ => None
  }

  function DeviceOutcomes(runtime: string, items: seq<Json>): (r: seq<Option<Simulator>>)
    ensures |r| == |items| && forall i | 0 <= i < |items| :: r[i] == SimulatorOf(runtime, items[i])
  {
    seq(|items|, i requires 0 <= i < |items| => SimulatorOf(runtime, items[i]))
  }

  /** The simulators of one runtime entry; a non-array entry has none. */
  function RuntimeSimulators(runtime: string, list: Json): seq<Simulator>
  {
    if list.JArray? then Somes(DeviceOutcomes(runtime, list.items)) else []
  }

  /** The inner loop: one runtime's device list. */
  method ParseRuntime(runtime: string, list: Json) returns (sims: seq<Simulator>)
    ensures sims == RuntimeSimulators(runtime, list)
  {
    sims := [];
    if !list.JArray? {
      return;
    }
    var items := list.items;
    ghost var outcomes := DeviceOutcomes(runtime, items);
    for j := 0 to |items|
      invariant sims == Somes(outcomes[..j])
    {
      SomesPrefix(outcomes, j);
      var s := SimulatorOf(runtime, items[j]);
      if s.Some? {
        sims := sims + [s.value];
      }
    }
    assert outcomes[..|items|] == outcomes;
  }

  /** The `devices` object of the parsed listing. */
  function DevicesObject(parsed: Option<Json>): Option<map<string, Json>>
  {
    if parsed.None? then None else ObjectField(parsed.value, "devices")
  }

  /** The simulators of the runtimes `order` lists, runtime after runtime. */
  function SimulatorsOfRuntimes(devices: map<string, Json>, order: seq<string>): seq<Simulator>
    requires forall r | r in order :: r in devices
  {
    if order == [] then []
    else SimulatorsOfRuntimes(devices, order[..|order| - 1]) + RuntimeSimulators(Last(order), devices[Last(order)])
  }

  /** The iOS list a successful listing produces; unparsable output gives
    * an empty list. `order` is the order the JSON map yields its runtimes. */
  function IosSimulatorsFrom(parsed: Option<Json>, order: seq<string>): seq<Simulator>
    requires DevicesObject(parsed).Some? ==> Enumerates(order, DevicesObject(parsed).value.Keys)
  {
    match DevicesObject(parsed)
    case None => []
    case Some(m) => SimulatorsOfRuntimes(m, order)
  }

  // ---------------------------------------------------------------------
  // The manager

  predicate Listed(sims: seq<Simulator>, id: string)
  {
    exists i | 0 <= i < |sims| :: sims[i].id == id
  }

  class Manager {
    var emulatorPath: Option<string>
    var sdkPath: Option<string>
    var adbPath: Option<string>
    var androidEmulators: seq<Simulator>
    var iosSimulators: seq<Simulator>

    /** The manager before its first refresh (`new` then refreshes). */
    constructor(emulatorPath: Option<string>, sdkPath: Option<string>, adbPath: Option<string>)
      ensures this.emulatorPath == emulatorPath && this.sdkPath == sdkPath && this.adbPath == adbPath
      ensures androidEmulators == [] && iosSimulators == []
    {
      this.emulatorPath := emulatorPath;
      this.sdkPath := sdkPath;
      this.adbPath := adbPath;
      androidEmulators := [];
      iosSimulators := [];
    }

    /** The emulator binary: the configured path, else the one inside the
      * SDK, else a configuration error. */
    function EmulatorBinary(): (r: KResult<string>)
      reads this
      ensures emulatorPath.Some? ==> r == Ok(emulatorPath.value)
      ensures emulatorPath.None? && sdkPath.Some? ==> r.Ok? && EndsWith(r.value, "emulator/emulator")
      ensures r.Err? <==> emulatorPath.None? && sdkPath.None?
      ensures r.Err? ==> r.error == KMobileError(ConfigError, "Emulator path not configured")
    {
      if emulatorPath.Some? then Ok(emulatorPath.value)
      else if sdkPath.Some? then Ok(JoinPath(sdkPath.value, "emulator/emulator"))
      else Err(KMobileError(ConfigError, "Emulator path not configured"))
    }

    /** `get_android_emulator_status`: Booted when a line of a successful
      * `adb devices` mentions the AVD and "device". */
    method GetAndroidEmulatorStatus(avd: string, adbOut: CmdOutput) returns (r: KResult<SimulatorStatus>)
      ensures adbPath.None? ==> r == Err(KMobileError(ConfigError, "ADB path not configured"))
      ensures adbPath.Some? ==> r == Ok(StatusFor(avd, adbOut))
    {
      if adbPath.None? {
        return Err(KMobileError(ConfigError, "ADB path not configured"));
      }
      if adbOut.success {
        var lines := Lines(adbOut.stdout);
        for i := 0 to |lines|
          invariant forall j | 0 <= j < i :: !ShowsRunning(lines[j], avd)
        {
          if ShowsRunning(lines[i], avd) {
            return Ok(Booted);
          }
        }
      }
      return Ok(Shutdown);
    }

    /** The loop of `refresh_android_emulators` over the `-list-avds` lines:
      * each non-blank line's status is looked up (the lookup's error ends
      * the loop) and its record appended. As the lookup fails exactly when
      * adb is not configured, the loop is written once for each case. */
    method CollectEmulators(lines: seq<string>, adbOut: CmdOutput) returns (sims: seq<Simulator>, r: KResult<()>)
      ensures adbPath.Some? ==> r.Ok? && sims == Somes(AvdOutcomes(lines, adbOut))
      ensures adbPath.None? ==>
                sims == [] && (r.Ok? <==> AllBlank(lines))
                && (r.Err? ==> r.error == KMobileError(ConfigError, "ADB path not configured"))
    {
      if adbPath.Some? {
        sims := CollectWithAdb(lines, adbOut);
        r := Ok(());
      } else {
        sims, r := CollectWithoutAdb(lines, adbOut);
      }
    }

    /** With adb configured every lookup succeeds: one record per non-blank line. */
    method CollectWithAdb(lines: seq<string>, adbOut: CmdOutput) returns (sims: seq<Simulator>)
      requires adbPath.Some?
      ensures sims == Somes(AvdOutcomes(lines, adbOut))
    {
      ghost var outcomes := AvdOutcomes(lines, adbOut);
      sims := [];
      for i := 0 to |lines|
        invariant sims == Somes(outcomes[..i])
      {
        AvdStep(lines, adbOut, i);
        var avd := Trim(lines[i]);
        if avd != [] {
          var status := GetAndroidEmulatorStatus(avd, adbOut);
          sims := sims + [EmulatorRecord(avd, status.value)];
        }
      }
      assert outcomes[..|lines|] == outcomes;
    }

    /** Without adb the first non-blank line's lookup fails and ends the loop. */
    method CollectWithoutAdb(lines: seq<string>, adbOut: CmdOutput) returns (sims: seq<Simulator>, r: KResult<()>)
      requires adbPath.None?
      ensures sims == [] && (r.Ok? <==> AllBlank(lines))
      ensures r.Err? ==> r.error == KMobileError(ConfigError, "ADB path not configured")
    {
      sims := [];
      for i := 0 to |lines|
        invariant forall j | 0 <= j < i :: Blank(lines[j])
      {
        var avd := Trim(lines[i]);
        if avd != [] {
          var status := GetAndroidEmulatorStatus(avd, adbOut);
          assert !AllBlank(lines) by { assert !Blank(lines[i]); }
          return sims, Err(status.error);
        }
      }
      r := Ok(());
    }

    /** `refresh_android_emulators`. Without an emulator binary, or when the
      * listing fails, the error is returned and the list kept. Otherwise the
      * list is cleared and refilled; without adb the first AVD's status
      * lookup fails, leaving the list empty. */
    method RefreshAndroidEmulators(listOut: CmdOutput, adbOut: CmdOutput) returns (r: KResult<()>)
      modifies this`androidEmulators
      ensures EmulatorBinary().Err? ==> r == Err(EmulatorBinary().error) && androidEmulators == old(androidEmulators)
      ensures EmulatorBinary().Ok? && !listOut.success ==>
                r == Err(KMobileError(CommandError, "Failed to list Android emulators"))
                && androidEmulators == old(androidEmulators)
      ensures EmulatorBinary().Ok? && listOut.success && adbPath.Some? ==>
                r.Ok? && androidEmulators == AndroidEmulatorsFrom(listOut.stdout, adbOut)
      ensures EmulatorBinary().Ok? && listOut.success && adbPath.None? ==>
                androidEmulators == []
                && (r.Ok? <==> AllBlank(Lines(listOut.stdout)))
                && (r.Err? ==> r.error == KMobileError(ConfigError, "ADB path not configured"))
    {
      var binary := EmulatorBinary();
      if binary.Err? {
        return Err(binary.error);
      }
      if !listOut.success {
        return Err(KMobileError(CommandError, "Failed to list Android emulators"));
      }
      var lines := Lines(listOut.stdout);
      androidEmulators := [];
      var sims;
      sims, r := CollectEmulators(lines, adbOut);
      androidEmulators := sims;
    }

    /** `refresh_ios_simulators`: a failing listing leaves the list alone and
      * still succeeds; otherwise the list is cleared and refilled from the
      * parsed JSON (`parsed`, None when it does not parse), runtime by
      * runtime in the map's order `order`. */
    method RefreshIosSimulators(out: CmdOutput, parsed: Option<Json>, order: seq<string>) returns (r: KResult<()>)
      requires DevicesObject(parsed).Some? ==> Enumerates(order, DevicesObject(parsed).value.Keys)
      modifies this`iosSimulators
      ensures r.Ok?
      ensures !out.success ==> iosSimulators == old(iosSimulators)
      ensures out.success ==> iosSimulators == IosSimulatorsFrom(parsed, order)
    {
      if !out.success {
        return Ok(());
      }
      iosSimulators := [];
      var devices := DevicesObject(parsed);
      if devices.Some? {
        var m := devices.value;
        for i := 0 to |order|
          invariant iosSimulators == SimulatorsOfRuntimes(m, order[..i])
        {
          assert order[..i + 1][..i] == order[..i];
          var sims := ParseRuntime(order[i], m[order[i]]);
          iosSimulators := iosSimulators + sims;
        }
        assert order[..|order|] == order;
      }
      r := Ok(());
    }

    /** `refresh_simulators`: refresh both platforms; a platform's failure is
      * only logged, so the refresh as a whole always succeeds. */
    method RefreshSimulators(listOut: CmdOutput, adbOut: CmdOutput, simctlOut: CmdOutput, parsed: Option<Json>, order: seq<string>)
      returns (r: KResult<()>)
      requires DevicesObject(parsed).Some? ==> Enumerates(order, DevicesObject(parsed).value.Keys)
      modifies this
      ensures r.Ok?
      ensures emulatorPath == old(emulatorPath) && sdkPath == old(sdkPath) && adbPath == old(adbPath)
      ensures EmulatorBinary().Ok? && listOut.success && adbPath.Some? ==>
                androidEmulators == AndroidEmulatorsFrom(listOut.stdout, adbOut)
      ensures EmulatorBinary().Ok? && listOut.success && adbPath.None? ==> androidEmulators == []
      ensures EmulatorBinary().Err? || !listOut.success ==> androidEmulators == old(androidEmulators)
      ensures iosSimulators == (if simctlOut.success then IosSimulatorsFrom(parsed, order) else old(iosSimulators))
    {
      var _ := RefreshAndroidEmulators(listOut, adbOut);
      var _ := RefreshIosSimulators(simctlOut, parsed, order);
      r := Ok(());
    }

    /** `list_simulators`: the Android emulators, then the iOS simulators. */
    function ListSimulators(): (r: seq<Simulator>)
      reads this
      ensures |r| == |androidEmulators| + |iosSimulators|
      ensures r[..|androidEmulators|] == androidEmulators && r[|androidEmulators|..] == iosSimulators
    {
      androidEmulators + iosSimulators
    }

    /** Which platform handles `id`: Android if listed there, else iOS. */
    function RouteOf(id: string): (r: Route)
      reads this
      ensures r == OnAndroid <==> Listed(androidEmulators, id)
      ensures r == OnIos <==> !Listed(androidEmulators, id) && Listed(iosSimulators, id)
    {
      if Listed(androidEmulators, id) then OnAndroid
      else if Listed(iosSimulators, id) then OnIos
      else NotFound
    }

    /** `start_simulator`: an AVD is launched with the emulator binary (the
      * launch itself is not awaited); an iOS simulator is booted. */
    function StartSimulator(id: string, bootOut: CmdOutput): (r: KResult<()>)
      reads this
      ensures RouteOf(id) == NotFound ==> r == Err(KMobileError(SimulatorNotFound, id))
      ensures RouteOf(id) == OnAndroid ==> (r.Ok? <==> EmulatorBinary().Ok?)
      ensures RouteOf(id) == OnIos ==>
                (r.Ok? <==> bootOut.success)
                && (r.Err? ==> r.error == KMobileError(SimulatorStartError, "Failed to start iOS simulator: " + bootOut.stderr))
    {
      match RouteOf(id)
      case OnAndroid =>
        var _ :- EmulatorBinary();
        Ok(())
      case OnIos =>
        if bootOut.success then Ok(())
        else Err(KMobileError(SimulatorStartError, "Failed to start iOS simulator: " + bootOut.stderr))
      case NotFound => Err(KMobileError(SimulatorNotFound, id))
    }

    /** `stop_simulator`: on Android, kill the first running emulator adb
      * lists (whichever AVD it runs), ignoring the outcome; on iOS, shut the
      * simulator down. `killed` is the serial sent `emu kill`. */
    method StopSimulator(id: string, adbOut: CmdOutput, shutdownOut: CmdOutput)
      returns (r: KResult<()>, killed: Option<string>)
      ensures RouteOf(id) == NotFound ==> r == Err(KMobileError(SimulatorNotFound, id)) && killed.None?
      ensures RouteOf(id) == OnAndroid ==>
                if adbPath.None? then r == Err(KMobileError(ConfigError, "ADB path not configured")) && killed.None?
                else r.Ok? && killed == (if adbOut.success then FirstRunningEmulator(Lines(adbOut.stdout)) else None)
      ensures RouteOf(id) == OnIos ==>
                killed.None? && (r.Ok? <==> shutdownOut.success)
                && (r.Err? ==> r.error == KMobileError(SimulatorStopError, "Failed to stop iOS simulator: " + shutdownOut.stderr))
    {
      killed := None;
      match RouteOf(id)
      case OnAndroid =>
        if adbPath.None? {
          return Err(KMobileError(ConfigError, "ADB path not configured")), None;
        }
        killed := FindRunningEmulator(adbOut);
        r := Ok(());
      case OnIos =>
        if shutdownOut.success {
          r := Ok(());
        } else {
          r := Err(KMobileError(SimulatorStopError, "Failed to stop iOS simulator: " + shutdownOut.stderr));
        }
      case NotFound =>
        r := Err(KMobileError(SimulatorNotFound, id));
    }

    /** `reset_simulator`: wipe an AVD's data or erase an iOS simulator. */
    function ResetSimulator(id: string, out: CmdOutput): (r: KResult<()>)
      reads this
      ensures RouteOf(id) == NotFound ==> r == Err(KMobileError(SimulatorNotFound, id))
      ensures RouteOf(id) == OnAndroid && EmulatorBinary().Err? ==> r == Err(EmulatorBinary().error)
      ensures RouteOf(id) == OnIos || (RouteOf(id) == OnAndroid && EmulatorBinary().Ok?) ==>
                (r.Ok? <==> out.success)
                && (r.Err? ==> r.error.kind == SimulatorResetError && EndsWith(r.error.message, out.stderr))
    {
      match RouteOf(id)
      case OnAndroid =>
        var _ :- EmulatorBinary();
        if out.success then Ok(())
        else Err(KMobileError(SimulatorResetError, "Failed to reset Android emulator: " + out.stderr))
      case OnIos =>
        if out.success then Ok(())
        else Err(KMobileError(SimulatorResetError, "Failed to reset iOS simulator: " + out.stderr))
      case NotFound => Err(KMobileError(SimulatorNotFound, id))
    }

    /** `install_app`: on Android, install on the first running emulator adb
      * lists (and succeed without installing when none runs); on iOS,
      * `simctl install`. `target` is the serial installed on. */
    method InstallApp(id: string, appPath: string, adbOut: CmdOutput, installOut: CmdOutput)
      returns (r: KResult<()>, target: Option<string>)
      ensures RouteOf(id) == NotFound ==> r == Err(KMobileError(SimulatorNotFound, id)) && target.None?
      ensures RouteOf(id) == OnAndroid && adbPath.None? ==>
                r == Err(KMobileError(ConfigError, "ADB path not configured")) && target.None?
      ensures RouteOf(id) == OnAndroid && adbPath.Some? ==>
                && target == (if adbOut.success then FirstRunningEmulator(Lines(adbOut.stdout)) else None)
                && (r.Ok? <==> target.None? || installOut.success)
                && (r.Err? ==> r.error == KMobileError(AppInstallError, "Failed to install app: " + installOut.stderr))
      ensures RouteOf(id) == OnIos ==>
                target == Some(id) && (r.Ok? <==> installOut.success)
                && (r.Err? ==> r.error == KMobileError(AppInstallError, "Failed to install iOS app: " + installOut.stderr))
    {
      target := None;
      match RouteOf(id)
      case OnAndroid =>
        if adbPath.None? {
          return Err(KMobileError(ConfigError, "ADB path not configured")), None;
        }
        target := FindRunningEmulator(adbOut);
        if target.Some? && !installOut.success {
          r := Err(KMobileError(AppInstallError, "Failed to install app: " + installOut.stderr));
        } else {
          r := Ok(());
        }
      case OnIos =>
        target := Some(id);
        if installOut.success {
          r := Ok(());
        } else {
          r := Err(KMobileError(AppInstallError, "Failed to install iOS app: " + installOut.stderr));
        }
      case NotFound =>
        r := Err(KMobileError(SimulatorNotFound, id));
    }
  }
}
