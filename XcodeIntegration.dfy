// The iOS side of the desktop application (kmobile-desktop/src/xcode_integration.rs):
// the simulator listing read from `simctl list devices --json`, the
// simulator and physical-device registries refreshed by clear-and-insert,
// booting (boot, poll until booted, connect the device bridge, attach the
// hardware emulator), build-log classification, and workflows of steps.
// Every external command is an oracle: its `CmdOutput` is a parameter.

module XcodeIntegration {
  import opened Common
  import DeviceBridge
  import HardwareEmulator

  /** `anyhow::Result`: errors are messages. */
  type XResult<T> = Result<T, string>

  datatype SimulatorState = Shutdown | Booted | Booting | ShuttingDown | Unknown

  datatype SimulatorInfo = SimulatorInfo(
    udid: string,
    name: string,
    deviceType: string,
    runtime: string,
    state: SimulatorState,
    availability: string,
    isAvailable: bool,
    dataPath: Option<string>,
    logPath: Option<string>)

  datatype ConnectionKind = Usb | Wifi | Network

  datatype PhysicalDevice = PhysicalDevice(
    udid: string,
    name: string,
    deviceType: string,
    iosVersion: string,
    connectionType: ConnectionKind)

  // ---------------------------------------------------------------------
  // The simulator listing

  /** The `state` string of a device record. */
  function StateOf(state: Option<string>): (st: SimulatorState)
    ensures st == Unknown <==> state !in {Some("Booted"), Some("Shutdown"), Some("Booting"), Some("Shutting Down")}
    ensures st == Booted <==> state == Some("Booted")
    ensures st == Shutdown <==> state == Some("Shutdown")
    ensures st == Booting <==> state == Some("Booting")
    ensures st == ShuttingDown <==> state == Some("Shutting Down")
  {
    match state
    case Some("Booted") => Booted
    case Some("Shutdown") => Shutdown
    case Some("Booting") => Booting
    case Some("Shutting Down") => ShuttingDown
    case _ => Unknown
  }

  /** A string field, or "" when it is missing or not a string. */
  function StrOrEmpty(device: Json, key: string): (s: string)
    ensures StrField(device, key).None? ==> s == []
    ensures StrField(device, key).Some? ==> s == StrField(device, key).value
  {
    if StrField(device, key).Some? then StrField(device, key).value else []
  }

  /** One device object of a runtime's list. Every object gives a record:
    * missing strings become "", a missing `isAvailable` false. */
  function SimulatorInfoOf(runtime: string, device: Json): (s: SimulatorInfo)
    ensures s.udid == StrOrEmpty(device, "udid") && s.name == StrOrEmpty(device, "name")
    ensures s.runtime == runtime && s.state == StateOf(StrField(device, "state"))
    ensures s.isAvailable <==> BoolField(device, "isAvailable") == Some(true)
    ensures s.dataPath == StrField(device, "dataPath") && s.logPath == StrField(device, "logPath")
  {
    SimulatorInfo(
      StrOrEmpty(device, "udid"),
      StrOrEmpty(device, "name"),
      StrOrEmpty(device, "deviceTypeIdentifier"),
      runtime,
      StateOf(StrField(device, "state")),
      StrOrEmpty(device, "availability"),
      BoolField(device, "isAvailable") == Some(true),
      StrField(device, "dataPath"),
      StrField(device, "logPath"))
  }

  /** The records of one runtime entry; a non-array entry has none. */
  function RuntimeInfos(runtime: string, list: Json): (r: seq<SimulatorInfo>)
    ensures list.JArray? ==> |r| == |list.items| && forall i | 0 <= i < |r| :: r[i] == SimulatorInfoOf(runtime, list.items[i])
    ensures !list.JArray? ==> r == []
  {
    if list.JArray? then seq(|list.items|, i requires 0 <= i < |list.items| => SimulatorInfoOf(runtime, list.items[i]))
    else []
  }

  /** The listing of the runtimes `order` names, runtime after runtime. */
  function Listing(devices: map<string, Json>, order: seq<string>): seq<SimulatorInfo>
    requires forall r | r in order :: r in devices
  {
    if order == [] then []
    else Listing(devices, order[..|order| - 1]) + RuntimeInfos(Last(order), devices[Last(order)])
  }

  /** How many device objects the runtimes `order` names hold. */
  function DeviceObjectCount(devices: map<string, Json>, order: seq<string>): nat
    requires forall r | r in order :: r in devices
  {
    if order == [] then 0
    else
      var list := devices[Last(order)];
      DeviceObjectCount(devices, order[..|order| - 1]) + (if list.JArray? then |list.items| else 0)
  }

  /** No device object is dropped: the listing has one record per object. */
  lemma {:induction false} ListingKeepsEveryRecord(devices: map<string, Json>, order: seq<string>)
    requires forall r | r in order :: r in devices
    ensures |Listing(devices, order)| == DeviceObjectCount(devices, order)
    decreases |order|
  {
    if order != [] {
      ListingKeepsEveryRecord(devices, order[..|order| - 1]);
    }
  }

  /** Every record carries a runtime key of the listing. */
  lemma {:induction false} ListingRuntimes(devices: map<string, Json>, order: seq<string>, s: SimulatorInfo)
    requires forall r | r in order :: r in devices
    requires s in Listing(devices, order)
    ensures s.runtime in order
    decreases |order|
  {
    var prefix := order[..|order| - 1];
    if s in Listing(devices, prefix) {
      ListingRuntimes(devices, prefix, s);
      assert forall r | r in prefix :: r in order;
    } else {
      var runtime := Last(order);
      var list := devices[runtime];
      assert s in RuntimeInfos(runtime, list);
      var i :| 0 <= i < |RuntimeInfos(runtime, list)| && RuntimeInfos(runtime, list)[i] == s;
      assert s.runtime == runtime;
    }
  }

  /** The records of `list_simulators` for the parsed listing `json`, whose
    * `devices` object yields its runtimes in the order `order`. */
  function ListingOf(json: Json, order: seq<string>): seq<SimulatorInfo>
    requires ObjectField(json, "devices").Some? ==> Enumerates(order, ObjectField(json, "devices").value.Keys)
  {
    match ObjectField(json, "devices")
    case None => []
    case Some(m) => Listing(m, order)
  }

  /** The inner loop of `list_simulators`: one record per device object. */
  method CollectRuntime(runtime: string, list: Json) returns (infos: seq<SimulatorInfo>)
    ensures infos == RuntimeInfos(runtime, list)
  {
    infos := [];
    if list.JArray? {
      for j := 0 to |list.items|
        invariant |infos| == j && forall k | 0 <= k < j :: infos[k] == SimulatorInfoOf(runtime, list.items[k])
      {
        infos := infos + [SimulatorInfoOf(runtime, list.items[j])];
      }
    }
  }

  /** `list_simulators`: a failing listing command or unparsable output
    * (`parsed` None) is an error; otherwise the nested loops over runtimes
    * and device objects collect one record per object. */
  method ListSimulators(out: CmdOutput, parsed: Option<Json>, order: seq<string>) returns (r: XResult<seq<SimulatorInfo>>)
    requires parsed.Some? && ObjectField(parsed.value, "devices").Some? ==>
               Enumerates(order, ObjectField(parsed.value, "devices").value.Keys)
    ensures !out.success ==> r == Err("Failed to list simulators: " + out.stderr)
    ensures out.success && parsed.None? ==> r.Err?
    ensures out.success && parsed.Some? ==> r == Ok(ListingOf(parsed.value, order))
  {
    if !out.success {
      return Err("Failed to list simulators: " + out.stderr);
    }
    if parsed.None? {
      return Err("invalid JSON in simulator listing");
    }
    var simulators := [];
    var devices := ObjectField(parsed.value, "devices");
    if devices.Some? {
      var m := devices.value;
      for i := 0 to |order|
        invariant simulators == Listing(m, order[..i])
      {
        assert order[..i + 1][..i] == order[..i];
        var infos := CollectRuntime(order[i], m[order[i]]);
        simulators := simulators + infos;
      }
      assert order[..|order|] == order;
    }
    r := Ok(simulators);
  }

  // ---------------------------------------------------------------------
  // Registries keyed by udid

  function SimulatorUdid(s: SimulatorInfo): string { s.udid }

  function DeviceUdid(d: PhysicalDevice): string { d.udid }

  /** A map filled by inserting every item under its key, in order. */
  function IndexBy<T>(items: seq<T>, key: T -> string): map<string, T>
  {
    if items == [] then map[]
    else IndexBy(items[..|items| - 1], key)[key(Last(items)) := Last(items)]
  }

  /** The map's keys are exactly the items' keys. */
  lemma {:induction false} IndexByKeys<T>(items: seq<T>, key: T -> string)
    ensures IndexBy(items, key).Keys == set i | 0 <= i < |items| :: key(items[i])
  {
    if items != [] {
      var prefix := items[..|items| - 1];
      IndexByKeys(prefix, key);
      assert forall i | 0 <= i < |prefix| :: prefix[i] == items[i];
    }
  }

  /** The loop that refills a registry: clear it, then insert every item
    * under its key. */
  method FillRegistry<T>(items: seq<T>, key: T -> string) returns (m: map<string, T>)
    ensures m == IndexBy(items, key)
  {
    m := map[];
    for i := 0 to |items|
      invariant m == IndexBy(items[..i], key)
    {
      assert items[..i + 1][..i] == items[..i];
      m := m[key(items[i]) := items[i]];
    }
    assert items[..|items|] == items;
  }

  /** The last item with a given key is the one the map keeps. */
  lemma {:induction false} IndexByLastWins<T>(items: seq<T>, key: T -> string, i: nat)
    requires i < |items|
    requires forall j | i < j < |items| :: key(items[j]) != key(items[i])
    ensures key(items[i]) in IndexBy(items, key) && IndexBy(items, key)[key(items[i])] == items[i]
    decreases |items|
  {
    if i < |items| - 1 {
      var prefix := items[..|items| - 1];
      assert prefix[i] == items[i];
      IndexByLastWins(prefix, key, i);
    }
  }

  // ---------------------------------------------------------------------
  // Physical devices

  const PlaceholderUdid := "example-udid"

  /** `parse_device_line`: a line of fewer than three whitespace tokens is
    * not a device; any other line gives the same placeholder record. */
  function DeviceOfLine(line: string): (r: Option<PhysicalDevice>)
    ensures r.None? <==> |SplitWhitespace(line)| < 3
    ensures r.Some? ==> r.value.udid == PlaceholderUdid
  {
    if |SplitWhitespace(line)| < 3 then None
    else Some(PhysicalDevice(PlaceholderUdid, "iPhone", "iPhone", "15.0", Usb))
  }

  /** The lines of a device listing that name a real device. */
  predicate DeviceLine(line: string)
  {
    Contains(line, "(") && Contains(line, ")") && !Contains(line, "Simulator")
  }

  function DeviceOutcome(line: string): Option<PhysicalDevice>
  {
    if DeviceLine(line) then DeviceOfLine(line) else None
  }

  function DeviceOutcomes(lines: seq<string>): (r: seq<Option<PhysicalDevice>>)
    ensures |r| == |lines| && forall i | 0 <= i < |lines| :: r[i] == DeviceOutcome(lines[i])
  {
    seq(|lines|, i requires 0 <= i < |lines| => DeviceOutcome(lines[i]))
  }

  /** The devices a listing's output shows. */
  function DevicesIn(stdout: string): seq<PhysicalDevice>
  {
    Somes(DeviceOutcomes(Lines(stdout)))
  }

  /** The loop shared by the xctrace and instruments listings. */
  method CollectDevices(stdout: string) returns (devices: seq<PhysicalDevice>)
    ensures devices == DevicesIn(stdout)
  {
    var lines := Lines(stdout);
    ghost var outcomes := DeviceOutcomes(lines);
    devices := [];
    for i := 0 to |lines|
      invariant devices == Somes(outcomes[..i])
    {
      SomesPrefix(outcomes, i);
      var d := DeviceOutcome(lines[i]);
      if d.Some? {
        devices := devices + [d.value];
      }
    }
    assert outcomes[..|lines|] == outcomes;
  }

  /** `detect_connected_devices`: `xctrace list devices`, falling back to
    * `instruments -s devices`; a failing fallback finds nothing. */
  method DetectConnectedDevices(xctrace: CmdOutput, instruments: CmdOutput) returns (devices: seq<PhysicalDevice>)
    ensures devices == (if xctrace.success then DevicesIn(xctrace.stdout)
                        else if instruments.success then DevicesIn(instruments.stdout)
                        else [])
  {
    if xctrace.success {
      devices := CollectDevices(xctrace.stdout);
    } else if instruments.success {
      devices := CollectDevices(instruments.stdout);
    } else {
      devices := [];
    }
  }

  /** Every detected device carries the placeholder udid, so the device
    * registry holds at most that one entry after a refresh. */
  lemma DeviceRegistryAtMostOne(devices: seq<PhysicalDevice>)
    requires forall d | d in devices :: d.udid == PlaceholderUdid
    ensures IndexBy(devices, DeviceUdid).Keys <= {PlaceholderUdid}
    ensures |IndexBy(devices, DeviceUdid)| <= 1
  {
    var m := IndexBy(devices, DeviceUdid);
    IndexByKeys(devices, DeviceUdid);
    assert forall i | 0 <= i < |devices| :: devices[i] in devices;
    if m.Keys == {} {
    } else {
      assert m.Keys == {PlaceholderUdid};
    }
  }

  lemma {:induction false} DevicesInArePlaceholders(stdout: string, d: PhysicalDevice)
    requires d in DevicesIn(stdout)
    ensures d.udid == PlaceholderUdid
  {
    var outcomes := DeviceOutcomes(Lines(stdout));
    SomesMembers(outcomes, d);
    var i :| 0 <= i < |outcomes| && outcomes[i] == Some(d);
  }

  // ---------------------------------------------------------------------
  // Build output

  predicate WarningLine(line: string) { Contains(line, "warning:") }

  predicate ErrorLine(line: string) { !Contains(line, "warning:") && Contains(line, "error:") }

  function Keep(line: string, keep: bool): Option<string>
  {
    if keep then Some(line) else None
  }

  /** The warning lines of a build log, in order. */
  function WarningsOf(lines: seq<string>): seq<string>
  {
    Somes(seq(|lines|, i requires 0 <= i < |lines| => Keep(lines[i], WarningLine(lines[i]))))
  }

  /** The error lines of a build log (those without a warning), in order. */
  function ErrorsOf(lines: seq<string>): seq<string>
  {
    Somes(seq(|lines|, i requires 0 <= i < |lines| => Keep(lines[i], ErrorLine(lines[i]))))
  }

  /** `parse_build_output`: each line is checked for "warning:" first, then
    * for "error:". */
  method ParseBuildOutput(output: string) returns (warnings: seq<string>, errors: seq<string>)
    ensures warnings == WarningsOf(Lines(output)) && errors == ErrorsOf(Lines(output))
  {
    var lines := Lines(output);
    ghost var ws := seq(|lines|, i requires 0 <= i < |lines| => Keep(lines[i], WarningLine(lines[i])));
    ghost var es := seq(|lines|, i requires 0 <= i < |lines| => Keep(lines[i], ErrorLine(lines[i])));
    warnings, errors := [], [];
    for i := 0 to |lines|
      invariant warnings == Somes(ws[..i]) && errors == Somes(es[..i])
    {
      SomesPrefix(ws, i);
      SomesPrefix(es, i);
      if Contains(lines[i], "warning:") {
        warnings := warnings + [lines[i]];
      } else if Contains(lines[i], "error:") {
        errors := errors + [lines[i]];
      }
    }
    assert ws[..|lines|] == ws && es[..|lines|] == es;
  }

  /** The two lists hold exactly the matching lines, and no line lands in
    * both. */
  lemma BuildOutputClassification(lines: seq<string>, line: string)
    ensures line in WarningsOf(lines) <==> line in lines && Contains(line, "warning:")
    ensures line in ErrorsOf(lines) <==> line in lines && !Contains(line, "warning:") && Contains(line, "error:")
    ensures !(line in WarningsOf(lines) && line in ErrorsOf(lines))
  {
    var ws := seq(|lines|, i requires 0 <= i < |lines| => Keep(lines[i], WarningLine(lines[i])));
    var es := seq(|lines|, i requires 0 <= i < |lines| => Keep(lines[i], ErrorLine(lines[i])));
    SomesMembers(ws, line);
    SomesMembers(es, line);
    if line in lines {
      var i :| 0 <= i < |lines| && lines[i] == line;
      assert ws[i] == Keep(line, WarningLine(line));
      assert es[i] == Keep(line, ErrorLine(line));
    }
  }

  datatype BuildResult = BuildResult(success: bool, warnings: seq<string>, errors: seq<string>)

  /** `build_and_run_project`: the build's own failure is reported in the
    * result, not as an error. */
  method BuildAndRunProject(out: CmdOutput) returns (r: XResult<BuildResult>)
    ensures r == Ok(BuildResult(out.success, WarningsOf(Lines(out.stdout)), ErrorsOf(Lines(out.stdout))))
  {
    var warnings, errors := ParseBuildOutput(out.stdout);
    r := Ok(BuildResult(out.success, warnings, errors));
  }

  /** `parse_test_results`: one (placeholder, passed) test case per line
    * mentioning "Test Case"; this counts them. */
  function PassedTestCount(lines: seq<string>): (n: nat)
    ensures n <= |lines|
    ensures n == 0 <== forall i | 0 <= i < |lines| :: !Contains(lines[i], "Test Case")
  {
    if lines == [] then 0
    else PassedTestCount(lines[..|lines| - 1]) + (if Contains(Last(lines), "Test Case") then 1 else 0)
  }

  // ---------------------------------------------------------------------
  // Booting

  const MaxBootPolls := 60

  /** A poll of `simctl list devices <udid>` that shows the simulator booted. */
  predicate ShowsBooted(out: CmdOutput)
  {
    out.success && Contains(out.stdout, "Booted")
  }

  /** Some poll among the first 60 shows the simulator booted. */
  predicate BootsWithinLimit(poll: nat -> CmdOutput)
  {
    exists a: nat | a < MaxBootPolls :: ShowsBooted(poll(a))
  }

  /** `wait_for_simulator_boot`: poll up to 60 times (`poll(a)` is attempt
    * `a`), succeeding at the first poll that shows "Booted". `polls` is how
    * many polls ran. */
  method WaitForSimulatorBoot(poll: nat -> CmdOutput) returns (r: XResult<()>, polls: nat)
    ensures r.Ok? <==> BootsWithinLimit(poll)
    ensures r.Ok? ==> 0 < polls <= MaxBootPolls && ShowsBooted(poll(polls - 1))
                      && forall a: nat | a < polls - 1 :: !ShowsBooted(poll(a))
    ensures r.Err? ==> r.error == "Timeout waiting for simulator to boot" && polls == MaxBootPolls
  {
    var attempts: nat := 0;
    while attempts < MaxBootPolls
      invariant attempts <= MaxBootPolls
      invariant forall a: nat | a < attempts :: !ShowsBooted(poll(a))
    {
      var output := poll(attempts);
      if output.success && Contains(output.stdout, "Booted") {
        return Ok(()), attempts + 1;
      }
      attempts := attempts + 1;
    }
    return Err("Timeout waiting for simulator to boot"), attempts;
  }

  /** What `boot_simulator` ran, in order. */
  datatype BootStep = RanBoot | WaitedForBoot | ConnectedBridge | AttachedEmulator

  /** The steps of a boot, in the order they run. */
  const BootSequence := [RanBoot, WaitedForBoot, ConnectedBridge, AttachedEmulator]

  /** The command outputs one boot (or one workflow step) sees. */
  datatype StepIo = StepIo(out: CmdOutput, poll: nat -> CmdOutput, probes: DeviceBridge.ConnectProbes)

  datatype WorkflowStep =
    | BootSimulator(udid: string)
    | BuildProject(projectPath: string, scheme: string, configuration: string)
    | RunTests(projectPath: string, scheme: string, destination: string)
    | InstallApp(udid: string, appPath: string)

  datatype StepResult = StepResult(stepName: string, success: bool, message: string)

  datatype WorkflowResult = WorkflowResult(name: string, success: bool, steps: seq<StepResult>)

  datatype SystemStatus = SystemStatus(
    xcodeInstalled: bool,
    xcodeVersion: Option<string>,
    simctlAvailable: bool,
    iosDeployAvailable: bool,
    activeSimulators: nat,
    connectedDevices: nat,
    testflightConfigured: bool)

  datatype DeviceInfo = SimulatorDevice(simulator: SimulatorInfo) | Physical(device: PhysicalDevice)

  datatype TestFlightCredentials = TestFlightCredentials(
    appStoreConnectKey: Option<string>,
    issuerId: Option<string>,
    keyId: Option<string>,
    privateKeyPath: Option<string>)

  class Xcode {
    var xcodePath: Option<string>
    var simctlPath: Option<string>
    var iosDeployPath: Option<string>
    var xcodeVersion: Option<string>
    var availableSimulators: map<string, SimulatorInfo>
    var activeSimulators: set<string>
    var connectedDevices: map<string, PhysicalDevice>
    var hardwareKeyboardEnabled: bool
    var testflight: TestFlightCredentials
    const bridge: DeviceBridge.Bridge
    const emulator: HardwareEmulator.Emulator

    predicate Valid()
      reads this, bridge, emulator
    {
      bridge.Valid() && emulator.Valid()
    }

    /** The integration with empty registries, before its first refresh;
      * `xcodeVersion` is the configured `XcodeConfig::xcode_version`. */
    constructor(xcodePath: Option<string>, simctlPath: Option<string>, iosDeployPath: Option<string>,
                xcodeVersion: Option<string>,
                bridge: DeviceBridge.Bridge, emulator: HardwareEmulator.Emulator)
      requires bridge.Valid() && emulator.Valid()
      ensures Valid()
      ensures this.xcodePath == xcodePath && this.simctlPath == simctlPath && this.iosDeployPath == iosDeployPath
      ensures this.xcodeVersion == xcodeVersion
      ensures this.bridge == bridge && this.emulator == emulator
      ensures availableSimulators == map[] && activeSimulators == {} && connectedDevices == map[]
      ensures !hardwareKeyboardEnabled && testflight == TestFlightCredentials(None, None, None, None)
    {
      this.xcodePath := xcodePath;
      this.simctlPath := simctlPath;
      this.iosDeployPath := iosDeployPath;
      this.xcodeVersion := xcodeVersion;
      availableSimulators := map[];
      activeSimulators := {};
      connectedDevices := map[];
      hardwareKeyboardEnabled := false;
      testflight := TestFlightCredentials(None, None, None, None);
      this.bridge := bridge;
      this.emulator := emulator;
    }

    /** `refresh_simulators`: on a failed listing the error is returned and
      * the registry kept; otherwise the registry is cleared and every record
      * inserted under its udid. */
    method RefreshSimulators(out: CmdOutput, parsed: Option<Json>, order: seq<string>) returns (r: XResult<()>)
      requires parsed.Some? && ObjectField(parsed.value, "devices").Some? ==>
                 Enumerates(order, ObjectField(parsed.value, "devices").value.Keys)
      modifies this`availableSimulators
      ensures r.Err? <==> !out.success || parsed.None?
      ensures r.Err? ==> availableSimulators == old(availableSimulators)
      ensures r.Ok? ==> availableSimulators == IndexBy(ListingOf(parsed.value, order), SimulatorUdid)
    {
      var listed := ListSimulators(out, parsed, order);
      if listed.Err? {
        return Err(listed.error);
      }
      availableSimulators := FillRegistry(listed.value, SimulatorUdid);
      r := Ok(());
    }

    /** `refresh_devices`: clear the device registry and insert every
      * detected device under its udid. */
    method RefreshDevices(xctrace: CmdOutput, instruments: CmdOutput) returns (r: XResult<()>)
      modifies this`connectedDevices
      ensures r.Ok?
      ensures connectedDevices == IndexBy(
                if xctrace.success then DevicesIn(xctrace.stdout)
                else if instruments.success then DevicesIn(instruments.stdout)
                else [], DeviceUdid)
      ensures |connectedDevices| <= 1
    {
      var devices := DetectConnectedDevices(xctrace, instruments);
      connectedDevices := FillRegistry(devices, DeviceUdid);
      forall d | d in devices
        ensures d.udid == PlaceholderUdid
      {
        if xctrace.success {
          DevicesInArePlaceholders(xctrace.stdout, d);
        } else {
          DevicesInArePlaceholders(instruments.stdout, d);
        }
      }
      DeviceRegistryAtMostOne(devices);
      r := Ok(());
    }

    /** The registry already records the simulator as booted. */
    predicate AlreadyBooted(udid: string)
      reads this`availableSimulators
    {
      udid in availableSimulators && availableSimulators[udid].state == Booted
    }

    /** The outcome of `boot_simulator`, step by step. */
    function BootOutcome(udid: string, io: StepIo): (r: XResult<()>)
      reads this`availableSimulators, bridge`adbPath, bridge`simctlPath
      ensures AlreadyBooted(udid) ==> r.Ok?
      ensures !AlreadyBooted(udid) ==>
                (r.Ok? <==> io.out.success && BootsWithinLimit(io.poll) && bridge.ConnectOutcome(udid, io.probes).Ok?)
      ensures !AlreadyBooted(udid) && !io.out.success ==>
                r == Err("Failed to boot simulator " + udid + ": " + io.out.stderr)
    {
      if AlreadyBooted(udid) then Ok(())
      else if !io.out.success then Err("Failed to boot simulator " + udid + ": " + io.out.stderr)
      else if !BootsWithinLimit(io.poll) then Err("Timeout waiting for simulator to boot")
      else bridge.ConnectOutcome(udid, io.probes)
    }

    /** `boot_simulator`: nothing runs for a simulator the registry already
      * records as booted. Otherwise: boot, wait for the boot, connect the
      * device bridge, attach the hardware emulator, stopping at the first
      * failure. `steps` lists what ran. */
    method BootSimulator(udid: string, io: StepIo) returns (r: XResult<()>, steps: seq<BootStep>)
      requires Valid()
      modifies bridge`connectedDevices, emulator
      ensures Valid()
      ensures r == BootOutcome(udid, io)
      ensures AlreadyBooted(udid) ==> steps == []
      ensures !AlreadyBooted(udid) ==>
                0 < |steps| <= |BootSequence| && steps == BootSequence[..|steps|]
                && (r.Ok? <==> steps == BootSequence)
      ensures |steps| < 3 ==> bridge.connectedDevices == old(bridge.connectedDevices)
      ensures r.Err? ==> emulator.connectedDevices == old(emulator.connectedDevices)
      ensures r.Ok? && !AlreadyBooted(udid) ==>
                udid in bridge.connectedDevices
                && emulator.connectedDevices == old(emulator.connectedDevices)[udid := HardwareEmulator.DefaultState(udid)]
      ensures AlreadyBooted(udid) ==>
                bridge.connectedDevices == old(bridge.connectedDevices)
                && emulator.connectedDevices == old(emulator.connectedDevices)
    {
      if AlreadyBooted(udid) {
        return Ok(()), [];
      }
      r, steps := BootSteps(udid, io);
    }

    /** The steps of `boot_simulator` for a simulator not yet booted: boot,
      * wait for the boot, connect the device bridge, attach the hardware
      * emulator, stopping at the first failure. */
    method BootSteps(udid: string, io: StepIo) returns (r: XResult<()>, steps: seq<BootStep>)
      requires Valid()
      modifies bridge`connectedDevices, emulator
      ensures Valid()
      ensures !io.out.success ==> r == Err("Failed to boot simulator " + udid + ": " + io.out.stderr)
      ensures io.out.success && !BootsWithinLimit(io.poll) ==> r == Err("Timeout waiting for simulator to boot")
      ensures io.out.success && BootsWithinLimit(io.poll) ==> r == bridge.ConnectOutcome(udid, io.probes)
      ensures 0 < |steps| <= |BootSequence| && steps == BootSequence[..|steps|]
      ensures r.Ok? <==> steps == BootSequence
      ensures |steps| < 3 ==> bridge.connectedDevices == old(bridge.connectedDevices)
      ensures r.Err? ==> emulator.connectedDevices == old(emulator.connectedDevices)
      ensures r.Ok? ==>
                udid in bridge.connectedDevices
                && emulator.connectedDevices == old(emulator.connectedDevices)[udid := HardwareEmulator.DefaultState(udid)]
    {
      if !io.out.success {
        return Err("Failed to boot simulator " + udid + ": " + io.out.stderr), BootSequence[..1];
      }
      var waited, _ := WaitForSimulatorBoot(io.poll);
      if waited.Err? {
        return Err(waited.error), BootSequence[..2];
      }
      var attached;
      r, attached := ConnectAndAttach(udid, io.probes);
      steps := if attached then BootSequence else BootSequence[..3];
    }

    /** The last two steps of a boot: connect the device bridge and, once
      * connected, attach the hardware emulator. */
    method ConnectAndAttach(udid: string, probes: DeviceBridge.ConnectProbes) returns (r: XResult<()>, attached: bool)
      requires Valid()
      modifies bridge`connectedDevices, emulator
      ensures Valid()
      ensures r == bridge.ConnectOutcome(udid, probes) && (attached <==> r.Ok?)
      ensures r.Err? ==>
                bridge.connectedDevices == old(bridge.connectedDevices)
                && emulator.connectedDevices == old(emulator.connectedDevices)
      ensures r.Ok? ==>
                udid in bridge.connectedDevices
                && emulator.connectedDevices == old(emulator.connectedDevices)[udid := HardwareEmulator.DefaultState(udid)]
    {
      r := bridge.Connect(udid, probes);
      if r.Err? {
        return r, false;
      }
      emulator.AttachToDevice(udid);
      attached := true;
    }

    /** `shutdown_simulator`: on success the simulator leaves the active set. */
    method ShutdownSimulator(udid: string, out: CmdOutput) returns (r: XResult<()>)
      modifies this`activeSimulators
      ensures r.Ok? <==> out.success
      ensures r.Err? ==> r.error == "Failed to shutdown simulator " + udid + ": " + out.stderr
                         && activeSimulators == old(activeSimulators)
      ensures r.Ok? ==> activeSimulators == old(activeSimulators) - {udid}
    {
      if !out.success {
        return Err("Failed to shutdown simulator " + udid + ": " + out.stderr);
      }
      activeSimulators := activeSimulators - {udid};
      r := Ok(());
    }

    /** `reset_simulator`: a simulator recorded as booted is shut down
      * first (its failure aborts the reset); then `simctl erase`. */
    method ResetSimulator(udid: string, shutdownOut: CmdOutput, eraseOut: CmdOutput) returns (r: XResult<()>)
      modifies this`activeSimulators
      ensures AlreadyBooted(udid) && !shutdownOut.success ==>
                r == Err("Failed to shutdown simulator " + udid + ": " + shutdownOut.stderr)
      ensures (!AlreadyBooted(udid) || shutdownOut.success) ==>
                (r.Ok? <==> eraseOut.success)
                && (r.Err? ==> r.error == "Failed to reset simulator " + udid + ": " + eraseOut.stderr)
      ensures activeSimulators == (if AlreadyBooted(udid) && shutdownOut.success
                                   then old(activeSimulators) - {udid} else old(activeSimulators))
    {
      if AlreadyBooted(udid) {
        var down := ShutdownSimulator(udid, shutdownOut);
        if down.Err? {
          return down;
        }
      }
      if !eraseOut.success {
        return Err("Failed to reset simulator " + udid + ": " + eraseOut.stderr);
      }
      r := Ok(());
    }

    /** `install_app_on_device` needs ios-deploy. */
    function InstallAppOnDevice(udid: string, out: CmdOutput): (r: XResult<()>)
      reads this`iosDeployPath
      ensures iosDeployPath.None? ==> r == Err("ios-deploy not found. Install with: brew install ios-deploy")
      ensures iosDeployPath.Some? ==> (r.Ok? <==> out.success)
      ensures iosDeployPath.Some? && r.Err? ==> r.error == "Failed to install app on device " + udid + ": " + out.stderr
    {
      if iosDeployPath.None? then Err("ios-deploy not found. Install with: brew install ios-deploy")
      else if !out.success then Err("Failed to install app on device " + udid + ": " + out.stderr)
      else Ok(())
    }

    /** `upload_to_testflight` needs the key id, the issuer id and the
      * private key path. */
    function UploadToTestflight(out: CmdOutput): (r: XResult<()>)
      reads this`testflight
      ensures testflight.keyId.None? || testflight.issuerId.None? || testflight.privateKeyPath.None? ==>
                r == Err("TestFlight credentials not configured")
      ensures r.Ok? <==> testflight.keyId.Some? && testflight.issuerId.Some? && testflight.privateKeyPath.Some? && out.success
    {
      if testflight.keyId.Some? && testflight.issuerId.Some? && testflight.privateKeyPath.Some? then
        if out.success then Ok(()) else Err("Failed to upload to TestFlight: " + out.stderr)
      else Err("TestFlight credentials not configured")
    }

    /** `toggle_hardware_keyboard`: the flag follows a successful command. */
    method ToggleHardwareKeyboard(enabled: bool, out: CmdOutput) returns (r: XResult<()>)
      modifies this`hardwareKeyboardEnabled
      ensures r.Ok? <==> out.success
      ensures hardwareKeyboardEnabled == (if out.success then enabled else old(hardwareKeyboardEnabled))
    {
      if !out.success {
        return Err("Failed to toggle hardware keyboard: " + out.stderr);
      }
      hardwareKeyboardEnabled := enabled;
      r := Ok(());
    }

    /** `get_system_status` */
    function GetSystemStatus(): (s: SystemStatus)
      reads this
      ensures s.xcodeInstalled <==> xcodePath.Some?
      ensures s.xcodeVersion == xcodeVersion
      ensures s.simctlAvailable <==> simctlPath.Some?
      ensures s.iosDeployAvailable <==> iosDeployPath.Some?
      ensures s.activeSimulators == |activeSimulators| && s.connectedDevices == |connectedDevices|
      ensures s.testflightConfigured <==> testflight.appStoreConnectKey.Some?
    {
      SystemStatus(xcodePath.Some?, xcodeVersion, simctlPath.Some?, iosDeployPath.Some?,
                   |activeSimulators|, |connectedDevices|, testflight.appStoreConnectKey.Some?)
    }

    /** `get_device_info`: the simulator registry is consulted first. */
    function GetDeviceInfo(udid: string): (r: XResult<DeviceInfo>)
      reads this`availableSimulators, this`connectedDevices
      ensures udid in availableSimulators ==> r == Ok(SimulatorDevice(availableSimulators[udid]))
      ensures udid !in availableSimulators && udid in connectedDevices ==> r == Ok(Physical(connectedDevices[udid]))
      ensures r.Err? <==> udid !in availableSimulators && udid !in connectedDevices
      ensures r.Err? ==> r.error == "Device not found: " + udid
    {
      if udid in availableSimulators then Ok(SimulatorDevice(availableSimulators[udid]))
      else if udid in connectedDevices then Ok(Physical(connectedDevices[udid]))
      else Err("Device not found: " + udid)
    }

    /** What one workflow step reports, or the error that aborts the
      * workflow. Booting and installing report success whenever they
      * return; builds and test runs report their command's success. */
    function StepOutcome(step: WorkflowStep, io: StepIo): (r: XResult<StepResult>)
      reads this`availableSimulators, bridge`adbPath, bridge`simctlPath
      ensures (step.BuildProject? || step.RunTests?) ==> r.Ok? && (r.value.success <==> io.out.success)
      ensures step.BootSimulator? ==> (r.Ok? <==> BootOutcome(step.udid, io).Ok?)
      ensures step.InstallApp? ==> (r.Ok? <==> io.out.success)
      ensures (step.BootSimulator? || step.InstallApp?) && r.Ok? ==> r.value.success
    {
      match step
      case BootSimulator(udid) =>
        var _ :- BootOutcome(udid, io);
        Ok(StepResult("BootSimulator", true, "Simulator " + udid + " booted successfully"))
      case BuildProject(_, _, _) =>
        var errors := ErrorsOf(Lines(io.out.stdout));
        Ok(StepResult("BuildProject", io.out.success,
                      if io.out.success then "Build completed successfully"
                      else "Build failed with " + NatToString(|errors|) + " errors"))
      case RunTests(_, _, _) =>
        Ok(StepResult("RunTests", io.out.success,
                      "Tests completed: " + NatToString(PassedTestCount(Lines(io.out.stdout))) + " passed"))
      case InstallApp(udid, _) =>
        if io.out.success then Ok(StepResult("InstallApp", true, "App installed on " + udid))
        else Err("Failed to install app on simulator " + udid + ": " + io.out.stderr)
    }

    /** `execute_workflow_step` */
    method ExecuteWorkflowStep(step: WorkflowStep, io: StepIo) returns (r: XResult<StepResult>)
      requires Valid()
      modifies bridge`connectedDevices, emulator
      ensures Valid()
      ensures r == StepOutcome(step, io)
    {
      match step
      case BootSimulator(udid) =>
        var booted, _ := BootSimulator(udid, io);
        if booted.Err? {
          return Err(booted.error);
        }
        r := Ok(StepResult("BootSimulator", true, "Simulator " + udid + " booted successfully"));
      case BuildProject(_, _, _) =>
        var build := BuildAndRunProject(io.out);
        var result := build.value;
        r := Ok(StepResult("BuildProject", result.success,
                           if result.success then "Build completed successfully"
                           else "Build failed with " + NatToString(|result.errors|) + " errors"));
      case RunTests(_, _, _) =>
        r := Ok(StepResult("RunTests", io.out.success,
                           "Tests completed: " + NatToString(PassedTestCount(Lines(io.out.stdout))) + " passed"));
      case InstallApp(udid, _) =>
        if !io.out.success {
          return Err("Failed to install app on simulator " + udid + ": " + io.out.stderr);
        }
        r := Ok(StepResult("InstallApp", true, "App installed on " + udid));
    }

    /** `execute_workflow`: the steps run in order (`io(i)` is what step `i`
      * sees) and the first error aborts the workflow; otherwise its success
      * is the conjunction of the steps' successes. */
    method ExecuteWorkflow(name: string, steps: seq<WorkflowStep>, io: nat -> StepIo) returns (r: XResult<WorkflowResult>)
      requires Valid()
      modifies bridge`connectedDevices, emulator
      ensures Valid()
      ensures r.Ok? <==> forall i | 0 <= i < |steps| :: StepOutcome(steps[i], io(i)).Ok?
      ensures r.Ok? ==>
                && r.value.name == name && |r.value.steps| == |steps|
                && (forall i | 0 <= i < |steps| :: r.value.steps[i] == StepOutcome(steps[i], io(i)).value)
                && (r.value.success <==> forall i | 0 <= i < |steps| :: r.value.steps[i].success)
      ensures r.Err? ==>
                exists i | 0 <= i < |steps| ::
                  && StepOutcome(steps[i], io(i)).Err? && r.error == StepOutcome(steps[i], io(i)).error
                  && forall j | 0 <= j < i :: StepOutcome(steps[j], io(j)).Ok?
    {
      var results: seq<StepResult> := [];
      for i := 0 to |steps|
        invariant Valid()
        invariant |results| == i
        invariant forall j | 0 <= j < i :: StepOutcome(steps[j], io(j)).Ok? && results[j] == StepOutcome(steps[j], io(j)).value
      {
        var result := ExecuteWorkflowStep(steps[i], io(i));
        if result.Err? {
          return Err(result.error);
        }
        results := results + [result.value];
      }
      var success := forall j | 0 <= j < |results| :: results[j].success;
      r := Ok(WorkflowResult(name, success, results));
    }
  }
}
