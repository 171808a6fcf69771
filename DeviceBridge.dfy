// The device bridge (src/device_bridge.rs): a registry of connected devices
// keyed by id, the rules that classify an id as an Android or iOS device, the
// capability records built from probe commands, and the operations gated on
// registry membership and capabilities.
//
// Every adb / xcrun command is an oracle: its outcome is a `CmdOutput`
// handed in by the caller.

module DeviceBridge {
  import opened Common

  datatype DeviceType = AndroidPhysical | AndroidEmulator | IosPhysical | IosSimulator
  {
    predicate IsAndroid() { this == AndroidPhysical || this == AndroidEmulator }
  }

  datatype ConnectionType = Usb | Wifi | Network | Simulator

  datatype DeviceCapabilities = DeviceCapabilities(
    screenCapture: bool,
    audioCapture: bool,
    hardwareInjection: bool,
    fileTransfer: bool,
    appControl: bool)

  datatype ConnectionStatus = Connected | Connecting | Disconnected | Error(reason: string)

  datatype DeviceConnection = DeviceConnection(
    deviceId: string,
    deviceType: DeviceType,
    connectionType: ConnectionType,
    capabilities: DeviceCapabilities,
    status: ConnectionStatus)

  datatype ScreenshotData = ScreenshotData(width: nat, height: nat, data: seq<byte>)

  /** The outcomes of the commands `connect` may run for one id. */
  datatype ConnectProbes = ConnectProbes(
    adbDevices: CmdOutput,        // adb devices
    simctlList: CmdOutput,        // xcrun simctl list devices --json
    adbGetState: CmdOutput,       // adb -s <id> get-state
    adbScreencap: CmdOutput,      // adb -s <id> exec-out screencap -p
    adbPackages: CmdOutput,       // adb -s <id> shell pm list packages
    simctlScreenshot: CmdOutput)  // xcrun simctl io <id> screenshot ...

  // ---------------------------------------------------------------------
  // Probe decisions of the two controllers

  /** `AdbController::is_device_available`: adb must be installed and
    * `adb devices` succeed; then the id is looked up in its output. */
  predicate AdbAvailable(adbPath: Option<string>, out: CmdOutput, id: string)
  {
    adbPath.Some? && out.success && Contains(out.stdout, id)
  }

  /** `IosController::is_device_available`: simctl must be installed and the
    * device listing succeed; then the id is looked up in its output. */
  predicate IosAvailable(simctlPath: Option<string>, out: CmdOutput, id: string)
  {
    simctlPath.Some? && out.success && Contains(out.stdout, id)
  }

  /** `AdbController::test_screen_capture` succeeds. */
  predicate AdbScreenCaptureWorks(adbPath: Option<string>, out: CmdOutput)
  {
    adbPath.Some? && out.success && out.stdout != []
  }

  /** `AdbController::test_app_control` succeeds. */
  predicate AdbAppControlWorks(adbPath: Option<string>, out: CmdOutput)
  {
    adbPath.Some? && out.success
  }

  /** `AdbController::connect_device`: without adb there is nothing to check. */
  function AdbConnect(adbPath: Option<string>, out: CmdOutput, id: string): (r: Result<(), string>)
    ensures r.Err? <==> adbPath.Some? && !out.success
    ensures r.Err? ==> r.error == "Failed to connect to Android device: " + id
  {
    if adbPath.Some? && !out.success then Err("Failed to connect to Android device: " + id) else Ok(())
  }

  // ---------------------------------------------------------------------
  // Classification

  /** The type an Android id gets: an emulator when it mentions "emulator". */
  function AndroidTypeOf(id: string): DeviceType
  {
    if Contains(id, "emulator") then AndroidEmulator else AndroidPhysical
  }

  /** The type an iOS id gets: a simulator when it is 36 bytes long (a UUID). */
  function IosTypeOf(id: string): DeviceType
  {
    if Utf8Length(id) == 36 then IosSimulator else IosPhysical
  }

  /** `detect_device_type`, given the two availability answers: Android is
    * asked first, iOS second, and an id neither knows is an error. */
  function DetectDeviceType(id: string, adbAvailable: bool, iosAvailable: bool): (r: Result<DeviceType, string>)
    ensures r.Ok? <==> adbAvailable || iosAvailable
    ensures adbAvailable ==> r.Ok? && r.value.IsAndroid()
                              && (r.value == AndroidEmulator <==> Contains(id, "emulator"))
    ensures !adbAvailable && iosAvailable ==>
              r.Ok? && !r.value.IsAndroid() && (r.value == IosSimulator <==> Utf8Length(id) == 36)
    ensures r.Err? ==> r.error == "Unknown device type for: " + id
  {
    if adbAvailable then Ok(AndroidTypeOf(id))
    else if iosAvailable then Ok(IosTypeOf(id))
    else Err("Unknown device type for: " + id)
  }

  // ---------------------------------------------------------------------
  // Capability records

  /** The record `test_android_capabilities` builds. */
  function AndroidCapabilities(adbPath: Option<string>, screencap: CmdOutput, packages: CmdOutput): (c: DeviceCapabilities)
    ensures c.screenCapture <==> AdbScreenCaptureWorks(adbPath, screencap)
    ensures c.appControl <==> AdbAppControlWorks(adbPath, packages)
    ensures c.fileTransfer && c.hardwareInjection && !c.audioCapture
  {
    DeviceCapabilities(
      screenCapture := AdbScreenCaptureWorks(adbPath, screencap),
      audioCapture := false,
      hardwareInjection := true,
      fileTransfer := true,
      appControl := AdbAppControlWorks(adbPath, packages))
  }

  /** The record `test_ios_capabilities` builds. */
  function IosCapabilities(screenshot: CmdOutput): (c: DeviceCapabilities)
    ensures c.screenCapture <==> screenshot.success
    ensures c.appControl && c.hardwareInjection
    ensures !c.fileTransfer && !c.audioCapture
  {
    DeviceCapabilities(
      screenCapture := screenshot.success,
      audioCapture := false,
      hardwareInjection := true,
      fileTransfer := false,
      appControl := true)
  }

  const NoCapabilities := DeviceCapabilities(false, false, false, false, false)

  /** `test_android_capabilities`: start from nothing and turn on one flag per
    * probe that succeeds (file transfer always does), then hardware injection. */
  method TestAndroidCapabilities(adbPath: Option<string>, screencap: CmdOutput, packages: CmdOutput)
    returns (caps: DeviceCapabilities)
    ensures caps == AndroidCapabilities(adbPath, screencap, packages)
  {
    caps := NoCapabilities;
    if AdbScreenCaptureWorks(adbPath, screencap) {
      caps := caps.(screenCapture := true);
    }
    if AdbAppControlWorks(adbPath, packages) {
      caps := caps.(appControl := true);
    }
    caps := caps.(fileTransfer := true);
    caps := caps.(hardwareInjection := true);
  }

  /** `test_ios_capabilities`: the screenshot probe decides screen capture;
    * app control and hardware injection are always on. */
  method TestIosCapabilities(screenshot: CmdOutput) returns (caps: DeviceCapabilities)
    ensures caps == IosCapabilities(screenshot)
  {
    caps := NoCapabilities;
    if screenshot.success {
      caps := caps.(screenCapture := true);
    }
    caps := caps.(appControl := true);
    caps := caps.(hardwareInjection := true);
  }

  /** What the registry holds for `id`: the record `connect` creates. */
  predicate WellFormed(id: string, c: DeviceConnection)
  {
    && c.deviceId == id
    && c.status == Connected
    && c.capabilities.hardwareInjection
    && (c.deviceType.IsAndroid() ==> c.deviceType == AndroidTypeOf(id) && c.connectionType == Usb)
    && (!c.deviceType.IsAndroid() ==> c.deviceType == IosTypeOf(id) && c.connectionType == Simulator)
  }

  /** `AdbController::send_tap` / `IosController::send_tap` for one device. */
  function SendTap(adbPath: Option<string>, t: DeviceType, out: CmdOutput): (r: Result<(), string>)
    ensures t.IsAndroid() ==> (r.Err? <==> adbPath.Some? && !out.success)
    ensures !t.IsAndroid() ==> (r.Err? <==> !out.success)
    ensures r.Err? ==> r.error == (if t.IsAndroid() then "Failed to send tap command"
                                   else "Failed to send tap command to iOS device")
  {
    if t.IsAndroid() then
      if adbPath.Some? && !out.success then Err("Failed to send tap command") else Ok(())
    else if !out.success then Err("Failed to send tap command to iOS device")
    else Ok(())
  }

  class Bridge {
    var connectedDevices: map<string, DeviceConnection>
    var adbPath: Option<string>
    var simctlPath: Option<string>
    var currentFrame: Option<seq<byte>>
    var captureActive: bool

    /** Every entry is the record `connect` made for its key, and no operation
      * of the bridge ever stores a captured frame. */
    predicate Valid()
      reads this
    {
      (forall id | id in connectedDevices :: WellFormed(id, connectedDevices[id]))
      && currentFrame.None?
    }

    /** `DeviceBridge::new`, given where adb and simctl were found. */
    constructor(adbPath: Option<string>, simctlPath: Option<string>)
      ensures Valid()
      ensures connectedDevices == map[] && !captureActive
      ensures this.adbPath == adbPath && this.simctlPath == simctlPath
    {
      connectedDevices := map[];
      this.adbPath := adbPath;
      this.simctlPath := simctlPath;
      currentFrame := None;
      captureActive := false;
    }

    /** The type `connect` detects for `id` from the availability probes. */
    function Detected(id: string, p: ConnectProbes): Result<DeviceType, string>
      reads this`adbPath, this`simctlPath
    {
      DetectDeviceType(id, AdbAvailable(adbPath, p.adbDevices, id), IosAvailable(simctlPath, p.simctlList, id))
    }

    /** Whether `connect` succeeds, and its error: detection, then the adb
      * connection on Android; iOS needs no connection step. */
    function ConnectOutcome(id: string, p: ConnectProbes): (r: Result<(), string>)
      reads this`adbPath, this`simctlPath
      ensures r.Err? <==> (Detected(id, p).Err?
                          || (Detected(id, p).value.IsAndroid() && AdbConnect(adbPath, p.adbGetState, id).Err?))
      ensures r.Err? && Detected(id, p).Err? ==> r.error == Detected(id, p).error
    {
      var t :- Detected(id, p);
      if t.IsAndroid() then AdbConnect(adbPath, p.adbGetState, id) else Ok(())
    }

    /** `connect`: detect the type, connect on that platform, probe the
      * capabilities and insert the record, replacing any earlier one for the
      * id. Any failure leaves the registry as it was. */
    method Connect(id: string, p: ConnectProbes) returns (r: Result<(), string>)
      requires Valid()
      modifies this`connectedDevices
      ensures Valid()
      ensures r == ConnectOutcome(id, p)
      ensures r.Err? ==> connectedDevices == old(connectedDevices)
      ensures r.Ok? ==> id in connectedDevices && connectedDevices == old(connectedDevices)[id := connectedDevices[id]]
      ensures r.Ok? ==>
                var c := connectedDevices[id];
                && c.deviceType == Detected(id, p).value
                && c.capabilities == (if c.deviceType.IsAndroid()
                                      then AndroidCapabilities(adbPath, p.adbScreencap, p.adbPackages)
                                      else IosCapabilities(p.simctlScreenshot))
    {
      var t :- DetectDeviceType(id, AdbAvailable(adbPath, p.adbDevices, id), IosAvailable(simctlPath, p.simctlList, id));
      var connection;
      if t.IsAndroid() {
        var _ :- AdbConnect(adbPath, p.adbGetState, id);
        var caps := TestAndroidCapabilities(adbPath, p.adbScreencap, p.adbPackages);
        connection := DeviceConnection(id, AndroidTypeOf(id), Usb, caps, Connected);
      } else {
        var caps := TestIosCapabilities(p.simctlScreenshot);
        connection := DeviceConnection(id, IosTypeOf(id), Simulator, caps, Connected);
      }
      connectedDevices := connectedDevices[id := connection];
      r := Ok(());
    }

    /** `start_screen_capture` marks capture as active (the polling loop it
      * then spawns does nothing observable). */
    method StartScreenCapture()
      modifies this`captureActive
      ensures captureActive
    {
      captureActive := true;
    }

    /** `take_screenshot`: the held frame at 1080x1920, or an error. */
    function TakeScreenshot(): (r: Result<ScreenshotData, string>)
      reads this
      ensures r.Ok? <==> currentFrame.Some?
      ensures r.Ok? ==> r.value.data == currentFrame.value && r.value.width == 1080 && r.value.height == 1920
      ensures r.Err? ==> r.error == "No screen capture available"
      ensures Valid() ==> r.Err?
    {
      match currentFrame
      case Some(frame) => Ok(ScreenshotData(1080, 1920, frame))
      case None => Err("No screen capture available")
    }

    /** `inject_sensor_data`: an unknown id is silently accepted; a registered
      * device without hardware injection is refused; the injector itself
      * always succeeds. Since every record has hardware injection, a valid
      * bridge never refuses. */
    function InjectSensorData(id: string, sensorType: string): (r: Result<(), string>)
      reads this
      ensures r.Err? <==> id in connectedDevices && !connectedDevices[id].capabilities.hardwareInjection
      ensures r.Err? ==> r.error == "Hardware injection not supported on this device"
      ensures Valid() ==> r.Ok?
    {
      if id in connectedDevices && !connectedDevices[id].capabilities.hardwareInjection then
        Err("Hardware injection not supported on this device")
      else Ok(())
    }

    /** `capture_audio`: only a registered device can be asked; both
      * controllers return no samples. */
    function CaptureAudio(id: string): (r: Result<seq<real>, string>)
      reads this
      ensures r.Ok? <==> id in connectedDevices
      ensures r.Ok? ==> r.value == []
      ensures r.Err? ==> r.error == "Device not connected: " + id
    {
      if id in connectedDevices then Ok([]) else Err("Device not connected: " + id)
    }

    /** Whether the tap command for one registered device succeeds. */
    function TapOutcome(id: string, outputs: map<string, CmdOutput>): Result<(), string>
      reads this
      requires id in connectedDevices && id in outputs
    {
      SendTap(adbPath, connectedDevices[id].deviceType, outputs[id])
    }

    /** `tap`: send the tap to every registered device in the map's iteration
      * order `order`, stopping at the first failure. `outputs[id]` is the
      * outcome of the tap command for `id`; `tried` lists the devices a tap
      * was attempted on. Whatever the order, the tap succeeds exactly when it
      * succeeds on every device. */
    method Tap(x: int, y: int, order: seq<string>, outputs: map<string, CmdOutput>)
      returns (r: Result<(), string>, tried: seq<string>)
      requires Enumerates(order, connectedDevices.Keys)
      requires connectedDevices.Keys <= outputs.Keys
      ensures tried <= order
      ensures r.Ok? <==> forall id | id in connectedDevices :: TapOutcome(id, outputs).Ok?
      ensures r.Ok? ==> tried == order
      ensures r.Err? ==> tried != [] && TapOutcome(Last(tried), outputs) == r
      ensures forall i | 0 <= i < |tried| - 1 :: TapOutcome(tried[i], outputs).Ok?
    {
      var i := 0;
      while i < |order|
        invariant 0 <= i <= |order|
        invariant forall j | 0 <= j < i :: TapOutcome(order[j], outputs).Ok?
      {
        var id := order[i];
        var res := SendTap(adbPath, connectedDevices[id].deviceType, outputs[id]);
        if res.Err? {
          return res, order[..i + 1];
        }
        i := i + 1;
      }
      return Ok(()), order;
    }
  }
}
