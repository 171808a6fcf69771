// The Android side of the desktop application
// (kmobile-desktop/src/android_studio_integration.rs): the registry of active
// emulators, the adb-backed device operations and their "ADB not found"
// guard, Gradle build results, and the system status report. Every external
// command is an oracle: its `CmdOutput` is a parameter.

module AndroidStudio {
  import opened Common

  /** `anyhow::Result`: errors are messages. */
  type XResult<T> = Result<T, string>

  datatype EmulatorStatus = Booting | Running | Stopped | Error(reason: string)

  datatype EmulatorInstance = EmulatorInstance(
    avdName: string,
    port: nat,
    apiLevel: int,
    target: string,
    status: EmulatorStatus,
    pid: Option<nat>)

  datatype DeviceStatus = Online | Offline | Unauthorized | Bootloader | Recovery | NoPermissions

  datatype AndroidDevice = AndroidDevice(id: string, model: string, version: string, status: DeviceStatus)

  datatype AvdInfo = AvdInfo(name: string, target: string)

  /** An argument of an adb command line: text, or a number printed as it is. */
  datatype Arg = Text(text: string) | Number(value: real)

  datatype BuildResult = BuildResult(
    success: bool,
    variant: string,
    output: string,
    errors: string,
    artifacts: seq<string>)

  datatype SystemStatus = SystemStatus(
    androidStudioInstalled: bool,
    adbAvailable: bool,
    emulatorAvailable: bool,
    gradleAvailable: bool,
    connectedDevices: nat,
    activeEmulators: nat,
    sdkConfigured: bool)

  /** The serial `wait_for_emulator_boot` reports for every boot. */
  const BootedSerial := "emulator-5554"

  /** The record `start_emulator` keeps for a launched AVD. */
  function LaunchedInstance(avdName: string, pid: Option<nat>): (e: EmulatorInstance)
    ensures e.avdName == avdName && e.status == Running && e.pid == pid
  {
    EmulatorInstance(avdName, 5554, 30, "Android 11", Running, pid)
  }

  const AdbMissing := "ADB not found"

  /** The shape every single-command adb operation shares: no adb is
    * "ADB not found"; a failing command reports its stderr after `failure`. */
  function AdbOperation(adbPath: Option<string>, out: CmdOutput, failure: string): (r: XResult<()>)
    ensures adbPath.None? ==> r == Err(AdbMissing)
    ensures adbPath.Some? ==> (r.Ok? <==> out.success)
    ensures adbPath.Some? && r.Err? ==> r.error == failure + out.stderr
  {
    if adbPath.None? then Err(AdbMissing)
    else if !out.success then Err(failure + out.stderr)
    else Ok(())
  }

  /** The arguments of the location command: longitude before latitude, as
    * `emu geo fix` expects. */
  function GeoFixArguments(deviceId: string, latitude: real, longitude: real): (args: seq<Arg>)
    ensures |args| == 7 && args[..5] == [Text("-s"), Text(deviceId), Text("emu"), Text("geo"), Text("fix")]
    ensures args[5] == Number(longitude) && args[6] == Number(latitude)
  {
    [Text("-s"), Text(deviceId), Text("emu"), Text("geo"), Text("fix"), Number(longitude), Number(latitude)]
  }

  /** The Gradle task a variant builds. */
  function GradleTask(variant: string): (task: string)
    ensures StartsWith(task, "assemble") && task[8..] == variant
  {
    "assemble" + variant
  }

  /** `build_project`: run `gradlew assemble<variant>`; a failed build is a
    * result, not an error. A successful build lists the variant's output
    * directory as its one artifact. */
  function BuildProject(projectPath: string, variant: string, out: CmdOutput): (r: XResult<BuildResult>)
    ensures r.Ok? && r.value.success == out.success && r.value.variant == variant
    ensures r.value.output == out.stdout && r.value.errors == out.stderr
    ensures r.value.artifacts != [] <==> out.success
    ensures out.success ==> |r.value.artifacts| == 1 && EndsWith(r.value.artifacts[0], ToLower(variant))
  {
    Ok(BuildResult(out.success, variant, out.stdout, out.stderr,
                   if out.success then [JoinPath(JoinPath(projectPath, "app/build/outputs/apk"), ToLower(variant))]
                   else []))
  }

  class Studio {
    var adbPath: Option<string>
    var avdmanagerPath: Option<string>
    var emulatorPath: Option<string>
    var gradlePath: Option<string>
    var sdkPath: Option<string>
    var connectedDevices: map<string, AndroidDevice>
    var activeEmulators: map<string, EmulatorInstance>

    /** The integration with the tools found, before its first refresh. */
    constructor(adbPath: Option<string>, avdmanagerPath: Option<string>, emulatorPath: Option<string>, gradlePath: Option<string>)
      ensures this.adbPath == adbPath && this.avdmanagerPath == avdmanagerPath
      ensures this.emulatorPath == emulatorPath && this.gradlePath == gradlePath
      ensures sdkPath.None? && connectedDevices == map[] && activeEmulators == map[]
    {
      this.adbPath := adbPath;
      this.avdmanagerPath := avdmanagerPath;
      this.emulatorPath := emulatorPath;
      this.gradlePath := gradlePath;
      sdkPath := None;
      connectedDevices := map[];
      activeEmulators := map[];
    }

    /** `get_system_status`; the Android Studio check always answers yes. */
    function GetSystemStatus(): (s: SystemStatus)
      reads this
      ensures s.androidStudioInstalled
      ensures s.adbAvailable <==> adbPath.Some?
      ensures s.emulatorAvailable <==> emulatorPath.Some?
      ensures s.gradleAvailable <==> gradlePath.Some?
      ensures s.connectedDevices == |connectedDevices| && s.activeEmulators == |activeEmulators|
      ensures s.sdkConfigured <==> sdkPath.Some?
    {
      SystemStatus(true, adbPath.Some?, emulatorPath.Some?, gradlePath.Some?,
                   |connectedDevices|, |activeEmulators|, sdkPath.Some?)
    }

    /** `list_avds`: needs avdmanager; the listing's parser finds no AVDs. */
    function ListAvds(out: CmdOutput): (r: XResult<seq<AvdInfo>>)
      reads this`avdmanagerPath
      ensures avdmanagerPath.None? ==> r == Err("AVD Manager not found")
      ensures avdmanagerPath.Some? ==> (r.Ok? <==> out.success)
      ensures avdmanagerPath.Some? && !out.success ==> r == Err("Failed to list AVDs: " + out.stderr)
      ensures r.Ok? ==> r.value == []
    {
      if avdmanagerPath.None? then Err("AVD Manager not found")
      else if !out.success then Err("Failed to list AVDs: " + out.stderr)
      else Ok([])
    }

    /** `start_emulator`: launch the AVD (`pid` is the launched process's
      * id, if known), wait for the boot and record one running instance
      * under the serial the wait reports. */
    method StartEmulator(avdName: string, pid: Option<nat>) returns (r: XResult<string>)
      modifies this`activeEmulators
      ensures emulatorPath.None? ==> r == Err("Emulator executable not found") && activeEmulators == old(activeEmulators)
      ensures emulatorPath.Some? ==>
                r == Ok(BootedSerial)
                && activeEmulators == old(activeEmulators)[BootedSerial := LaunchedInstance(avdName, pid)]
    {
      if emulatorPath.None? {
        return Err("Emulator executable not found");
      }
      var deviceId := BootedSerial;
      activeEmulators := activeEmulators[deviceId := LaunchedInstance(avdName, pid)];
      r := Ok(deviceId);
    }

    /** `stop_emulator`: ask adb (when there is one) to kill the emulator,
      * ignoring the outcome, and drop the id from the registry in every
      * case. `killSent` tells whether the kill command ran. */
    method StopEmulator(deviceId: string) returns (r: XResult<()>, killSent: bool)
      modifies this`activeEmulators
      ensures r.Ok? && killSent == adbPath.Some?
      ensures activeEmulators == old(activeEmulators) - {deviceId}
    {
      killSent := adbPath.Some?;
      activeEmulators := activeEmulators - {deviceId};
      r := Ok(());
    }

    /** `install_apk` */
    function InstallApk(out: CmdOutput): (r: XResult<()>)
      reads this`adbPath
      ensures r == AdbOperation(adbPath, out, "Failed to install APK: ")
      ensures adbPath.None? ==> r == Err(AdbMissing)
    {
      if adbPath.None? then Err(AdbMissing)
      else if !out.success then Err("Failed to install APK: " + out.stderr)
      else Ok(())
    }

    /** `uninstall_package` */
    function UninstallPackage(out: CmdOutput): (r: XResult<()>)
      reads this`adbPath
      ensures r == AdbOperation(adbPath, out, "Failed to uninstall package: ")
      ensures adbPath.None? ==> r == Err(AdbMissing)
    {
      if adbPath.None? then Err(AdbMissing)
      else if !out.success then Err("Failed to uninstall package: " + out.stderr)
      else Ok(())
    }

    /** `simulate_location`: the adb arguments it runs and its outcome. */
    function SimulateLocation(deviceId: string, latitude: real, longitude: real, out: CmdOutput): (r: (seq<Arg>, XResult<()>))
      reads this`adbPath
      ensures r.0 == GeoFixArguments(deviceId, latitude, longitude)
      ensures r.1 == AdbOperation(adbPath, out, "Failed to set GPS location: ")
    {
      (GeoFixArguments(deviceId, latitude, longitude),
       if adbPath.None? then Err(AdbMissing)
       else if !out.success then Err("Failed to set GPS location: " + out.stderr)
       else Ok(()))
    }

    /** `set_battery_level` */
    function SetBatteryLevel(out: CmdOutput): (r: XResult<()>)
      reads this`adbPath
      ensures r == AdbOperation(adbPath, out, "Failed to set battery level: ")
    {
      if adbPath.None? then Err(AdbMissing)
      else if !out.success then Err("Failed to set battery level: " + out.stderr)
      else Ok(())
    }

    /** `take_screenshot`: capture on the device, then pull the file. */
    function TakeScreenshot(capture: CmdOutput, pull: CmdOutput): (r: XResult<()>)
      reads this`adbPath
      ensures adbPath.None? ==> r == Err(AdbMissing)
      ensures adbPath.Some? ==> (r.Ok? <==> capture.success && pull.success)
      ensures adbPath.Some? && !capture.success ==> r == Err("Failed to take screenshot: " + capture.stderr)
      ensures adbPath.Some? && capture.success && !pull.success ==> r == Err("Failed to pull screenshot: " + pull.stderr)
    {
      if adbPath.None? then Err(AdbMissing)
      else if !capture.success then Err("Failed to take screenshot: " + capture.stderr)
      else if !pull.success then Err("Failed to pull screenshot: " + pull.stderr)
      else Ok(())
    }

    /** `refresh_device_list`: only a successful `adb devices -l` replaces
      * the registry, and its parser yields no devices. */
    method RefreshDeviceList(out: CmdOutput) returns (r: XResult<()>)
      modifies this`connectedDevices
      ensures r.Ok?
      ensures connectedDevices == (if adbPath.Some? && out.success then map[] else old(connectedDevices))
    {
      if adbPath.Some? && out.success {
        connectedDevices := map[];
      }
      r := Ok(());
    }
  }
}
