# kmobile core, modelled in Dafny

kmobile drives Android and iOS devices, emulators and simulators on behalf of
an AI agent. It has a command-line tool, a Model Context Protocol server and
a desktop application. This project models the logic around the platform
tools:

- the device, simulator and emulator registries, refreshed by clear-and-insert from adb, simctl, instruments and xctrace output, with the Android-first lookup that routes connect, install, start, stop and reset;
- the device bridge, which classifies ids, derives capabilities from probe outcomes and gates operations on registry membership and capabilities;
- the hardware emulator, holding per-device sensor, audio, network and battery state;
- the test runner, which runs steps in order, stops at the first failure and summarises results;
- the MCP request router with its tool, resource and prompt tables and its argument checks;
- the Xcode and Android Studio integrations: boot polling, build-log classification, workflows, tool guards;
- the desktop application's agent-command pipeline and the agent API;
- the small parsers and validators of `utils.rs`, `error.rs` and `project.rs`.

Every external command (adb, xcrun, simctl, xcodebuild, emulator,
instruments, ios-deploy, gradle) is an oracle. It is modelled as a
`CmdOutput(success, stdout, stderr)` that the caller passes in. The same
goes for the file system (`Dir`), the clock, hashes, parsed JSON values
(`Json`) and what the desktop components answer. Everything computed from
those answers is modelled and given a contract.

One Dafny module per source file:

| module | source |
|---|---|
| `Common` | string, option and JSON helpers shared by the parsers |
| `Errors` | `src/error.rs` |
| `Utils` | `src/utils.rs` |
| `DeviceManager` | `src/device.rs` |
| `SimulatorManager` | `src/simulator.rs` |
| `Project` | `src/project.rs` |
| `Testing` | `src/testing.rs` |
| `Mcp` | `src/mcp.rs` |
| `DeviceBridge` | `src/device_bridge.rs` |
| `HardwareEmulator` | `kmobile-desktop/src/hardware_emulator.rs` |
| `Audio` | `kmobile-desktop/src/audio.rs` |
| `ComputerVision` | `kmobile-desktop/src/computer_vision.rs` |
| `AgentApi` | `kmobile-desktop/src/lib.rs` (`agent_api`) |
| `AndroidStudio` | `kmobile-desktop/src/android_studio_integration.rs` |
| `XcodeIntegration` | `kmobile-desktop/src/xcode_integration.rs` |
| `DesktopApp` | `src/desktop/app.rs` |

The model takes the form of the source:

- Objects whose methods update their fields are classes with `modifies` clauses: the managers, the bridge, the emulator, the analyzer, the audio processor, the router, the controllers and the integrations.
- Registries are `map` fields that the methods reassign.
- Loops are methods with invariants, each proved equal to a function of its inputs. Lemmas then state what the source promises about that function.
- Pure parsers and tables are functions.

`kmobile-desktop/src/device_bridge.rs` is not part of this model. The Xcode
integration's boot sequence connects through the `DeviceBridge.Bridge` of
`src/device_bridge.rs` in its place.

## Model

| member | source | states |
|---|---|---|
| Common.Field | src/simulator.rs:145-153 | a JSON field is found exactly when the value is an object holding that key, and what is found is the value under that key |
| Common.ToLower | src/utils.rs:195 | lower-casing keeps the length and maps each character by ASCII lower-casing |
| Common.IndexOf | src/device.rs:198-199 | the first occurrence of a substring: it occurs there and at no earlier index; none means it occurs nowhere |
| Common.FindChar | src/device.rs:152-157 | the first occurrence of a character: it is there and at no earlier index; none means it is absent |
| Common.Trim | src/utils.rs:219-222 | the trimmed text neither starts nor ends with whitespace |
| Common.TrimSlice | src/utils.rs:219-222 | the trimmed text is one contiguous slice of the input, and only whitespace lies before and after that slice |
| Common.SplitWhitespace | src/utils.rs:161 | every token is non-empty and free of whitespace |
| Common.SplitWhitespaceToken | src/utils.rs:161 | a non-empty text free of whitespace is a single token, itself |
| Common.SplitWhitespaceConcat | src/utils.rs:161 | tokens are taken in order: two texts meeting at whitespace split into the tokens of the first followed by those of the second |
| Common.SplitWhitespaceNonEmpty | src/utils.rs:161 | a line holding a non-whitespace character has a token, so `last()` finds one |
| Common.Lines | src/utils.rs:160 | the empty text, and only it, has no lines |
| Common.LinesDropsCarriageReturn | src/utils.rs:160 | a line ended by "\r\n" loses both characters, and the lines after it follow |
| Common.LinesKeepsUnterminatedLine | src/utils.rs:160 | a last line with no newline after it is kept whole, a final '\r' included, as `str::lines` keeps it |
| Common.LinesAsSplit | src/utils.rs:160 | for text without carriage returns the lines are the pieces between newlines, and a final newline starts no extra line |
| Common.Split | src/utils.rs:214 | splitting always yields at least one piece |
| Common.SplitPiecesFree | src/utils.rs:214 | no piece holds the separator |
| Common.SplitJoinsBack | src/utils.rs:214 | joining the pieces with the separator gives the input back |
| Common.ReplaceAllAbsent | src/utils.rs:168 | replacing a pattern that does not occur changes nothing |
| Common.ReplaceChar | src/utils.rs:281-289 | keeps the length and replaces exactly the occurrences of the one character |
| Common.Somes | src/device.rs:96-128 | the kept values of a filter_map, never more than the inputs |
| Common.SomesConcat | src/device.rs:96-128 | the kept values follow the input order: filtering a concatenation concatenates the filtered parts |
| Common.SomesSingle | src/device.rs:96-128 | one outcome contributes its value exactly when it has one |
| Common.SomesMembers | src/device.rs:96-128 | a value is kept if and only if some outcome produced it |
| Common.ParseI32 | src/utils.rs:219-222 | whatever parses lies in the i32 range |
| Common.ParseI32Literal | src/utils.rs:219-222 | an optional sign followed by one or more ASCII digits parses to its signed value when that lies in the i32 range, and fails otherwise |
| Common.ParseI32OnlyLiterals | src/utils.rs:219-222 | nothing but an optional sign followed by one or more ASCII digits parses |
| Common.NatToStringValue | src/utils.rs:234-239 | the decimal digits printed for n have the value n |
| Common.ParseIntToString | src/utils.rs:219-222 | parsing the decimal rendering of any i32 gives it back |
| Common.FileNameOf | src/project.rs:98-101 | the file name is the last normal component, and there is one exactly when the path has components and the last is not ".." |
| Common.NameExtension | src/project.rs:118-120 | an extension found is what follows the name's last dot; none means there is no dot after the first character |
| Common.LastDotExtension | src/project.rs:118-120 | scanning back from the end finds the extension after the last dot, or proves there is no usable dot |
| Common.JoinSplitsBack | src/desktop/app.rs:203 | joining separator-free pieces (the newline-free outputs) with the separator and splitting there gives them back |
| Errors.Display | src/error.rs:5-80 | an error's text is its kind's fixed prefix followed by the carried message, unchanged |
| Errors.IsRecoverable | src/error.rs:84-113 | exactly the configuration, project-not-found, project-init, test-file, file-system, serialization, authentication, permission, invalid-input and unknown kinds are not recoverable |
| Errors.KindOfCode | src/error.rs:115-146 | any kind read back from a code has that code |
| Errors.ErrorCodeRoundTrip | src/error.rs:115-146 | every kind's code reads back as that kind |
| Errors.CodeCandidateFound | src/error.rs:115-146 | each kind is the only candidate for its own code |
| Errors.ErrorCodeInjective | src/error.rs:115-146 | two kinds share a code if and only if they are the same kind |
| Errors.FromForeignKeepsMessage | src/error.rs:149-185 | converting an I/O, JSON, TOML, HTTP or boxed error keeps its message, and only the HTTP (network) conversion is recoverable |
| Errors.WithContext | src/error.rs:187-201 | an Ok passes through unchanged; an Err becomes a non-recoverable Unknown error whose message is the context, ": ", then the original message |
| Utils.ParseCoordinates | src/utils.rs:213-225 | succeeds exactly when there are two comma-separated parts that each read as an i32 after trimming; the values are in the i32 range; every failure is InvalidInput |
| Utils.CoordinatesRoundTrip | src/utils.rs:213-225 | rendering any i32 pair as "x,y" and parsing it gives back the same pair |
| Utils.CoordinatesAccepted | src/utils.rs:334-339 | "100,200" parses as (100, 200) and "0,0" as (0, 0) |
| Utils.CoordinatesRejected | src/utils.rs:334-339 | "invalid" and "100" are rejected |
| Utils.FormatClockRoundTrip | src/utils.rs:227-240 | reading any "{h}h {m}m {s}s" text back gives h*3600 + m*60 + s seconds |
| Utils.DurationParts | src/utils.rs:227-232 | the hours, minutes and seconds computed from a total add back up to the total |
| Utils.FormatDurationRoundTrip | src/utils.rs:227-240 | reading the formatted duration back gives the original number of seconds, in all three layouts |
| Utils.FormatDurationExamples | src/utils.rs:342-346 | 30 s, 90 s and 3661 s format as "30s", "1m 30s" and "1h 1m 1s" |
| Utils.SanitizeFilename | src/utils.rs:281-289 | keeps the length; each of / \ : * ? " < > \| becomes '_', every other character is kept, and no forbidden character remains |
| Utils.SanitizeIdempotent | src/utils.rs:281-289 | sanitising twice is the same as sanitising once |
| Utils.SanitizeReplacesSpecials | src/utils.rs:349-352 | "test:file<name>" becomes "test_file_name_" |
| Utils.SanitizeKeepsPlainName | src/utils.rs:349-352 | "normal_name.txt" is unchanged |
| Utils.FloorCharBoundary | src/utils.rs:291-297 | the largest character boundary at or below the index |
| Utils.Truncate | src/utils.rs:291-297 | a string within the limit is kept; a longer one becomes its prefix up to the last character boundary at or below limit-3 bytes, plus "..."; for limits of 3 or more the result fits the limit |
| Utils.TruncateAgreesWhenDefined | src/utils.rs:291-297 | wherever the byte slice as written does not panic, the corrected truncation gives the same string |
| Utils.TruncatePanicsInsideCharacter | src/utils.rs:291-297 | "ééé" with a limit of 4 makes the slice as written panic, while the corrected truncation gives "..." |
| Utils.TruncateExamples | src/utils.rs:355-358 | "short" with limit 10 is kept and "very long string" becomes "very lo..." |
| Utils.Extension | src/utils.rs:194 | an extension found for a path is the extension of its file name, the last normal component |
| Utils.FilterNormal | src/utils.rs:194 | the path components kept are non-empty, not ".", and come from the path |
| Utils.ValidateAppPath | src/utils.rs:186-202 | succeeds exactly when the file exists and has an apk/aab/app/ipa extension in any letter case; a missing file is a FileSystemError, a bad or absent extension InvalidInput |
| Utils.ValidateUpperCaseApk | src/utils.rs:194-196 | "app.APK" is accepted (the extension is compared in lower case) |
| Utils.ValidateHiddenFile | src/utils.rs:194-201 | ".apk" has no extension and is rejected with "App file has no extension" |
| Utils.RetryWithBackoff | src/utils.rs:299-330 | calls the operation until the first success and at most max_retries+1 times; the result is that call's value, or else the Unknown "Operation failed after N attempts: …" error with the last message; the sleeps start at the initial delay and double |
| Utils.VersionFromOutput | src/utils.rs:139-184 | "unknown" without output, and for a tool other than xcodebuild whose first line has no token; otherwise, for such a tool, the last whitespace token of the first line; for xcodebuild, the first line with every "Xcode " removed, then trimmed |
| Utils.XcodeVersionLine | src/utils.rs:166-172 | an xcodebuild first line "Xcode " followed by a trimmed version (holding no further "Xcode ") reports that version, whatever the later lines say |
| Utils.XcodeVersionExample | src/utils.rs:166-172 | the output "Xcode 15.0" followed by further lines reports "15.0" |
| DeviceManager.GetpropLine | src/device.rs:197-204 | a getprop line is kept exactly when it starts with '[' and holds "]: [" |
| DeviceManager.GetpropLineParts | src/device.rs:197-204 | a kept line's key is the text before the first "]: [" less only leading '['s, and its value the text after it less only trailing ']'s |
| DeviceManager.GetpropRoundTrip | src/device.rs:197-204 | a line printed as "[key]: [value]", from a key without brackets and a value not ending in ']', gives back that key and value |
| DeviceManager.PropsOfKeys | src/device.rs:196-206 | a property is present exactly when some getprop line defines it |
| DeviceManager.PropsOfLastWins | src/device.rs:196-206 | a present property holds the value of a line that defines it and that no later line redefines |
| DeviceManager.ParseGetprop | src/device.rs:196-206 | the loop builds the property map of the output's lines |
| DeviceManager.AndroidDevice | src/device.rs:113-124 | an Android record has the id and mapped status; it is named by ro.product.model, or else by the id; its version is ro.build.version.release or else "unknown" |
| DeviceManager.AndroidDeviceOf | src/device.rs:96-124 | a line describes a device exactly when it has at least two tokens; the device's id and state are the first two tokens, with that id's getprop properties |
| DeviceManager.ParseAndroidLine | src/device.rs:96-124 | one loop iteration produces the device the line describes |
| DeviceManager.AndroidOutcomes | src/device.rs:96-128 | one outcome per line after the header, each the line's device |
| DeviceManager.IosDeviceOf | src/device.rs:150-176 | a line is skipped exactly when it lacks one of "(", ")", "[", "]" or holds "Simulator", or a closing delimiter comes before its opening one; otherwise the device is the connected iOS device named by the trimmed text before the first '(', with the trimmed version between the first '(' and ')' and the trimmed udid between the first '[' and ']' |
| DeviceManager.IosLineRoundTrip | src/device.rs:150-176 | a line printed as "name (version) [udid]" from fields free of the delimiters and of "Simulator" parses back to that name, version and udid |
| DeviceManager.IosLineAgrees | src/device.rs:150-176 | wherever the parser as written does not panic, the corrected parser gives the same device |
| DeviceManager.IosLinePanicsOnReversedParentheses | src/device.rs:152-155 | the line "x) (" makes the slice as written panic, while the corrected parser skips it |
| DeviceManager.IosOutcomes | src/device.rs:149-176 | one outcome per instruments line, each the line's device |
| DeviceManager.ParseDeviceList | src/device.rs:96-128 | the loop yields exactly the Android device list of the output |
| DeviceManager.AndroidDevicesOnAndroid | src/device.rs:118 | every device adb reports is on the android platform |
| DeviceManager.Manager.constructor | src/device.rs:50-59 | the manager starts with the configured adb path and empty lists |
| DeviceManager.Manager.RefreshAndroidDevices | src/device.rs:77-132 | without adb the ConfigError, and on a failed `adb devices` the CommandError, with the old list kept; otherwise the list is replaced by the devices of the output |
| DeviceManager.Manager.RefreshIosDevices | src/device.rs:135-182 | always succeeds; a failed instruments keeps the old list, otherwise the list is replaced by the parsed devices |
| DeviceManager.Manager.RefreshDevices | src/device.rs:61-75 | always succeeds; each platform's list is refreshed exactly as its own refresh would, failures leaving it unchanged |
| DeviceManager.Manager.ListDevices | src/device.rs:212-217 | the Android devices followed by the iOS devices, nothing else |
| DeviceManager.Manager.RouteOf | src/device.rs:223-229 | a device listed on Android is handled there, otherwise one listed on iOS there, otherwise it is not found |
| DeviceManager.Manager.ConnectDevice | src/device.rs:219-254 | an unknown id is DeviceNotFound; an iOS device connects; an Android one connects exactly when adb is configured and get-state succeeds, with ConfigError or DeviceConnectionError otherwise |
| DeviceManager.Manager.InstallApp | src/device.rs:256-299 | an unknown id is DeviceNotFound; Android without adb is ConfigError; otherwise succeeds exactly when the install command does, else AppInstallError ending in its stderr |
| DeviceManager.Manager.DeployProject | src/device.rs:301-346 | an unknown id is DeviceNotFound; otherwise succeeds exactly when the deploy command does, in the given directory or "."; a failure is ProjectDeployError ending in its stderr |
| SimulatorManager.AvdOutcomes | src/simulator.rs:100-118 | one outcome per `-list-avds` line, each that line's record or nothing for a blank line |
| SimulatorManager.AvdStep | src/simulator.rs:100-118 | one more line appends its record exactly when it is non-blank |
| SimulatorManager.AndroidEmulatorShape | src/simulator.rs:100-118 | every listed emulator has its trimmed line as both id and name, platform "android" and version "unknown", and is Booted exactly when adb shows it running |
| SimulatorManager.FirstToken | src/simulator.rs:282-283 | a line mentioning "emulator" has a non-empty first token, so the serial's unwrap cannot fail |
| SimulatorManager.FirstRunningEmulator | src/simulator.rs:279-292 | a serial is found exactly when some line shows a running emulator, and it is the first token of the first such line |
| SimulatorManager.FindRunningEmulator | src/simulator.rs:279-292 | the scanning loop finds the first running emulator of a successful `adb devices`, and nothing after a failure |
| SimulatorManager.RuntimeVersionOf | src/simulator.rs:163 | the version shown for a runtime key is the rest of the key with every '-' turned into '.', and no '-' remains |
| SimulatorManager.SimulatorOf | src/simulator.rs:147-168 | a device object gives a simulator exactly when it has string udid, name and state; the record carries them, the mapped state, platform "ios" and the runtime's version |
| SimulatorManager.DeviceOutcomes | src/simulator.rs:146-171 | one outcome per device object of a runtime |
| SimulatorManager.ParseRuntime | src/simulator.rs:145-172 | the inner loop yields exactly the simulators of one runtime entry |
| SimulatorManager.Manager.constructor | src/simulator.rs:50-59 | the manager starts with the configured paths and empty lists |
| SimulatorManager.Manager.EmulatorBinary | src/simulator.rs:78-84 | the configured emulator path, else the SDK's emulator/emulator, else the "Emulator path not configured" ConfigError, which happens exactly when neither is configured |
| SimulatorManager.Manager.GetAndroidEmulatorStatus | src/simulator.rs:182-201 | without adb the ConfigError; otherwise Booted exactly when a line of a successful `adb devices` mentions the AVD and "device", else Shutdown |
| SimulatorManager.Manager.CollectEmulators | src/simulator.rs:100-118 | with adb, one record per non-blank line; without adb, no records, and an error exactly when some line is non-blank |
| SimulatorManager.Manager.CollectWithAdb | src/simulator.rs:100-118 | with adb configured the loop yields one record per non-blank line |
| SimulatorManager.Manager.CollectWithoutAdb | src/simulator.rs:100-118 | without adb the loop yields nothing and stops with the ConfigError at the first non-blank line |
| SimulatorManager.Manager.RefreshAndroidEmulators | src/simulator.rs:77-122 | without an emulator binary or when the listing fails, the error with the old list kept; otherwise the list is replaced by the listed AVDs, or left empty with the adb error when adb is missing |
| SimulatorManager.Manager.RefreshIosSimulators | src/simulator.rs:124-180 | always succeeds; a failed listing keeps the old list, otherwise it is replaced by the simulators of the parsed JSON in the map's runtime order |
| SimulatorManager.Manager.RefreshSimulators | src/simulator.rs:61-75 | always succeeds; each platform's list ends as its own refresh leaves it: the parsed emulators with adb, none without adb, the old list when the emulator binary or its listing fails, and the iOS list replaced only after a successful simctl |
| SimulatorManager.Manager.ListSimulators | src/simulator.rs:203-208 | the Android emulators followed by the iOS simulators |
| SimulatorManager.Manager.RouteOf | src/simulator.rs:210-220 | an id listed on Android is handled there, otherwise one listed on iOS there, otherwise it is not found |
| SimulatorManager.Manager.StartSimulator | src/simulator.rs:210-253 | an unknown id is SimulatorNotFound; an AVD starts exactly when there is an emulator binary; an iOS simulator starts exactly when the boot succeeds, else SimulatorStartError with its stderr |
| SimulatorManager.Manager.StopSimulator | src/simulator.rs:255-308 | an unknown id is SimulatorNotFound; on Android the first running emulator is killed, whichever AVD it runs, and the call succeeds when adb is configured; on iOS it succeeds exactly when the shutdown does |
| SimulatorManager.Manager.ResetSimulator | src/simulator.rs:310-356 | an unknown id is SimulatorNotFound; an AVD without an emulator binary gets that error; otherwise succeeds exactly when the wipe or erase does, else SimulatorResetError ending in its stderr |
| SimulatorManager.Manager.InstallApp | src/simulator.rs:358-416 | an unknown id is SimulatorNotFound; on Android the app goes to the first running emulator, and the call succeeds when none runs; on iOS it is installed on the id itself; a failed install is AppInstallError with the stderr |
| Project.FileName | src/project.rs:98-101 | a project is named after the last component of its path, or "unknown" when there is none |
| Project.PlatformNamesDistinct | src/project.rs:111-141 | the platform names are pairwise distinct |
| Project.IosMarker | src/project.rs:116-124 | an "ios" directory decides at once; only otherwise is the directory listed, and a failed listing is an error; else it holds exactly when some entry is an .xcodeproj or .xcworkspace |
| Project.ReactNativeUnreachable | src/project.rs:109-143 | as written, no directory is ever detected as React Native, and a React Native layout without Gradle is taken for iOS |
| Project.Detection | src/project.rs:109-143 | the corrected detection (third row under Findings): Gradle files mean Android; else a React Native layout means React Native; else the iOS test, then pubspec.yaml for Flutter, else unknown; it fails exactly when the listing the iOS test needs fails. The source as written tests the iOS markers before React Native (`Project.DetectionAsWritten`) |
| Project.DetectionCorrection | src/project.rs:109-143 | the corrected detection differs from the one as written exactly on React Native layouts without a Gradle build |
| Project.DetectProjectFromFiles | src/project.rs:96-145 | fails exactly when detection does; otherwise names the project after the directory and sets the detected platform with its build and test commands, in the corrected detection order |
| Project.FirstContaining | src/project.rs:82-86 | the first configured project whose path contains the current directory, none before it; none means no project contains it; containment is by whole components, and the empty path contains every directory |
| Project.FirstContainingEmptyPath | src/project.rs:82-86 | a project configured with the empty path, listed first, is taken whatever the current directory, /home/u/app included |
| Project.DetectCurrentProject | src/project.rs:78-94 | the first configured project containing the current directory; otherwise the project the files suggest, missing exactly when detection fails, in the corrected detection order |
| Project.SplitCommandAsWritten | src/project.rs:389-391 | when the split succeeds, the program and its arguments are the command's tokens |
| Project.EmptyBuildCommandPanics | src/project.rs:389-391 | an empty build command makes `next().unwrap()` panic as written |
| Project.BuildInvocation | src/project.rs:380-391 | no project and no build command are errors; otherwise it runs exactly when the command has a token, the program and its arguments being the command's tokens |
| Project.BuildInvocationAgrees | src/project.rs:389-391 | wherever the split as written does not panic, the corrected build runs the same command line |
| Project.CleanActionOf | src/project.rs:413-456 | exactly "android" runs ./gradlew, "ios" runs xcodebuild and "flutter" runs flutter; React Native removes node_modules, android/build and ios/build; other platforms do nothing |
| Project.TemplateOf | src/project.rs:153-159 | each of "android", "ios", "react-native" and "flutter" selects exactly its own generator; any other template, or none, selects the basic one |
| Project.Manager.constructor | src/project.rs:69-76 | the manager keeps the configured projects and the current project |
| Project.Manager.BuildProject | src/project.rs:380-405 | a missing project or command is reported; otherwise succeeds exactly when the build command does, else "Build failed: " with its stderr |
| Project.Manager.CleanProject | src/project.rs:407-459 | no project is ProjectNotFound; the platform's clean action is taken; it fails only when a clean tool runs and fails, with "Clean failed: " and its stderr |
| Project.Manager.GetProjectStatus | src/project.rs:461-476 | fails exactly when there is no project; otherwise reports its name, path and platform with the build status NotBuilt, the test status NotRun and no dependencies |
| Project.Manager.InitProject | src/project.rs:147-328 | selects the template's generator; fails exactly when the React Native or Flutter generator fails, with that template's ProjectInitError message |
| Project.NewManager | src/project.rs:69-76 | the manager's current project is the first configured project containing the directory, otherwise the detected one, missing exactly when detection fails, in the corrected detection order |
| Testing.DeviceAction | src/testing.rs:324-519 | a tap, swipe, type, launch, background or foreground command fails exactly when a device and adb are present and the command fails, and the error carries its stderr |
| Testing.AssertElementExists | src/testing.rs:391-413 | fails exactly when a successful window dump of the driven device lacks the target, with "Element not found: " and the target |
| Testing.TakeScreenshot | src/testing.rs:415-439 | fails exactly when a device and adb are present and the capture fails |
| Testing.StepRun | src/testing.rs:263-322 | steps missing their target or value, and waits, succeed doing nothing; a screenshot step records its path, or the timestamped default, exactly when the capture succeeds; without a device every step succeeds |
| Testing.RunFrom | src/testing.rs:211-261 | the result keeps the case name, is Passed or Failed, carries a message exactly when it failed, and keeps every screenshot taken so far |
| Testing.RunTestCase | src/testing.rs:211-261 | the loop over the steps produces the case's result |
| Testing.RunFromPasses | src/testing.rs:211-261 | a case passes exactly when every one of its steps succeeds |
| Testing.RunFromFailure | src/testing.rs:211-261 | a failed case carries the message of its first failing step |
| Testing.FailureScreenshotRecorded | src/testing.rs:226-235 | on a failing step the failure screenshot is recorded exactly when screenshots on failure are enabled and the capture succeeds |
| Testing.NoDeviceAlwaysPasses | src/testing.rs:263-322 | without a device, or without adb, every case passes |
| Testing.CountStatus | src/testing.rs:521-540 | a status count never exceeds the number of results |
| Testing.GenerateSummary | src/testing.rs:521-540 | the summary counts all results, and each status's number is how many results have it |
| Testing.SummaryPartitions | src/testing.rs:521-540 | the four status counts add up to the number of results |
| Testing.SuitePath | src/testing.rs:161-164 | the suite file is "<name>.json", or "default.json" without a name |
| Testing.DefaultSuite | src/testing.rs:171-202 | the default suite is named after the request, or "default", and holds one case with screenshots on failure |
| Testing.LoadTestSuite | src/testing.rs:160-209 | a missing file gives the default suite; an existing file gives its parsed suite exactly when it parses |
| Testing.RunTests | src/testing.rs:128-158 | succeeds exactly when the suite loads; the report has the suite's name and one result per case, in order, each that case's result, and a summary totalling the cases |
| Testing.RunCases | src/testing.rs:139-144 | the loop yields one result per case, in order, each that case's result |
| Testing.ReplayTest | src/testing.rs:588-613 | a missing file is TestFileNotFound; a parsed case replays without a device and passes |
| Mcp.Properties | src/mcp.rs:99-246 | a schema's properties are exactly the named ones |
| Mcp.Schema | src/mcp.rs:99-246 | a tool's input schema is an object with those properties; it has a "required" list exactly when some argument is required, listing them in order |
| Mcp.ToolRegistryShape | src/mcp.rs:99-246 | the ten tools are registered, each under its own name |
| Mcp.ToolCount | src/mcp.rs:99-246 | the ten tool names are distinct |
| Mcp.ResourceRegistryShape | src/mcp.rs:248-274 | the devices, simulators and project resources are registered, each under the last segment of its kmobile:// URI |
| Mcp.PromptRegistryShape | src/mcp.rs:276-320 | two prompts are registered, each under its own name |
| Mcp.Failure | src/mcp.rs:343-351 | a protocol error response carries the given code and no result |
| Mcp.Answer | src/mcp.rs:401-406 | a successful response carries exactly the given object and no error |
| Mcp.Done | src/mcp.rs:418-424 | an acting tool reports success true with its message |
| Mcp.Require | src/mcp.rs:410-412 | a required argument is read exactly when it is present as a string; otherwise the McpServerError with the handler's message |
| Mcp.Served | src/mcp.rs:398-399 | a manager's success passes through; its failure becomes an McpServerError with the same text |
| Mcp.ArgumentsOf | src/mcp.rs:370-372 | the call's arguments, or the empty object when there are none |
| Mcp.DeviceList | src/mcp.rs:396-407 | answers exactly when the device manager lists, with its devices under "devices" |
| Mcp.DeviceConnect | src/mcp.rs:409-425 | a missing device id is "Device ID not provided"; succeeds exactly when the id is present and the connection succeeds, reporting "Connected to device: " and the id |
| Mcp.DeviceInstall | src/mcp.rs:427-447 | the device id is demanded first, then the app path; succeeds exactly when both are present and the install succeeds |
| Mcp.SimulatorList | src/mcp.rs:449-460 | answers exactly when the simulator manager lists, with its simulators under "simulators" |
| Mcp.SimulatorStart | src/mcp.rs:462-478 | a missing simulator id is "Simulator ID not provided"; succeeds exactly when the id is present and the start succeeds |
| Mcp.SimulatorStop | src/mcp.rs:480-496 | a missing simulator id is "Simulator ID not provided"; succeeds exactly when the id is present and the stop succeeds |
| Mcp.ProjectBuild | src/mcp.rs:498-513 | the optional target is passed on; succeeds exactly when the build does, reporting "Project built successfully" |
| Mcp.ProjectStatus | src/mcp.rs:515-526 | answers exactly when the project manager reports a status, under "status" |
| Mcp.TestRun | src/mcp.rs:528-546 | the optional suite and device are passed on; succeeds exactly when the test run does |
| Mcp.TestRecord | src/mcp.rs:548-564 | a missing output path is "Output path not provided"; succeeds exactly when it is present and the recording succeeds |
| Mcp.ToolCall | src/mcp.rs:374-393 | each of the ten names reaches its handler; any other name, and only such a name, gets the "Unknown tool" answer; every failure is an McpServerError |
| Mcp.RequiredArgumentsEnforced | src/mcp.rs:99-246 | a call to a registered tool without an argument its schema requires fails |
| Mcp.DeviceArgumentsEnforced | src/mcp.rs:409-447 | the device tools fail without an argument their schemas require |
| Mcp.SimulatorArgumentsEnforced | src/mcp.rs:462-496 | the simulator tools fail without an argument their schemas require |
| Mcp.ProjectArgumentsEnforced | src/mcp.rs:498-564 | the project and test tools fail without an argument their schemas require |
| Mcp.RequiredArgumentsSuffice | src/mcp.rs:99-246 | with working managers, a registered tool given every required argument answers with a result: optional arguments are never demanded |
| Mcp.DeviceArgumentsSuffice | src/mcp.rs:396-447 | with working managers the device tools answer once their required arguments are present |
| Mcp.SimulatorArgumentsSuffice | src/mcp.rs:449-496 | with working managers the simulator tools answer once their required arguments are present |
| Mcp.ProjectArgumentsSuffice | src/mcp.rs:498-564 | with working managers the project and test tools answer once their required arguments are present |
| Mcp.Listed | src/mcp.rs:354-363 | a registry listing has one item per key, and every entry appears |
| Mcp.Server.constructor | src/mcp.rs:75-97 | a new server has all three registries filled |
| Mcp.Server.RegisterTools | src/mcp.rs:99-246 | the ten tools are added to the registry |
| Mcp.Server.RegisterResources | src/mcp.rs:248-274 | the three resources are added to the registry |
| Mcp.Server.RegisterPrompts | src/mcp.rs:276-320 | the two prompts are added to the registry |
| Mcp.Server.ToolsList | src/mcp.rs:354-363 | the answer lists every registered tool, one item per tool |
| Mcp.Server.ResourcesList | src/mcp.rs:566-575 | the answer lists every registered resource, one item per resource |
| Mcp.Server.PromptsList | src/mcp.rs:593-602 | the answer lists every registered prompt, one item per prompt |
| Mcp.Server.HandleToolCall | src/mcp.rs:365-394 | a call without a tool name is "Tool name not provided"; otherwise the named tool's dispatch with the call's arguments |
| Mcp.Server.HandleResourceRead | src/mcp.rs:577-591 | succeeds exactly when a URI is given, with empty contents; otherwise "Resource URI not provided" |
| Mcp.Server.HandlePromptGet | src/mcp.rs:604-627 | a missing name is "Prompt name not provided"; a registered prompt gives its description and no messages; any other name is the "Prompt not found" protocol error |
| Mcp.Server.HandleRequest | src/mcp.rs:333-352 | the six known methods go to their handlers; any other method gets "Method not found"; every answer is a result or an error, never both |
| Mcp.FreshServerAnswers | src/mcp.rs:75-97 | on a freshly built server "Unknown tool" comes exactly for names outside the registry, and every registered prompt is found |
| DeviceBridge.AdbConnect | src/device_bridge.rs:473-488 | without adb there is nothing to check; with adb the connection fails exactly when get-state fails, with "Failed to connect to Android device: " and the id |
| DeviceBridge.DetectDeviceType | src/device_bridge.rs:148-169 | known exactly when adb or iOS knows the id; adb is asked first and gives an emulator exactly when the id mentions "emulator"; iOS gives a simulator exactly for a 36-byte id; otherwise "Unknown device type for: " and the id |
| DeviceBridge.AndroidCapabilities | src/device_bridge.rs:219-262 | screen capture and app control exactly when their probes work; file transfer and hardware injection always; never audio capture |
| DeviceBridge.IosCapabilities | src/device_bridge.rs:264-296 | screen capture exactly when the screenshot probe succeeds; app control and hardware injection always; never file transfer or audio capture |
| DeviceBridge.TestAndroidCapabilities | src/device_bridge.rs:219-262 | the probing steps build exactly the Android capability record |
| DeviceBridge.TestIosCapabilities | src/device_bridge.rs:264-296 | the probing steps build exactly the iOS capability record |
| DeviceBridge.SendTap | src/device_bridge.rs:523-634 | an Android tap fails exactly when adb is present and the input command fails; an iOS tap exactly when its command fails; each with its own message |
| DeviceBridge.Bridge.constructor | src/device_bridge.rs:102-123 | a new bridge has no devices, no capture running, and the tool paths found |
| DeviceBridge.Bridge.ConnectOutcome | src/device_bridge.rs:125-146 | connecting fails exactly when detection fails, or on Android when the adb connection fails; a detection failure keeps its message |
| DeviceBridge.Bridge.Connect | src/device_bridge.rs:125-217 | the outcome is the connection outcome; a failure leaves the registry unchanged; a success adds or replaces only this id's record, with the detected type and that platform's capabilities |
| DeviceBridge.Bridge.StartScreenCapture | src/device_bridge.rs:298-307 | screen capture becomes active |
| DeviceBridge.Bridge.TakeScreenshot | src/device_bridge.rs:331-342 | the held frame at 1080x1920 exactly when there is one, else "No screen capture available"; a valid bridge never holds a frame |
| DeviceBridge.Bridge.InjectSensorData | src/device_bridge.rs:361-382 | refused exactly for a registered device without hardware injection; an unknown id is accepted; a valid bridge never refuses |
| DeviceBridge.Bridge.CaptureAudio | src/device_bridge.rs:394-410 | succeeds exactly for a registered device, with no samples; otherwise "Device not connected: " and the id |
| DeviceBridge.Bridge.Tap | src/device_bridge.rs:344-359 | taps the devices in the map's order and stops at the first failure, which is returned; whatever the order, succeeds exactly when the tap succeeds on every device |
| HardwareEmulator.DefaultSensors | kmobile-desktop/src/hardware_emulator.rs:154-246 | an attached device's sensor table has exactly the six named sensors, each enabled and in its default state |
| HardwareEmulator.DefaultSensorCount | kmobile-desktop/src/hardware_emulator.rs:154-246 | the default table holds six distinct sensors |
| HardwareEmulator.DefaultSensorsAsDocumented | kmobile-desktop/src/hardware_emulator.rs:154-246 | the update rates are 1, 50, 50, 10, 5 and 2 Hz; the accelerometer reads (0, 0, -9.8) and the GPS starts at 37.7749, -122.4194 |
| HardwareEmulator.InitializeSensors | kmobile-desktop/src/hardware_emulator.rs:154-246 | the six inserts build exactly the default sensor table |
| HardwareEmulator.DefaultState | kmobile-desktop/src/hardware_emulator.rs:135-142 | an attached device gets its id, the six sensors, the default audio routing and network conditions, 85% battery and a normal thermal state |
| HardwareEmulator.SimulatorFor | kmobile-desktop/src/hardware_emulator.rs:261-290 | a sensor name reaches a simulator exactly when it is one of the six sensors |
| HardwareEmulator.InjectableSensorsAreDefaultSensors | kmobile-desktop/src/hardware_emulator.rs:154-290 | the names injection accepts are exactly the sensors an attached device has |
| HardwareEmulator.PipelineFor | kmobile-desktop/src/hardware_emulator.rs:307-327 | TTS to speaker, microphone to STT and TTS to STT each select their own pipeline, and only those pairs do |
| HardwareEmulator.Emulator.constructor | kmobile-desktop/src/hardware_emulator.rs:112-130 | a new emulator has no attached devices |
| HardwareEmulator.Emulator.AttachToDevice | kmobile-desktop/src/hardware_emulator.rs:132-152 | the device's state is (re)set to the default state and no other device changes |
| HardwareEmulator.Emulator.SimulateSensorInput | kmobile-desktop/src/hardware_emulator.rs:248-293 | never fails, and dispatches to a simulator exactly for the six sensor names |
| HardwareEmulator.Emulator.StartAudioRouting | kmobile-desktop/src/hardware_emulator.rs:295-330 | an attached device's routing becomes the given one and nothing else changes; an unknown id is left alone; the matching pipeline is configured |
| HardwareEmulator.Emulator.SimulateNetworkConditions | kmobile-desktop/src/hardware_emulator.rs:332-351 | always succeeds; an attached device's conditions become the given ones and nothing else changes |
| HardwareEmulator.Emulator.GetDeviceState | kmobile-desktop/src/hardware_emulator.rs:397-399 | a state exactly for an attached id, keyed by that id and with the six sensors |
| Audio.Newest | kmobile-desktop/src/audio.rs:138-146 | the buffer after draining is the newest samples, as many as fit the limit |
| Audio.Transcribe | kmobile-desktop/src/audio.rs:370-388 | fewer than 8000 samples give "Audio too short"; 8000 or more give the placeholder transcription |
| Audio.Router.constructor | kmobile-desktop/src/audio.rs:392-398 | a new router routes nothing and has loopback off |
| Audio.Router.EnableLoopback | kmobile-desktop/src/audio.rs:400-404 | both directions and loopback are switched on |
| Audio.Router.DisableLoopback | kmobile-desktop/src/audio.rs:406-410 | both directions and loopback are switched off |
| Audio.SampleBuffer.constructor | kmobile-desktop/src/audio.rs:72-114 | a new buffer is empty |
| Audio.SampleBuffer.Append | kmobile-desktop/src/audio.rs:138-146 | the buffer becomes the newest samples of the old contents plus the delivery, all of them when they fit |
| Audio.SampleBuffer.Drain | kmobile-desktop/src/audio.rs:194-199 | everything buffered is taken and the buffer is left empty |
| Audio.Processor.constructor | kmobile-desktop/src/audio.rs:72-114 | a new processor is neither recording nor playing, has empty buffers, default voice settings and a router with loopback off |
| Audio.Processor.StartRecording | kmobile-desktop/src/audio.rs:116-162 | already recording is a no-op; without an input device, "No input device available"; otherwise it starts exactly when the default config is readable, in F32, and the stream builds and plays; a failure changes nothing |
| Audio.Processor.StopRecording | kmobile-desktop/src/audio.rs:164-179 | always succeeds and leaves no stream and no recording; when not recording nothing changes |
| Audio.Processor.DeliverInput | kmobile-desktop/src/audio.rs:138-146 | a stream delivery keeps the newest five seconds of samples |
| Audio.Processor.ListenAndTranscribe | kmobile-desktop/src/audio.rs:190-211 | takes all buffered samples, leaving the buffer empty; nothing buffered gives "No audio data captured", otherwise the transcription of what was taken |
| Audio.Processor.Speak | kmobile-desktop/src/audio.rs:317-356 | an uninitialised engine gives "TTS engine not initialized"; otherwise it succeeds exactly when the engine does, else "TTS failed: " and the engine's error |
| Audio.Processor.SetupAudioLoopback | kmobile-desktop/src/audio.rs:237-247 | always succeeds with both directions and loopback on |
| Audio.Processor.GetAudioStats | kmobile-desktop/src/audio.rs:273-284 | reports the recording and playing flags, both buffer sizes and device availability as they are |
| Audio.NewestBound | kmobile-desktop/src/audio.rs:138-146 | the buffer never exceeds five seconds unless nothing was drained; once full it holds exactly the newest five seconds, and a delivery longer than that replaces it all |
| ComputerVision.ElementAt | kmobile-desktop/src/computer_vision.rs:355-362 | the first element whose half-open box holds the point, with none before it; none means no box holds it |
| ComputerVision.Clickable | kmobile-desktop/src/computer_vision.rs:349-353 | every kept element is clickable and detected, and every clickable element is kept; order and multiplicity are fixed by the two lemmas below |
| ComputerVision.ClickableConcat | kmobile-desktop/src/computer_vision.rs:349-353 | filtering a concatenation is the concatenation of the filtered parts, so the detection order is kept |
| ComputerVision.ClickableSingle | kmobile-desktop/src/computer_vision.rs:349-353 | a single element is kept, once, exactly when it is clickable |
| ComputerVision.Mentioning | kmobile-desktop/src/computer_vision.rs:364-368 | every kept region mentions the query ignoring case and is one of the input regions, and every such region is kept; order and multiplicity are fixed by the two lemmas below |
| ComputerVision.MentioningConcat | kmobile-desktop/src/computer_vision.rs:364-368 | searching a concatenation is the concatenation of the searches of its parts, so the screen order is kept |
| ComputerVision.MentioningSingle | kmobile-desktop/src/computer_vision.rs:364-368 | a single region is kept, once, exactly when its lower-cased text contains the lower-cased query |
| ComputerVision.EmptyQueryKeepsAll | kmobile-desktop/src/computer_vision.rs:364-368 | the empty query keeps every region |
| ComputerVision.Recorded | kmobile-desktop/src/computer_vision.rs:295-312 | the new frame is appended and becomes the last; the oldest frame is dropped when that exceeds the limit, so a history within the limit stays within it |
| ComputerVision.RecordedSlides | kmobile-desktop/src/computer_vision.rs:295-312 | a full history drops its oldest frame as the new one comes in |
| ComputerVision.Analyzer.constructor | kmobile-desktop/src/computer_vision.rs:130-163 | a new analyzer has seen nothing and uses the default configuration |
| ComputerVision.Analyzer.DetectChanges | kmobile-desktop/src/computer_vision.rs:337-347 | every frame counts as a change |
| ComputerVision.Analyzer.StoreFrameInHistory | kmobile-desktop/src/computer_vision.rs:295-312 | the stamped, hashed frame is recorded and the history stays within its limit |
| ComputerVision.Analyzer.AnalyzeScreen | kmobile-desktop/src/computer_vision.rs:165-203 | keeps the image; each enabled detector replaces what it found before and feeds the result, a disabled one leaves both alone; no faces; the frame is recorded |
| ComputerVision.Analyzer.GetClickableElements | kmobile-desktop/src/computer_vision.rs:349-353 | the result is `Clickable` of the detected elements: the clickable ones, in detection order |
| ComputerVision.Analyzer.FindElementAtPosition | kmobile-desktop/src/computer_vision.rs:355-362 | an element exactly when some detected box holds the point, and then the first such element |
| ComputerVision.Analyzer.SearchText | kmobile-desktop/src/computer_vision.rs:364-368 | the result is `Mentioning` of the screen text: the regions that mention the query ignoring case, in screen order |
| ComputerVision.PlaceholderQueries | kmobile-desktop/src/computer_vision.rs:205-235 | the login button of the placeholder detector is found at (175, 225), and both placeholder elements are clickable |
| AgentApi.HalfTruncates | kmobile-desktop/src/lib.rs:349-350 | the i32 division by two truncates toward zero: down for non-negative sizes, up for negative ones, and it commutes with negation |
| AgentApi.CentreInside | kmobile-desktop/src/lib.rs:347-351 | the point tapped for a non-empty element lies inside its box |
| AgentApi.Target | kmobile-desktop/src/lib.rs:340-355 | the first element whose text contains the identifier, ignoring case, with none before it; none means no element matches |
| AgentApi.IdentifierCaseIgnored | kmobile-desktop/src/lib.rs:342-345 | lower-casing the identifier never changes which element is picked |
| AgentApi.TargetAgrees | kmobile-desktop/src/lib.rs:340-355 | identifiers that every element matches alike pick the same element |
| AgentApi.LoginButtonPicked | kmobile-desktop/src/lib.rs:340-355 | against the placeholder detector's elements, "login" picks the login button |
| AgentApi.LoginButtonCentre | kmobile-desktop/src/lib.rs:347-351 | the login button is tapped at (175, 225), where the element query finds it again |
| AgentApi.LoginMatches | kmobile-desktop/src/lib.rs:342-345 | the login button's text matches "login" in any case |
| AgentApi.Controller.constructor | kmobile-desktop/src/lib.rs:190-202 | a new controller has no device |
| AgentApi.Controller.ConnectDevice | kmobile-desktop/src/lib.rs:204-214 | always succeeds and records the device |
| AgentApi.Controller.GetDeviceState | kmobile-desktop/src/lib.rs:217-237 | "No device connected" exactly when there is no device; otherwise the fixed state for that device, at 85% battery |
| AgentApi.Controller.See | kmobile-desktop/src/lib.rs:241-260 | the analysis detects no elements, text or faces and has the default scene |
| AgentApi.Controller.TapCoordinates | kmobile-desktop/src/lib.rs:361-369 | a tap at coordinates always succeeds |
| AgentApi.Controller.TapAmong | kmobile-desktop/src/lib.rs:340-357 | the centre of the first matching element is tapped; without a match, "Element not found: " and the identifier |
| AgentApi.Controller.TapElement | kmobile-desktop/src/lib.rs:334-358 | since the analysis finds nothing, every identifier is reported not found |
| AgentApi.Controller.GetCapabilities | kmobile-desktop/src/lib.rs:405-413 | vision, hearing, speech, hardware control and UI interaction are all available |
| AgentApi.Controller.ExecuteCommand | kmobile-desktop/src/lib.rs:416-424 | the reply is "Command executed: " followed by the command, which can be read back |
| AndroidStudio.LaunchedInstance | kmobile-desktop/src/android_studio_integration.rs:163-170 | a launched AVD is recorded as running, with its name and process id |
| AndroidStudio.AdbOperation | kmobile-desktop/src/android_studio_integration.rs:200-220 | without adb, "ADB not found"; otherwise succeeds exactly when the command does, and a failure reports its stderr after the operation's message |
| AndroidStudio.GeoFixArguments | kmobile-desktop/src/android_studio_integration.rs:281-302 | the location command is `-s <id> emu geo fix` with the longitude before the latitude |
| AndroidStudio.GradleTask | kmobile-desktop/src/android_studio_integration.rs:247 | the Gradle task is "assemble" followed by the variant |
| AndroidStudio.BuildProject | kmobile-desktop/src/android_studio_integration.rs:243-279 | always returns a build result carrying the command's success, variant, output and errors; it lists one artifact, in the lower-cased variant's directory, exactly when the build succeeded |
| AndroidStudio.Studio.constructor | kmobile-desktop/src/android_studio_integration.rs:88-109 | a new integration keeps the tools found, has no SDK path, no devices and no emulators |
| AndroidStudio.Studio.GetSystemStatus | kmobile-desktop/src/android_studio_integration.rs:111-122 | each tool is reported available exactly when it was found; the device and emulator counts are the registries' sizes; Android Studio is always reported installed |
| AndroidStudio.Studio.ListAvds | kmobile-desktop/src/android_studio_integration.rs:124-146 | without avdmanager, "AVD Manager not found"; otherwise succeeds exactly when the listing does, finding no AVDs, and a failure reports its stderr |
| AndroidStudio.Studio.StartEmulator | kmobile-desktop/src/android_studio_integration.rs:148-176 | without the emulator binary, "Emulator executable not found" and nothing changes; otherwise the booted serial is returned and only its entry is set to the running instance |
| AndroidStudio.Studio.StopEmulator | kmobile-desktop/src/android_studio_integration.rs:179-197 | always succeeds; the kill is sent exactly when adb exists, and the id is removed from the registry in every case |
| AndroidStudio.Studio.InstallApk | kmobile-desktop/src/android_studio_integration.rs:200-220 | an adb operation reporting "Failed to install APK: " and the stderr |
| AndroidStudio.Studio.UninstallPackage | kmobile-desktop/src/android_studio_integration.rs:222-241 | an adb operation reporting "Failed to uninstall package: " and the stderr |
| AndroidStudio.Studio.SimulateLocation | kmobile-desktop/src/android_studio_integration.rs:281-302 | runs the geo fix arguments as an adb operation reporting "Failed to set GPS location: " |
| AndroidStudio.Studio.SetBatteryLevel | kmobile-desktop/src/android_studio_integration.rs:304-324 | an adb operation reporting "Failed to set battery level: " |
| AndroidStudio.Studio.TakeScreenshot | kmobile-desktop/src/android_studio_integration.rs:326-360 | without adb, "ADB not found"; otherwise succeeds exactly when both the capture and the pull do, each failure with its own message and stderr |
| AndroidStudio.Studio.RefreshDeviceList | kmobile-desktop/src/android_studio_integration.rs:362-375 | always succeeds; only a successful listing with adb replaces the registry, with the empty map the parser returns |
| DesktopApp.ExtractSpeechText | src/desktop/app.rs:447-463 | with two double quotes, exactly the quote-free text between the first two; otherwise a text exactly when "say " or "speak " occurs, the trimmed rest after the first "say " taking precedence |
| DesktopApp.SpeechOfQuoted | src/desktop/app.rs:447-452 | a quote-free text quoted after a quote-free prefix is the speech text, whatever follows |
| DesktopApp.SpeechAfterSay | src/desktop/app.rs:455-460 | "say " followed by a trimmed, quote-free text speaks that text |
| DesktopApp.MatchAt | src/desktop/app.rs:465-469 | a match of `(\d+),?\s*(\d+)` starting at a position begins with a digit and yields two non-empty digit groups |
| DesktopApp.FirstMatchAt | src/desktop/app.rs:465-470 | the leftmost match position: a match starts there and at no earlier position; none means no position matches |
| DesktopApp.Groups | src/desktop/app.rs:465-470 | the regex captures exactly when some position matches, and both groups are non-empty digit strings |
| DesktopApp.ParseDigits | src/desktop/app.rs:471 | a digit string parses as an `i32` exactly when its value is at most 2^31 - 1 |
| DesktopApp.ExtractCoordinates | src/desktop/app.rs:465-477 | coordinates only from a match, and then exactly when both groups fit an `i32`, with the groups' values |
| DesktopApp.CoordinatesOfPair | src/desktop/app.rs:465-477 | a digit-free prefix, two in-range numbers separated by a comma and whitespace, then a non-digit: the two numbers are the coordinates |
| DesktopApp.LoneNumberSplits | src/desktop/app.rs:467-468 | a lone number backtracks one digit: "tap 123" taps (12, 3) |
| DesktopApp.PlannedShape | src/desktop/app.rs:206-232 | a screenshot exactly on "take screenshot", speech exactly when "say" or "speak" occurs and there is text, listening exactly on "listen", a tap exactly when "tap" or "click" occurs and there are coordinates; in that order, each at most once, never a sensor action |
| DesktopApp.ParseAgentCommand | src/desktop/app.rs:206-232 | pushing the actions keyword by keyword yields the planned actions |
| DesktopApp.App.constructor | src/desktop/app.rs:66-106 | the device given on the command line is the connected one; not recording, not emulating, not in agent mode |
| DesktopApp.App.StartScreenMirroring | src/desktop/app.rs:145-159 | without a device it succeeds and changes nothing; with one it fails with the capture's error, else returns the attach outcome; emulation becomes active exactly when both succeed |
| DesktopApp.App.ConnectToDevice | src/desktop/app.rs:128-143 | a failed connect changes nothing and is returned; otherwise the device is recorded and mirroring decides the outcome |
| DesktopApp.App.ToggleAudioRecording | src/desktop/app.rs:161-174 | stops when recording and starts otherwise; the flag flips exactly when that call succeeds |
| DesktopApp.App.SimulateSensorInput | src/desktop/app.rs:176-189 | with a device, the emulator's outcome for it; without one, success |
| DesktopApp.App.ExecuteAction | src/desktop/app.rs:234-268 | each action succeeds exactly when its component does; a sensor action without a device succeeds; speech reports the spoken text |
| DesktopApp.App.ProcessAgentCommand | src/desktop/app.rs:191-204 | runs the planned actions in order: the first error, or the outputs joined by newlines |
| DesktopApp.App.OutputsSucceed | src/desktop/app.rs:197-201 | the run succeeds exactly when every action does |
| DesktopApp.App.OutputsInOrder | src/desktop/app.rs:197-201 | a successful run has one output per action, each that action's output, in order |
| DesktopApp.App.OutputsFail | src/desktop/app.rs:197-201 | a failed run fails with the error of an action all of whose predecessors succeeded |
| DesktopApp.App.PrefixFailure | src/desktop/app.rs:197-201 | once a prefix fails, later actions do not change the outcome |
| XcodeIntegration.StateOf | kmobile-desktop/src/xcode_integration.rs:499-505 | each of "Booted", "Shutdown", "Booting" and "Shutting Down" maps to exactly its own state, and every other value, or a missing one, to Unknown |
| XcodeIntegration.SimulatorInfoOf | kmobile-desktop/src/xcode_integration.rs:494-510 | each record takes the runtime key, the device's strings or "" when missing, `isAvailable` only when it is literally true, and the optional paths as given |
| XcodeIntegration.RuntimeInfos | kmobile-desktop/src/xcode_integration.rs:492-513 | a runtime's array yields one record per device object, in order; any other value yields none |
| XcodeIntegration.ListingKeepsEveryRecord | kmobile-desktop/src/xcode_integration.rs:490-514 | no device object is dropped: the listing has exactly one record per object |
| XcodeIntegration.ListingRuntimes | kmobile-desktop/src/xcode_integration.rs:490-514 | every record carries one of the listing's runtime keys |
| XcodeIntegration.CollectRuntime | kmobile-desktop/src/xcode_integration.rs:492-512 | the inner loop pushes exactly the runtime's records |
| XcodeIntegration.ListSimulators | kmobile-desktop/src/xcode_integration.rs:476-519 | a failed listing reports "Failed to list simulators: " and its stderr; unparsable output is an error; otherwise the records of every runtime in turn |
| XcodeIntegration.IndexByKeys | kmobile-desktop/src/xcode_integration.rs:1113-1116 | after clearing and inserting by key, the map's keys are exactly the items' keys |
| XcodeIntegration.FillRegistry | kmobile-desktop/src/xcode_integration.rs:1113-1116 | the clear-and-insert loop yields the map of the items indexed by key |
| XcodeIntegration.IndexByLastWins | kmobile-desktop/src/xcode_integration.rs:1113-1116 | the last item with a given key is the one the map keeps |
| XcodeIntegration.DeviceOfLine | kmobile-desktop/src/xcode_integration.rs:1243-1263 | no device exactly when the line has fewer than three whitespace-separated tokens; every device carries the udid "example-udid" |
| XcodeIntegration.CollectDevices | kmobile-desktop/src/xcode_integration.rs:660-667 | the loop keeps, in order, the devices parsed from lines holding "(" and ")" but not "Simulator" |
| XcodeIntegration.DetectConnectedDevices | kmobile-desktop/src/xcode_integration.rs:647-672 | the xctrace listing's devices; when it fails, the instruments listing's; when that fails too, none |
| XcodeIntegration.DeviceRegistryAtMostOne | kmobile-desktop/src/xcode_integration.rs:1121-1130 | since every device has the placeholder udid, the device registry holds at most one entry |
| XcodeIntegration.DevicesInArePlaceholders | kmobile-desktop/src/xcode_integration.rs:1243-1263 | every detected device carries the placeholder udid |
| XcodeIntegration.ParseBuildOutput | kmobile-desktop/src/xcode_integration.rs:1290-1303 | the loop yields the warning lines and the error lines of the log, in order |
| XcodeIntegration.BuildOutputClassification | kmobile-desktop/src/xcode_integration.rs:1294-1300 | a line is a warning exactly when it holds "warning:", an error exactly when it holds "error:" but no "warning:", and never both |
| XcodeIntegration.BuildAndRunProject | kmobile-desktop/src/xcode_integration.rs:757-807 | a failed build is still a result, carrying the command's success and the classified log lines |
| XcodeIntegration.PassedTestCount | kmobile-desktop/src/xcode_integration.rs:1305-1324 | at most one test case per output line, and none when no line mentions "Test Case" |
| XcodeIntegration.WaitForSimulatorBoot | kmobile-desktop/src/xcode_integration.rs:1148-1169 | succeeds exactly when one of the first 60 polls shows "Booted", stopping at the first such poll; otherwise all 60 polls ran and "Timeout waiting for simulator to boot" is reported |
| XcodeIntegration.Xcode.constructor | kmobile-desktop/src/xcode_integration.rs:412-451 | the integration keeps the tool paths, the configured Xcode version, bridge and emulator it is given, with empty registries, the keyboard off and no TestFlight credentials |
| XcodeIntegration.Xcode.RefreshSimulators | kmobile-desktop/src/xcode_integration.rs:1110-1119 | a failed listing is returned and leaves the registry unchanged; otherwise the registry becomes the listing indexed by udid |
| XcodeIntegration.Xcode.RefreshDevices | kmobile-desktop/src/xcode_integration.rs:1121-1130 | always succeeds; the registry becomes the detected devices indexed by udid and so holds at most one entry |
| XcodeIntegration.Xcode.BootOutcome | kmobile-desktop/src/xcode_integration.rs:523-556 | a simulator recorded as booted succeeds at once; otherwise success needs the boot command, a boot within 60 polls and the bridge connection, and a failed boot reports "Failed to boot simulator <udid>: " and its stderr |
| XcodeIntegration.Xcode.BootSimulator | kmobile-desktop/src/xcode_integration.rs:523-556 | nothing runs for a booted simulator; otherwise boot, wait, connect and attach run in that order up to the first failure; a success connects the bridge and attaches the emulator's default state for the udid; a failure leaves the emulator unchanged |
| XcodeIntegration.Xcode.BootSteps | kmobile-desktop/src/xcode_integration.rs:535-553 | the four boot steps in order, stopping at the first failure, with each step's error |
| XcodeIntegration.Xcode.ConnectAndAttach | kmobile-desktop/src/xcode_integration.rs:546-552 | the emulator is attached exactly when the bridge connects; a failed connect changes neither |
| XcodeIntegration.Xcode.ShutdownSimulator | kmobile-desktop/src/xcode_integration.rs:559-576 | succeeds exactly when the command does, and only then leaves the active set; a failure reports "Failed to shutdown simulator <udid>: " and its stderr |
| XcodeIntegration.Xcode.ResetSimulator | kmobile-desktop/src/xcode_integration.rs:619-640 | a simulator recorded as booted is shut down first and a failed shutdown aborts the reset; then the reset succeeds exactly when the erase does |
| XcodeIntegration.Xcode.InstallAppOnDevice | kmobile-desktop/src/xcode_integration.rs:675-693 | without ios-deploy, the install hint; otherwise success exactly when the command succeeds, a failure naming the device and its stderr |
| XcodeIntegration.Xcode.UploadToTestflight | kmobile-desktop/src/xcode_integration.rs:1016-1048 | a missing key id, issuer id or private key path is "TestFlight credentials not configured"; success exactly when all three are set and the upload succeeds |
| XcodeIntegration.Xcode.ToggleHardwareKeyboard | kmobile-desktop/src/xcode_integration.rs:939-959 | succeeds exactly when the command does, and only then records the new setting |
| XcodeIntegration.Xcode.GetSystemStatus | kmobile-desktop/src/xcode_integration.rs:1403-1413 | each tool is reported exactly when its path is known; the Xcode version is the configured one; the counts are the registries' sizes; TestFlight is configured exactly when an App Store Connect key is set |
| XcodeIntegration.Xcode.GetDeviceInfo | kmobile-desktop/src/xcode_integration.rs:1416-1424 | a simulator with the udid wins over a physical device; "Device not found: <udid>" exactly when neither registry has it |
| XcodeIntegration.Xcode.StepOutcome | kmobile-desktop/src/xcode_integration.rs:1445-1493 | builds and test runs always report, with their command's success; booting and installing fail exactly when their operation fails and otherwise report success |
| XcodeIntegration.Xcode.ExecuteWorkflowStep | kmobile-desktop/src/xcode_integration.rs:1445-1493 | running a step yields the outcome StepOutcome gives and keeps the bridge and emulator consistent |
| XcodeIntegration.Xcode.ExecuteWorkflow | kmobile-desktop/src/xcode_integration.rs:1427-1442 | succeeds exactly when every step does, with one result per step in order and success the conjunction of the steps'; otherwise the error of the first failing step |

## Left out

- Process spawning, exit codes, timeouts and sleeps: each external command is reduced to the `CmdOutput` it returns. A command that cannot be spawned (the `?` on `output()`) is not modelled.
- Concurrency: `Arc<RwLock<…>>` sharing, `async`, and the background `tokio::spawn` loops. These are the bridge's capture loop and real-time bridge, the emulator's sensor simulation, real-time audio processing and device monitoring. The loops never end and their bodies are empty.
- The desktop user interface (`update`, `run` and the panels in `src/desktop/app.rs`) and the stdio loop `McpServer::start`.
- Floating point: sensor readings, battery levels, network figures, coordinates in degrees, confidences and voice settings are `real` values that are only stored, passed on and compared.
- JSON text parsing: parsed values (`Json`) are inputs, and unparsable output is an input flag.
- The clock, hashes and identifiers: timestamps, the screen hash (`DefaultHasher`), uuid generation and `generate_device_id` are parameters or left out.
- File-system side effects: the template files `init_project` writes, test-report and suite writes, backup and temp-file handling, and the provisioning-profile copy and read.
- Foreign audio and speech libraries: cpal streams and devices, the TTS engine and the speech recogniser. What they report is a parameter.
- `Utils`: `detect_system_info`, `get_os_version`, `check_tool_availability`, `get_available_port` and `is_port_available` probe the host and are not modelled.
- `Testing`: `save_test_report` and `print_test_summary` only write output. `run_device_tests` is `run_tests` with a device. `record_test` only logs and succeeds.
- `DeviceBridge`: `inject_audio` only forwards to the injector. `get_connected_devices` lists the registry's values, which the `connectedDevices` map already exposes.
- `SimulatorManager`: the status of every AVD is read from one `adb devices` output (`adbOut`), where src/simulator.rs:104 runs `adb devices` anew for each AVD; the model assumes the device list does not change while the AVDs are listed.
- `HardwareEmulator`: `trigger_haptic_feedback` and `inject_camera_frame` forward to simulators that only log.
- `Audio`: `route_audio_to_device` and `capture_device_audio` are stubs that succeed (the latter returning no samples). `process_real_time_audio` only spawns the empty loop.
- `AgentApi`: the stubs `say`, `listen`, `converse`, `simulate_location`, `simulate_motion`, `type_text`, `simulate_network`, `set_battery_level` and `start_autonomous_mode` only log and return fixed values.
- `ComputerVision`: image decoding (`image_data_to_mat`) and the detectors' image input. The detectors are placeholders in the source and are modelled by their fixed answers.
- `AndroidStudio`: tool discovery (`detect_installation`, `find_*_path`) becomes constructor parameters. The placeholders `wait_for_emulator_boot` ("emulator-5554"), `check_android_studio_installed` (true), `parse_device_list` (empty) and `refresh_emulator_list` are modelled by their fixed results. The AVD listing parser, which yields no AVDs, is modelled the same way.
- `XcodeIntegration`: the single-command operations that only map a failed command to an error are not modelled. They are `install_app_on_simulator` (outside a workflow step), `uninstall_app_from_simulator`, `capture_device_logs`, `take_device_screenshot`, `start_screen_recording`, `archive_and_export`, `simulate_location`, `configure_accessibility`, `simulate_push_notification`, `install_provisioning_profile` and `sign_app`. The same goes for `refresh_simulator_apps`, `load_provisioning_profiles`, the log and profile placeholder parsers, and tool discovery.
- XcodeIntegration.Xcode.constructor: does not run `initialize_components`. The refreshes it performs are the separate methods `RefreshSimulators` and `RefreshDevices`.
- XcodeIntegration.PassedTestCount: only bounds the number of test cases. Every case the placeholder parser produces has the same fixed name, class and Passed status.
- Common.ToLower: lower-cases ASCII letters only, where Rust's `to_lowercase` also maps other letters.
- DesktopApp.ExtractCoordinates: `\d` is taken as the ASCII digits. The regex crate's Unicode digits would match too and then fail to parse as an `i32`.
- AgentApi.CentreInside: the centre `x + width / 2` is computed on unbounded integers. The source's `i32` overflow for extreme rectangles is not modelled.
- Audio.Processor.Speak: models the build with the `audio` feature. Without that feature `speak` only logs and always succeeds.
- AgentApi.Controller.TapAmong and AgentApi.Controller.TapElement: a success carries the tapped point, where `tap_element` returns `()`. The point is only what `tap_coordinates` is given.
- Project.DetectProjectFromFiles: uses the corrected detection order, `Project.Detection` (React Native layout before the iOS markers, third row of "## Findings"), not the order of src/project.rs:109-143; the two differ only on a React Native layout without a Gradle build.
- Project.DetectCurrentProject: detects through `Project.DetectProjectFromFiles`, so it too uses the corrected detection order.
- Project.NewManager: detects through `Project.DetectCurrentProject`, so it too uses the corrected detection order.
- DeviceManager.Manager.RefreshIosDevices: parses through the corrected `DeviceManager.IosDeviceOf` (second row of "## Findings"), so a line whose ')' comes before its '(' or whose ']' comes before its '[', such as "x) (", is skipped where src/device.rs:150-176 panics.
- DeviceManager.Manager.RefreshDevices: refreshes iOS through `DeviceManager.Manager.RefreshIosDevices`, so it too skips such a line instead of panicking.
- Project.Manager.BuildProject: splits the command through the corrected `Project.BuildInvocation` (fourth row of "## Findings"), so a blank build command is reported as the NoBuildCommand configuration error where src/project.rs:389-391 panics on `unwrap()`.

## Findings

| source | as written | input that shows it | evidently intended | confidence | as-written member | corrected member |
|---|---|---|---|---|---|---|
| src/utils.rs:291-297 | `truncate_string` slices the `&str` at byte `max_length - 3`, which panics when that byte lies inside a multi-byte character | "ééé" (six bytes) with `max_length` 4: the cut at byte 1 is inside the first 'é' | cut at the last character boundary at or below that byte, so the result is still at most `max_length` bytes | not executed | Utils.TruncateAsWritten, Utils.TruncatePanicsInsideCharacter | Utils.Truncate, Utils.TruncateAgreesWhenDefined |
| src/device.rs:150-176 | the iOS device-line parser slices `line[start + 1..end]` with the first '(' and the first ')' and does not check their order, so the slice panics | the line "x) (" | skip a line whose delimiters are out of order | not executed | DeviceManager.IosLineAsWritten, DeviceManager.IosLinePanicsOnReversedParentheses | DeviceManager.IosDeviceOf, DeviceManager.IosLineAgrees |
| src/project.rs:109-143 | `detect_project_from_files` tests for an `ios` directory before the React Native layout (package.json with android and ios directories), so the React Native branch can never be taken | a directory holding package.json, android/ and ios/ but no build.gradle: detected as iOS | test the React Native layout before the iOS markers | not executed | Project.DetectionAsWritten, Project.ReactNativeUnreachable | Project.Detection, Project.DetectionCorrection |
| src/project.rs:389-391 | `build_project` takes the program with `split_whitespace().next().unwrap()`, which panics on a blank build command | the build command "" | report the blank command as a configuration error | not executed | Project.SplitCommandAsWritten, Project.EmptyBuildCommandPanics | Project.BuildInvocation, Project.BuildInvocationAgrees |
