// Project management (src/project.rs): finding the current project among
// the configured ones or by the marker files of its directory, splitting
// its build command, and dispatching clean, status and init by platform.
// The file system is an oracle: `Dir` says which names exist in the
// directory and what listing it gives.

module Project {
  import opened Common
  import opened Errors

  /** A path as `Path::components` sees it: rooted or not, then its named
    * components in order. */
  datatype Path = Path(absolute: bool, parts: seq<string>)

  /** `Path::starts_with`: whole components, not characters. The empty
    * path has no components, so every path starts with it. */
  predicate PathStartsWith(p: Path, base: Path)
  {
    (!base.absolute && base.parts == [])
    || (p.absolute == base.absolute && |base.parts| <= |p.parts| && p.parts[..|base.parts|] == base.parts)
  }

  /** `file_name().unwrap_or("unknown")` */
  function FileName(p: Path): (name: string)
    ensures p.parts == [] ==> name == "unknown"
    ensures p.parts != [] && Last(p.parts) != ".." ==> name == Last(p.parts)
  {
    match FileNameOf(p.parts)
    case None => "unknown"
    case Some(n) => n
  }

  /** An entry of an Xcode project or workspace. */
  predicate IsXcodeBundle(name: string)
  {
    NameExtension(name) == Some("xcodeproj") || NameExtension(name) == Some("xcworkspace")
  }

  /** What the file system says about one directory: whether `join(name)`
    * exists, and its listing (an error text, or the entries, each of which
    * may itself be an error). */
  datatype Dir = Dir(has: string -> bool, listing: Result<seq<Option<string>>, string>)

  /** Some readable entry of the listing is an Xcode bundle. */
  predicate ListsXcodeBundle(entries: seq<Option<string>>)
  {
    exists i | 0 <= i < |entries| :: entries[i].Some? && IsXcodeBundle(entries[i].value)
  }

  datatype Platform = Android | Ios | ReactNative | Flutter | UnknownPlatform

  function PlatformName(p: Platform): string
  {
    match p
    case Android => "android"
    case Ios => "ios"
    case ReactNative => "react-native"
    case Flutter => "flutter"
    case UnknownPlatform => "unknown"
  }

  lemma PlatformNamesDistinct(p: Platform, q: Platform)
    ensures PlatformName(p) == PlatformName(q) <==> p == q
  {
  }

  predicate HasGradleBuild(dir: Dir) { dir.has("build.gradle") || dir.has("build.gradle.kts") }

  predicate HasReactNativeLayout(dir: Dir) { dir.has("package.json") && dir.has("android") && dir.has("ios") }

  /** The `||` of the iOS test: the "ios" directory first, the listing only
    * when there is none. */
  function IosMarker(dir: Dir): (r: Result<bool, string>)
    ensures dir.has("ios") ==> r == Ok(true)
    ensures !dir.has("ios") && dir.listing.Err? ==> r == Err(dir.listing.error)
    ensures !dir.has("ios") && dir.listing.Ok? ==> r == Ok(ListsXcodeBundle(dir.listing.value))
  {
    if dir.has("ios") then Ok(true)
    else match dir.listing
      case Err(e) => Err(e)
      case Ok(entries) => Ok(ListsXcodeBundle(entries))
  }

  /** `detect_project_from_files`'s if-chain as written: android, then ios,
    * then react-native, then flutter. A failed listing is an error. */
  function DetectionAsWritten(dir: Dir): Result<Platform, string>
  {
    if HasGradleBuild(dir) then Ok(Android)
    else match IosMarker(dir)
      case Err(e) => Err(e)
      case Ok(ios) =>
        if ios then Ok(Ios)
        else if HasReactNativeLayout(dir) then Ok(ReactNative)
        else if dir.has("pubspec.yaml") then Ok(Flutter)
        else Ok(UnknownPlatform)
  }

  /** As written, no directory is ever detected as a React Native project:
    * its layout includes an "ios" directory, which the iOS test takes first. */
  lemma ReactNativeUnreachable(dir: Dir)
    ensures DetectionAsWritten(dir) != Ok(ReactNative)
    ensures HasReactNativeLayout(dir) && !HasGradleBuild(dir) ==> DetectionAsWritten(dir) == Ok(Ios)
  {
  }

  /** The detection with the React Native test moved before the iOS one, so
    * that each of the four platforms can be detected. */
  function Detection(dir: Dir): (r: Result<Platform, string>)
    ensures HasGradleBuild(dir) ==> r == Ok(Android)
    ensures !HasGradleBuild(dir) && HasReactNativeLayout(dir) ==> r == Ok(ReactNative)
    ensures !HasGradleBuild(dir) && !HasReactNativeLayout(dir) && IosMarker(dir) == Ok(true) ==> r == Ok(Ios)
    ensures r.Err? <==> !HasGradleBuild(dir) && !HasReactNativeLayout(dir) && IosMarker(dir).Err?
    ensures r == Ok(Flutter) <==>
              !HasGradleBuild(dir) && !HasReactNativeLayout(dir) && IosMarker(dir) == Ok(false) && dir.has("pubspec.yaml")
    ensures r == Ok(UnknownPlatform) <==>
              !HasGradleBuild(dir) && !HasReactNativeLayout(dir) && IosMarker(dir) == Ok(false) && !dir.has("pubspec.yaml")
  {
    if HasGradleBuild(dir) then Ok(Android)
    else if HasReactNativeLayout(dir) then Ok(ReactNative)
    else match IosMarker(dir)
      case Err(e) => Err(e)
      case Ok(ios) =>
        if ios then Ok(Ios)
        else if dir.has("pubspec.yaml") then Ok(Flutter)
        else Ok(UnknownPlatform)
  }

  /** The corrected detection differs from the one as written exactly on
    * React Native layouts without a Gradle build. */
  lemma DetectionCorrection(dir: Dir)
    ensures Detection(dir) != DetectionAsWritten(dir) <==> HasReactNativeLayout(dir) && !HasGradleBuild(dir)
  {
  }

  function BuildCommandOf(p: Platform): Option<string>
  {
    match p
    case Android => Some("./gradlew assembleDebug")
    case Ios => Some("xcodebuild -scheme Debug")
    case ReactNative => Some("npx react-native run-android")
    case Flutter => Some("flutter build apk")
    case UnknownPlatform => None
  }

  function TestCommandOf(p: Platform): Option<string>
  {
    match p
    case Android => Some("./gradlew test")
    case Ios => Some("xcodebuild test -scheme Debug")
    case ReactNative => Some("npm test")
    case Flutter => Some("flutter test")
    case UnknownPlatform => None
  }

  /** `ProjectConfig` (src/config.rs). */
  datatype ProjectConfig = ProjectConfig(
    name: string,
    path: Path,
    platform: string,
    buildCommand: Option<string>,
    testCommand: Option<string>,
    metadata: map<string, string>)

  /** `detect_project_from_files`: start from an "unknown" project named
    * after the directory, then let the detected platform set the platform
    * and both commands. */
  method DetectProjectFromFiles(path: Path, dir: Dir) returns (r: Result<ProjectConfig, string>)
    ensures r.Err? <==> Detection(dir).Err?
    ensures r.Err? ==> r.error == Detection(dir).error
    ensures r.Ok? ==> r.value.name == FileName(path) && r.value.path == path && r.value.metadata == map[]
    ensures r.Ok? ==> r.value.platform == PlatformName(Detection(dir).value)
    ensures r.Ok? ==> r.value.buildCommand == BuildCommandOf(Detection(dir).value)
                      && r.value.testCommand == TestCommandOf(Detection(dir).value)
  {
    var project := ProjectConfig(FileName(path), path, "unknown", None, None, map[]);
    if HasGradleBuild(dir) {
      project := project.(platform := "android", buildCommand := Some("./gradlew assembleDebug"),
                          testCommand := Some("./gradlew test"));
    } else if HasReactNativeLayout(dir) {
      project := project.(platform := "react-native", buildCommand := Some("npx react-native run-android"),
                          testCommand := Some("npm test"));
    } else {
      var ios := IosMarker(dir);
      if ios.Err? {
        return Err(ios.error);
      }
      if ios.value {
        project := project.(platform := "ios", buildCommand := Some("xcodebuild -scheme Debug"),
                            testCommand := Some("xcodebuild test -scheme Debug"));
      } else if dir.has("pubspec.yaml") {
        project := project.(platform := "flutter", buildCommand := Some("flutter build apk"),
                            testCommand := Some("flutter test"));
      }
    }
    r := Ok(project);
  }

  /** The index of the first configured project containing `current`. */
  function FirstContaining(projects: seq<ProjectConfig>, current: Path): (r: Option<nat>)
    ensures r.Some? ==> r.value < |projects| && PathStartsWith(current, projects[r.value].path)
    ensures r.Some? ==> forall j | 0 <= j < r.value :: !PathStartsWith(current, projects[j].path)
    ensures r.None? <==> forall j | 0 <= j < |projects| :: !PathStartsWith(current, projects[j].path)
  {
    if projects == [] then None
    else if PathStartsWith(current, projects[0].path) then Some(0)
    else
      var rest := FirstContaining(projects[1..], current);
      assert forall j | 1 <= j < |projects| :: projects[1..][j - 1] == projects[j];
      if rest.None? then None else Some(rest.value + 1)
  }

  /** A project configured with the empty path contains every directory,
    * rooted or not, so one listed first is always the current project. */
  lemma FirstContainingEmptyPath(projects: seq<ProjectConfig>, current: Path)
    requires projects != [] && projects[0].path == Path(false, [])
    ensures FirstContaining(projects, current) == Some(0)
    ensures PathStartsWith(Path(true, ["home", "u", "app"]), projects[0].path)
  {
  }

  /** `detect_current_project`: the first configured project the current
    * directory lies in; otherwise the project its files suggest, which is
    * missing only when the directory cannot be listed. */
  method DetectCurrentProject(projects: seq<ProjectConfig>, current: Path, dir: Dir)
    returns (r: Option<ProjectConfig>)
    ensures FirstContaining(projects, current).Some? ==> r == Some(projects[FirstContaining(projects, current).value])
    ensures FirstContaining(projects, current).None? ==> (r.None? <==> Detection(dir).Err?)
    ensures FirstContaining(projects, current).None? && r.Some? ==>
              r.value.path == current && r.value.platform == PlatformName(Detection(dir).value)
              && r.value.buildCommand == BuildCommandOf(Detection(dir).value)
  {
    var i := 0;
    while i < |projects|
      invariant 0 <= i <= |projects|
      invariant forall j | 0 <= j < i :: !PathStartsWith(current, projects[j].path)
    {
      if PathStartsWith(current, projects[i].path) {
        return Some(projects[i]);
      }
      i := i + 1;
    }
    var detected := DetectProjectFromFiles(current, dir);
    if detected.Ok? {
      return Some(detected.value);
    }
    r := None;
  }

  // ---------------------------------------------------------------------
  // Build command

  datatype Invocation = Invocation(program: string, args: seq<string>)

  /** `split_whitespace()` then `next().unwrap()` as written: a command
    * without a token panics (None). */
  function SplitCommandAsWritten(command: string): (r: Option<Invocation>)
    ensures r.Some? ==> [r.value.program] + r.value.args == SplitWhitespace(command)
  {
    var tokens := SplitWhitespace(command);
    if tokens == [] then None else Some(Invocation(tokens[0], tokens[1..]))
  }

  /** An empty build command crashes the build as written. */
  lemma EmptyBuildCommandPanics()
    ensures SplitCommandAsWritten("").None?
  {
  }

  const NoProject := KMobileError(ProjectNotFound, "No project found in current directory")
  const NoBuildCommand := KMobileError(ConfigError, "No build command configured")

  /** The build's command line: the first token of the command is the
    * program, the others its arguments; a blank command is reported as a
    * missing one. */
  function BuildInvocation(project: Option<ProjectConfig>): (r: KResult<Invocation>)
    ensures project.None? ==> r == Err(NoProject)
    ensures project.Some? && project.value.buildCommand.None? ==> r == Err(NoBuildCommand)
    ensures project.Some? && project.value.buildCommand.Some? ==>
              (r.Ok? <==> SplitWhitespace(project.value.buildCommand.value) != [])
    ensures r.Err? ==> r.error == NoProject || r.error == NoBuildCommand
    ensures r.Ok? ==> [r.value.program] + r.value.args == SplitWhitespace(project.value.buildCommand.value)
  {
    match project
    case None => Err(NoProject)
    case Some(p) =>
      match p.buildCommand
      case None => Err(NoBuildCommand)
      case Some(command) =>
        match SplitCommandAsWritten(command)
        case None => Err(NoBuildCommand)
        case Some(inv) => Ok(inv)
  }

  /** Wherever the split as written does not panic, the corrected build runs
    * the same command line. */
  lemma BuildInvocationAgrees(p: ProjectConfig)
    requires p.buildCommand.Some? && SplitCommandAsWritten(p.buildCommand.value).Some?
    ensures BuildInvocation(Some(p)) == Ok(SplitCommandAsWritten(p.buildCommand.value).value)
  {
  }

  /** What `clean_project` does for a platform. */
  datatype CleanAction =
    | RunClean(program: string)
    | RemoveDirectories(dirs: seq<string>)
    | NoClean

  function CleanActionOf(platform: string): (a: CleanAction)
    ensures a.RunClean? <==> platform in {"android", "ios", "flutter"}
    ensures a.RemoveDirectories? <==> platform == "react-native"
    ensures a.RemoveDirectories? ==> a.dirs == ["node_modules", "android/build", "ios/build"]
    ensures platform == "android" <==> a == RunClean("./gradlew")
    ensures platform == "ios" <==> a == RunClean("xcodebuild")
    ensures platform == "flutter" <==> a == RunClean("flutter")
  {
    if platform == "android" then RunClean("./gradlew")
    else if platform == "ios" then RunClean("xcodebuild")
    else if platform == "react-native" then RemoveDirectories(["node_modules", "android/build", "ios/build"])
    else if platform == "flutter" then RunClean("flutter")
    else NoClean
  }

  datatype BuildStatus = BuildSuccess | BuildFailed | BuildInProgress | NotBuilt
  datatype TestStatus = TestsPassed | TestsFailed | TestsRunning | NotRun
  datatype DependencyStatus = Installed | Missing | Outdated
  datatype Dependency = Dependency(name: string, version: string, status: DependencyStatus)

  datatype ProjectStatus = ProjectStatus(
    name: string,
    path: Path,
    platform: string,
    buildStatus: BuildStatus,
    testsStatus: TestStatus,
    dependencies: seq<Dependency>)

  /** The project templates `init_project` knows. */
  datatype Template = AndroidTemplate | IosTemplate | ReactNativeTemplate | FlutterTemplate | BasicTemplate

  function TemplateOf(template: Option<string>): (t: Template)
    ensures t == BasicTemplate <==>
              template.None? || template.value !in {"android", "ios", "react-native", "flutter"}
    ensures template == Some("android") <==> t == AndroidTemplate
    ensures template == Some("ios") <==> t == IosTemplate
    ensures template == Some("react-native") <==> t == ReactNativeTemplate
    ensures template == Some("flutter") <==> t == FlutterTemplate
  {
    match template
    case Some(name) =>
      if name == "android" then AndroidTemplate
      else if name == "ios" then IosTemplate
      else if name == "react-native" then ReactNativeTemplate
      else if name == "flutter" then FlutterTemplate
      else BasicTemplate
    case None => BasicTemplate
  }

  class Manager {
    var projects: seq<ProjectConfig>
    var currentProject: Option<ProjectConfig>

    constructor(projects: seq<ProjectConfig>, currentProject: Option<ProjectConfig>)
      ensures this.projects == projects && this.currentProject == currentProject
    {
      this.projects := projects;
      this.currentProject := currentProject;
    }

    /** `build_project`: run the project's build command in its directory
      * (`out`); `target` is only logged. */
    function BuildProject(target: Option<string>, out: CmdOutput): (r: KResult<()>)
      reads this`currentProject
      ensures BuildInvocation(currentProject).Err? ==> r == Err(BuildInvocation(currentProject).error)
      ensures BuildInvocation(currentProject).Ok? ==> (r.Ok? <==> out.success)
      ensures BuildInvocation(currentProject).Ok? && !out.success ==>
                r == Err(KMobileError(BuildError, "Build failed: " + out.stderr))
    {
      var _ :- BuildInvocation(currentProject);
      if !out.success then Err(KMobileError(BuildError, "Build failed: " + out.stderr)) else Ok(())
    }

    /** `clean_project`: the platform's clean tool (`out`), the three
      * React Native build directories removed regardless of errors, or
      * nothing. */
    function CleanProject(out: CmdOutput): (r: (CleanAction, KResult<()>))
      reads this`currentProject
      ensures currentProject.None? ==> r.1 == Err(NoProject)
      ensures currentProject.Some? ==> r.0 == CleanActionOf(currentProject.value.platform)
      ensures currentProject.Some? ==> (r.1.Ok? <==> !r.0.RunClean? || out.success)
      ensures currentProject.Some? && r.1.Err? ==> r.1.error == KMobileError(BuildError, "Clean failed: " + out.stderr)
    {
      match currentProject
      case None => (NoClean, Err(NoProject))
      case Some(p) =>
        var action := CleanActionOf(p.platform);
        (action, if action.RunClean? && !out.success then Err(KMobileError(BuildError, "Clean failed: " + out.stderr))
                 else Ok(()))
    }

    /** `get_project_status`: nothing is tracked yet, so every project is
      * unbuilt, with no test run and without dependencies. */
    function GetProjectStatus(): (r: KResult<ProjectStatus>)
      reads this`currentProject
      ensures r.Ok? <==> currentProject.Some?
      ensures r.Err? ==> r.error == NoProject
      ensures r.Ok? ==> r.value.name == currentProject.value.name && r.value.path == currentProject.value.path
                        && r.value.platform == currentProject.value.platform
      ensures r.Ok? ==> r.value.buildStatus == NotBuilt && r.value.testsStatus == NotRun && r.value.dependencies == []
    {
      match currentProject
      case None => Err(NoProject)
      case Some(p) => Ok(ProjectStatus(p.name, p.path, p.platform, NotBuilt, NotRun, []))
    }

    /** `init_project`: only the React Native and Flutter templates run a
      * generator whose failure (`out`) is reported; the others write files. */
    function InitProject(name: string, template: Option<string>, out: CmdOutput): (r: (Template, KResult<()>))
      ensures r.0 == TemplateOf(template)
      ensures r.1.Err? <==> r.0 in {ReactNativeTemplate, FlutterTemplate} && !out.success
      ensures r.1.Err? && r.0 == ReactNativeTemplate ==>
                r.1.error == KMobileError(ProjectInitError, "Failed to initialize React Native project: " + out.stderr)
      ensures r.1.Err? && r.0 == FlutterTemplate ==>
                r.1.error == KMobileError(ProjectInitError, "Failed to initialize Flutter project: " + out.stderr)
    {
      var t := TemplateOf(template);
      (t, match t
          case ReactNativeTemplate =>
            if out.success then Ok(())
            else Err(KMobileError(ProjectInitError, "Failed to initialize React Native project: " + out.stderr))
          case FlutterTemplate =>
            if out.success then Ok(())
            else Err(KMobileError(ProjectInitError, "Failed to initialize Flutter project: " + out.stderr))
          case _ => Ok(()))
    }
  }

  /** `ProjectManager::new`: detect the current project, then keep it. */
  method NewManager(projects: seq<ProjectConfig>, current: Path, dir: Dir) returns (m: Manager)
    ensures fresh(m) && m.projects == projects
    ensures FirstContaining(projects, current).None? ==> (m.currentProject.None? <==> Detection(dir).Err?)
    ensures FirstContaining(projects, current).Some? ==>
              m.currentProject == Some(projects[FirstContaining(projects, current).value])
  {
    var project := DetectCurrentProject(projects, current, dir);
    m := new Manager(projects, project);
  }
}
