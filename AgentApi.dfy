// The programmatic agent API (kmobile-desktop/src/lib.rs, module
// `agent_api`): a controller that remembers the connected device, reports
// its state, finds a UI element by its text and taps its centre, and
// reports its capabilities. The screen analysis it searches is the
// placeholder one its `see` returns; the clock is a parameter.

module AgentApi {
  import opened Common
  import opened ComputerVision

  /** `anyhow::Result`: errors are messages. */
  type XResult<T> = Result<T, string>

  /** Coordinates are floats that are never computed with. */
  datatype GpsLocation = GpsLocation(latitude: real, longitude: real, altitude: real, accuracy: real)

  datatype DeviceState = DeviceState(
    deviceId: string,
    batteryLevel: real,
    networkConnected: bool,
    currentApp: Option<string>,
    screenOn: bool,
    gpsLocation: Option<GpsLocation>)

  datatype AgentCapabilities = AgentCapabilities(
    vision: bool,
    hearing: bool,
    speech: bool,
    hardwareControl: bool,
    uiInteraction: bool)

  const NoDevice := "No device connected"
  const ElementNotFound := "Element not found: "
  const Executed := "Command executed: "

  /** The fixed state `get_device_state` reports for a connected device. */
  function PlaceholderState(deviceId: string): DeviceState
  {
    DeviceState(deviceId, 85.0, true, Some("com.example.app"), true,
                Some(GpsLocation(37.7749, -122.4194, 52.0, 5.0)))
  }

  // ---------------------------------------------------------------------
  // Finding and tapping an element

  /** Rust's `i32` division by two, which truncates toward zero. */
  function Half(n: int): int
  {
    if n >= 0 then n / 2 else -((-n) / 2)
  }

  /** Truncation: half of a non-negative number rounds down, half of a
    * negative one rounds up, and halving commutes with negation. */
  lemma HalfTruncates(n: int)
    ensures n >= 0 ==> 0 <= 2 * Half(n) <= n <= 2 * Half(n) + 1
    ensures n <= 0 ==> 2 * Half(n) - 1 <= n <= 2 * Half(n) <= 0
    ensures Half(-n) == -Half(n)
  {
  }

  /** The point `tap_element` taps: the middle of the element's box. */
  function Centre(b: Rectangle): (int, int)
  {
    (b.x + Half(b.width), b.y + Half(b.height))
  }

  /** The centre of a non-empty box lies inside it. */
  lemma CentreInside(b: Rectangle)
    requires b.width > 0 && b.height > 0
    ensures Holds(b, Centre(b).0, Centre(b).1)
  {
    HalfTruncates(b.width);
    HalfTruncates(b.height);
  }

  /** An element matches when it has text whose lower-cased form contains
    * the lower-cased identifier; elements without text never match. */
  predicate Matches(e: UiElement, identifier: string)
  {
    e.text.Some? && Contains(ToLower(e.text.value), ToLower(identifier))
  }

  /** The element `tap_element` picks: the first one that matches. */
  function Target(elements: seq<UiElement>, identifier: string): (r: Option<nat>)
    ensures r.Some? ==> r.value < |elements| && Matches(elements[r.value], identifier)
    ensures r.Some? ==> forall j | 0 <= j < r.value :: !Matches(elements[j], identifier)
    ensures r.None? <==> forall j | 0 <= j < |elements| :: !Matches(elements[j], identifier)
  {
    if elements == [] then None
    else if Matches(elements[0], identifier) then Some(0)
    else
      var rest := Target(elements[1..], identifier);
      assert forall j | 1 <= j < |elements| :: elements[1..][j - 1] == elements[j];
      if rest.None? then None else Some(rest.value + 1)
  }

  lemma {:induction false} ToLowerIdempotent(s: string)
    ensures ToLower(ToLower(s)) == ToLower(s)
  {
    var t := ToLower(s);
    assert forall i | 0 <= i < |s| :: ToLower(t)[i] == LowerChar(LowerChar(s[i])) == t[i];
  }

  /** The identifier's case does not matter. */
  lemma IdentifierCaseIgnored(elements: seq<UiElement>, identifier: string)
    ensures Target(elements, identifier) == Target(elements, ToLower(identifier))
  {
    ToLowerIdempotent(identifier);
    assert forall e :: Matches(e, identifier) == Matches(e, ToLower(identifier));
    TargetAgrees(elements, identifier, ToLower(identifier));
  }

  /** Two identifiers that every element matches alike pick the same target. */
  lemma {:induction false} TargetAgrees(elements: seq<UiElement>, a: string, b: string)
    requires forall e :: Matches(e, a) == Matches(e, b)
    ensures Target(elements, a) == Target(elements, b)
  {
    if elements != [] {
      TargetAgrees(elements[1..], a, b);
    }
  }

  /** Against the placeholder detector's elements, "login" picks the login
    * button. */
  lemma LoginButtonPicked()
    ensures Target(PlaceholderElements(), "login") == Some(0)
  {
    LoginMatches();
  }

  /** The login button is tapped at its centre, where the element query
    * finds it again. */
  lemma LoginButtonCentre()
    ensures Centre(PlaceholderElements()[0].bounds) == (175, 225)
    ensures ElementAt(PlaceholderElements(), 175, 225) == Some(0)
  {
  }

  /** The login button's text matches "login" whatever its case. */
  lemma LoginMatches()
    ensures Matches(PlaceholderElements()[0], "login")
  {
    var login := "login";
    assert ToLower("Login") == login by {
      assert LowerChar('L') == 'l';
    }
    assert ToLower(login) == login;
    ContainsItself(login);
  }

  class Controller {
    var connectedDevice: Option<string>

    /** `AgentController::new`: no device yet. */
    constructor()
      ensures connectedDevice.None?
    {
      connectedDevice := None;
    }

    /** `connect_device`: always succeeds and records the device. */
    method ConnectDevice(deviceId: string) returns (r: XResult<()>)
      modifies this`connectedDevice
      ensures r.Ok? && connectedDevice == Some(deviceId)
    {
      connectedDevice := Some(deviceId);
      r := Ok(());
    }

    /** `get_device_state`: an error without a device, otherwise the fixed
      * placeholder state for it. */
    function GetDeviceState(): (r: XResult<DeviceState>)
      reads this`connectedDevice
      ensures r.Err? <==> connectedDevice.None?
      ensures r.Err? ==> r.error == NoDevice
      ensures r.Ok? ==> r.value.deviceId == connectedDevice.value && r.value.batteryLevel == 85.0
      ensures r.Ok? ==> r == Ok(PlaceholderState(connectedDevice.value))
    {
      match connectedDevice
      case None => Err(NoDevice)
      case Some(id) => Ok(PlaceholderState(id))
    }

    /** `see`: the placeholder analysis, with nothing detected. */
    function See(now: nat): (r: ScreenAnalysisResult)
      ensures r.uiElements == [] && r.textRegions == []
      ensures !r.facesDetected && r.faceCount == 0
      ensures r.sceneContext == DefaultScene && r.timestamp == now
    {
      ScreenAnalysisResult([], [], false, 0, DefaultScene, now)
    }

    /** `tap_coordinates`: the tap is sent and succeeds. */
    function TapCoordinates(x: int, y: int): (r: XResult<()>)
      ensures r.Ok?
    {
      Ok(())
    }

    /** The search loop of `tap_element`: the first matching element's
      * centre is tapped; `Ok` carries the tapped point. */
    method TapAmong(elements: seq<UiElement>, identifier: string) returns (r: XResult<(int, int)>)
      ensures Target(elements, identifier).None? ==> r == Err(ElementNotFound + identifier)
      ensures Target(elements, identifier).Some? ==>
                r == Ok(Centre(elements[Target(elements, identifier).value].bounds))
    {
      var i := 0;
      while i < |elements|
        invariant 0 <= i <= |elements|
        invariant forall j | 0 <= j < i :: !Matches(elements[j], identifier)
      {
        var e := elements[i];
        if Matches(e, identifier) {
          var (x, y) := Centre(e.bounds);
          var tapped := TapCoordinates(x, y);
          assert Target(elements, identifier) == Some(i);
          return Ok((x, y));
        }
        i := i + 1;
      }
      return Err(ElementNotFound + identifier);
    }

    /** `tap_element`: search what `see` returns. As `see` detects nothing,
      * every identifier is reported missing. */
    method TapElement(identifier: string, now: nat) returns (r: XResult<(int, int)>)
      ensures r == Err(ElementNotFound + identifier)
    {
      var analysis := See(now);
      r := TapAmong(analysis.uiElements, identifier);
    }

    /** `get_capabilities`: every sense and control is available. */
    function GetCapabilities(): (r: XResult<AgentCapabilities>)
      ensures r.Ok? && r.value.vision && r.value.hearing && r.value.speech
      ensures r.Ok? && r.value.hardwareControl && r.value.uiInteraction
    {
      Ok(AgentCapabilities(true, true, true, true, true))
    }

    /** `execute_command`: acknowledges the command, which can be read back
      * from the reply. */
    function ExecuteCommand(command: string): (r: XResult<string>)
      ensures r.Ok? && StartsWith(r.value, Executed)
      ensures r.Ok? && r.value[|Executed|..] == command
    {
      Ok(Executed + command)
    }
  }
}
