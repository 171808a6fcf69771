// Screen analysis for agents (kmobile-desktop/src/computer_vision.rs): the
// analyzer's state after each analysis, the bounded history of analysed
// frames, and the queries over the detected elements and text. The
// detectors themselves are placeholders in the source, returning fixed
// answers, and are modelled as those fixed answers; the screen hash and
// the clock are parameters.

module ComputerVision {
  import opened Common

  datatype Rectangle = Rectangle(x: int, y: int, width: int, height: int)

  datatype UiElementType =
    | Button | TextField | Label | Image | Icon | Menu | List | Card | Tab
    | NavigationBar | StatusBar | Keyboard | Dialog | WebView | VideoPlayer | UnknownElement

  /** Confidences and font sizes are floats that are never computed with. */
  datatype UiElement = UiElement(
    elementType: UiElementType,
    bounds: Rectangle,
    text: Option<string>,
    clickable: bool,
    enabled: bool,
    confidence: real,
    attributes: map<string, string>)

  datatype TextRegion = TextRegion(
    text: string,
    bounds: Rectangle,
    confidence: real,
    language: Option<string>,
    fontSize: Option<real>)

  datatype ScreenType = Home | App | Settings | KeyboardScreen | Notification | DialogScreen | Web | Game | Video | Main

  datatype ActionContext = Browsing | Typing | Gaming | Watching | Calling | Messaging | Shopping | Navigation | UnknownAction

  datatype SceneContext = SceneContext(
    appName: Option<string>,
    screenType: ScreenType,
    userActionContext: ActionContext,
    complexityScore: real)

  datatype ScreenAnalysisResult = ScreenAnalysisResult(
    uiElements: seq<UiElement>,
    textRegions: seq<TextRegion>,
    facesDetected: bool,
    faceCount: nat,
    sceneContext: SceneContext,
    timestamp: nat)

  datatype ScreenFrame = ScreenFrame(
    timestamp: nat,
    elements: seq<UiElement>,
    textRegions: seq<TextRegion>,
    screenHash: string,
    changesDetected: bool)

  datatype VisionConfig = VisionConfig(
    enableOcr: bool,
    enableUiDetection: bool,
    enableFaceDetection: bool,
    confidenceThreshold: real,
    frameHistorySize: nat)

  /** `VisionConfig::default`: text and elements on, faces off (privacy by
    * default), ten frames of history. */
  const DefaultConfig := VisionConfig(true, true, false, 0.7, 10)

  /** What the placeholder element detector reports for every image. */
  function PlaceholderElements(): seq<UiElement>
  {
    [UiElement(Button, Rectangle(100, 200, 150, 50), Some("Login"), true, true, 0.9, map[]),
     UiElement(TextField, Rectangle(50, 100, 200, 40), Some("Username"), true, true, 0.8, map[])]
  }

  /** What the placeholder text recognizer reports for every image. */
  function PlaceholderText(): seq<TextRegion>
  {
    [TextRegion("[OCR text would appear here]", Rectangle(100, 100, 200, 30), 0.9, Some("en"), Some(16.0))]
  }

  /** What the placeholder scene analysis reports for every image. */
  const PlaceholderScene := SceneContext(Some("Unknown App"), Main, Browsing, 0.5)

  const DefaultScene := SceneContext(None, Main, UnknownAction, 0.0)

  // ---------------------------------------------------------------------
  // Queries

  /** The half-open box [x, x + width) by [y, y + height) holds the point. */
  predicate Holds(r: Rectangle, x: int, y: int)
  {
    r.x <= x < r.x + r.width && r.y <= y < r.y + r.height
  }

  /** `find_element_at_position`: the first element whose box holds the point. */
  function ElementAt(elements: seq<UiElement>, x: int, y: int): (r: Option<nat>)
    ensures r.Some? ==> r.value < |elements| && Holds(elements[r.value].bounds, x, y)
    ensures r.Some? ==> forall j | 0 <= j < r.value :: !Holds(elements[j].bounds, x, y)
    ensures r.None? <==> forall j | 0 <= j < |elements| :: !Holds(elements[j].bounds, x, y)
  {
    if elements == [] then None
    else if Holds(elements[0].bounds, x, y) then Some(0)
    else
      var rest := ElementAt(elements[1..], x, y);
      assert forall j | 1 <= j < |elements| :: elements[1..][j - 1] == elements[j];
      if rest.None? then None else Some(rest.value + 1)
  }

  /** `get_clickable_elements`: the clickable elements, in their order. */
  function Clickable(elements: seq<UiElement>): (r: seq<UiElement>)
    ensures forall e | e in r :: e.clickable
    ensures forall e | e in elements :: e.clickable ==> e in r
    ensures forall e | e in r :: e in elements
    ensures |r| <= |elements|
  {
    if elements == [] then []
    else
      var prev := Clickable(elements[..|elements| - 1]);
      assert forall e | e in elements :: e in elements[..|elements| - 1] || e == Last(elements);
      prev + (if Last(elements).clickable then [Last(elements)] else [])
  }

  /** Filtering a concatenation filters each part and keeps their order. */
  lemma {:induction false} ClickableConcat(a: seq<UiElement>, b: seq<UiElement>)
    ensures Clickable(a + b) == Clickable(a) + Clickable(b)
    decreases |b|
  {
    if b == [] {
      assert a + b == a;
    } else {
      var init, e := b[..|b| - 1], Last(b);
      assert (a + b)[..|a + b| - 1] == a + init;
      var kept := if e.clickable then [e] else [];
      calc {
        Clickable(a + b);
        Clickable(a + init) + kept;
        { ClickableConcat(a, init); }
        (Clickable(a) + Clickable(init)) + kept;
        { ConcatAssociates(Clickable(a), Clickable(init), kept); }
        Clickable(a) + Clickable(b);
      }
    }
  }

  /** One element is kept exactly when it is clickable. */
  lemma ClickableSingle(e: UiElement)
    ensures Clickable([e]) == if e.clickable then [e] else []
  {
    assert [e][..0] == [];
  }

  /** The case-insensitive match `search_text` uses. */
  predicate Mentions(region: TextRegion, query: string)
  {
    Contains(ToLower(region.text), ToLower(query))
  }

  /** `search_text`: the regions mentioning the query, in their order. */
  function Mentioning(regions: seq<TextRegion>, query: string): (r: seq<TextRegion>)
    ensures forall t | t in r :: Mentions(t, query)
    ensures forall t | t in regions :: Mentions(t, query) ==> t in r
    ensures forall t | t in r :: t in regions
    ensures |r| <= |regions|
  {
    if regions == [] then []
    else
      var prev := Mentioning(regions[..|regions| - 1], query);
      assert forall t | t in regions :: t in regions[..|regions| - 1] || t == Last(regions);
      prev + (if Mentions(Last(regions), query) then [Last(regions)] else [])
  }

  /** Filtering a concatenation filters each part and keeps their order. */
  lemma {:induction false} MentioningConcat(a: seq<TextRegion>, b: seq<TextRegion>, query: string)
    ensures Mentioning(a + b, query) == Mentioning(a, query) + Mentioning(b, query)
    decreases |b|
  {
    if b == [] {
      assert a + b == a;
    } else {
      var init, t := b[..|b| - 1], Last(b);
      assert (a + b)[..|a + b| - 1] == a + init;
      var kept := if Mentions(t, query) then [t] else [];
      calc {
        Mentioning(a + b, query);
        Mentioning(a + init, query) + kept;
        { MentioningConcat(a, init, query); }
        (Mentioning(a, query) + Mentioning(init, query)) + kept;
        { ConcatAssociates(Mentioning(a, query), Mentioning(init, query), kept); }
        Mentioning(a, query) + Mentioning(b, query);
      }
    }
  }

  /** One region is kept exactly when it mentions the query. */
  lemma MentioningSingle(t: TextRegion, query: string)
    ensures Mentioning([t], query) == if Mentions(t, query) then [t] else []
  {
    assert [t][..0] == [];
  }

  /** Every region mentions the empty query. */
  lemma {:induction false} EmptyQueryKeepsAll(regions: seq<TextRegion>)
    ensures Mentioning(regions, "") == regions
  {
    if regions != [] {
      EmptyQueryKeepsAll(regions[..|regions| - 1]);
      assert OccursAt(ToLower(Last(regions).text), ToLower(""), 0);
      assert regions == regions[..|regions| - 1] + [Last(regions)];
    }
  }

  /** The history after one more frame: appended, then the oldest dropped
    * once it is over the limit. */
  function Recorded(history: seq<ScreenFrame>, frame: ScreenFrame, limit: nat): (h: seq<ScreenFrame>)
    ensures |history| <= limit ==> |h| <= limit
    ensures limit > 0 ==> h != [] && Last(h) == frame
    ensures h == history + [frame] || h == (history + [frame])[1..]
  {
    var pushed := history + [frame];
    if |pushed| > limit then pushed[1..] else pushed
  }

  /** A full history keeps the newest `limit` frames: one frame in, the
    * oldest out. */
  lemma RecordedSlides(history: seq<ScreenFrame>, frame: ScreenFrame, limit: nat)
    requires |history| == limit
    ensures Recorded(history, frame, limit) == (if limit == 0 then [] else history[1..] + [frame])
  {
  }

  class Analyzer {
    var currentFrame: Option<seq<byte>>
    var detectedElements: seq<UiElement>
    var screenText: seq<TextRegion>
    var frameHistory: seq<ScreenFrame>
    var config: VisionConfig

    /** The history never exceeds the configured limit. */
    predicate Valid()
      reads this
    {
      |frameHistory| <= config.frameHistorySize
    }

    /** `ScreenAnalyzer::new`: nothing seen yet, default configuration. */
    constructor()
      ensures Valid() && config == DefaultConfig
      ensures currentFrame.None? && detectedElements == [] && screenText == [] && frameHistory == []
    {
      currentFrame := None;
      detectedElements := [];
      screenText := [];
      frameHistory := [];
      config := DefaultConfig;
    }

    /** `detect_changes_from_previous_frame`: every frame counts as a change. */
    function DetectChanges(analysis: ScreenAnalysisResult): (changed: bool)
      reads this`frameHistory
      ensures changed
    {
      if frameHistory == [] then true else true
    }

    /** `store_frame_in_history`: record the analysis, stamped and hashed,
      * and keep the history within its limit. */
    method StoreFrameInHistory(analysis: ScreenAnalysisResult, now: nat, hash: string)
      modifies this`frameHistory
      requires Valid()
      ensures Valid()
      ensures frameHistory == Recorded(old(frameHistory),
                                       ScreenFrame(now, analysis.uiElements, analysis.textRegions, hash, true),
                                       config.frameHistorySize)
    {
      var frame := ScreenFrame(now, analysis.uiElements, analysis.textRegions, hash, DetectChanges(analysis));
      frameHistory := frameHistory + [frame];
      if |frameHistory| > config.frameHistorySize {
        frameHistory := frameHistory[1..];
      }
    }

    /** `analyze_screen`: keep the image, run the detectors the
      * configuration enables (overwriting what they found before), and
      * record the frame. `now` is the clock and `hash` the screen hash. */
    method AnalyzeScreen(image: seq<byte>, now: nat, hash: string) returns (r: ScreenAnalysisResult)
      modifies this`currentFrame, this`detectedElements, this`screenText, this`frameHistory
      requires Valid()
      ensures Valid()
      ensures currentFrame == Some(image)
      ensures config.enableUiDetection ==> detectedElements == PlaceholderElements() && r.uiElements == detectedElements
      ensures !config.enableUiDetection ==> detectedElements == old(detectedElements) && r.uiElements == []
      ensures config.enableOcr ==> screenText == PlaceholderText() && r.textRegions == screenText
      ensures !config.enableOcr ==> screenText == old(screenText) && r.textRegions == []
      ensures !r.facesDetected && r.faceCount == 0
      ensures r.sceneContext == PlaceholderScene && r.timestamp == now
      ensures frameHistory == Recorded(old(frameHistory),
                                       ScreenFrame(now, r.uiElements, r.textRegions, hash, true),
                                       config.frameHistorySize)
    {
      currentFrame := Some(image);
      r := ScreenAnalysisResult([], [], false, 0, DefaultScene, now);
      if config.enableUiDetection {
        detectedElements := PlaceholderElements();
        r := r.(uiElements := detectedElements);
      }
      if config.enableOcr {
        screenText := PlaceholderText();
        r := r.(textRegions := screenText);
      }
      if config.enableFaceDetection {
        var faces: seq<Rectangle> := [];
        r := r.(facesDetected := faces != [], faceCount := |faces|);
      }
      r := r.(sceneContext := PlaceholderScene);
      StoreFrameInHistory(r, now, hash);
    }

    /** `get_clickable_elements` */
    function GetClickableElements(): (r: seq<UiElement>)
      reads this`detectedElements
      ensures r == Clickable(detectedElements)
      ensures forall e | e in r :: e.clickable && e in detectedElements
    {
      Clickable(detectedElements)
    }

    /** `find_element_at_position` */
    function FindElementAtPosition(x: int, y: int): (r: Option<UiElement>)
      reads this`detectedElements
      ensures r.Some? <==> exists j | 0 <= j < |detectedElements| :: Holds(detectedElements[j].bounds, x, y)
      ensures r.Some? ==> r.value == detectedElements[ElementAt(detectedElements, x, y).value]
    {
      match ElementAt(detectedElements, x, y)
      case Some(i) => Some(detectedElements[i])
      case None => None
    }

    /** `search_text` */
    function SearchText(query: string): (r: seq<TextRegion>)
      reads this`screenText
      ensures r == Mentioning(screenText, query)
      ensures forall t | t in r :: t in screenText && Mentions(t, query)
    {
      Mentioning(screenText, query)
    }
  }

  /** After a default analysis the login button is found at its centre, and
    * both placeholder elements are clickable. */
  lemma PlaceholderQueries()
    ensures ElementAt(PlaceholderElements(), 175, 225) == Some(0)
    ensures Clickable(PlaceholderElements()) == PlaceholderElements()
  {
    var e := PlaceholderElements();
    assert e[..1] == [e[0]];
    assert e[..|e| - 1] == e[..1];
    assert Clickable(e[..1]) == Clickable([])  + [e[0]];
  }
}
