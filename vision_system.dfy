/** The perception layer (vision/vision_system.py): the phase classifier,
    the scene analyser with its regions of interest, and the coordinate
    resolver, around the region matcher of module Matcher. */
module Vision {
  import opened Wrappers
  import opened Imaging
  import opened Matcher
  import opened CardNames
  import opened GameStates
  import opened GameInfos

  /** A named grayscale template, as loaded from a file at start-up. */
  datatype Template = Template(name: string, image: Gray)

  /** A template dictionary in its iteration (insertion) order. */
  type Store = seq<Template>

  /** Dictionary keys are distinct. */
  ghost predicate NamesDistinct(store: Store) {
    forall i, j :: 0 <= i < j < |store| ==> store[i].name != store[j].name
  }

  /** Every template is a real image: `cv2.imread` never yields an empty
      array. */
  ghost predicate NonEmptyTemplates(store: Store) {
    forall i :: 0 <= i < |store| ==> store[i].image.height >= 1 && store[i].image.width >= 1
  }

  /** `store.get(name)`. */
  function Lookup(store: Store, name: string): (r: Option<Gray>)
    ensures r.Some? <==> exists i :: 0 <= i < |store| && store[i].name == name
    ensures r.Some? ==> exists i :: 0 <= i < |store| && store[i] == Template(name, r.value)
  {
    if store == [] then None
    else if store[0].name == name then Some(store[0].image)
    else
      var r := Lookup(store[1..], name);
      assert forall i :: 0 <= i < |store| - 1 ==> store[1..][i] == store[i + 1];
      r
  }

  // ----- Regions of interest, for a 720x1280 frame -----

  const HandRoi := Roi(50, 1050, 670, 1230)
  const BattlefieldRoi := Roi(0, 150, 720, 1000)

  /** The enemy side of a battlefield region: its upper half (Python's
      floor division by two) extended 50 pixels down for overlap. */
  function EnemyFieldOf(battlefield: Roi): (r: Roi)
    ensures r.left == battlefield.left && r.top == battlefield.top && r.right == battlefield.right
    ensures var half := r.bottom - 50 - r.top;
      2 * half <= battlefield.bottom - battlefield.top < 2 * half + 2
  {
    Roi(battlefield.left, battlefield.top, battlefield.right,
        battlefield.top + (battlefield.bottom - battlefield.top) / 2 + 50)
  }

  const EnemyFieldRoi := EnemyFieldOf(BattlefieldRoi)

  /** The enemy field ends at row 625 (the source's comment says 575). */
  lemma EnemyFieldRoiValue()
    ensures EnemyFieldRoi == Roi(0, 150, 720, 625)
  {
  }

  // ----- Thresholds -----

  const UiThreshold: real := 0.7
  const CardThreshold: real := 0.85
  const UnitThreshold: real := 0.85
  const LocateThreshold: real := 0.8

  // ----- Phase classifier -----

  const BattleIndicator := "Battle Indicator"
  const PlayButton := "Play Button"
  const OkButton := "OK Button"
  const HomeButton := "Home Button"

  /** Where the named UI template is found on the screen; "not found" when
      the store has no such template. */
  function UiMatch(cv: Cv, ui: Store, screen: Gray, name: string): (r: Option<Point>)
    ensures Lookup(ui, name).None? ==> r.None?
    ensures r.Some? <==>
      && Lookup(ui, name).Some?
      && exists p :: IsAlignment(screen, Lookup(ui, name).value, p)
                     && Score(cv, screen, Lookup(ui, name).value, p) >= UiThreshold
  {
    match Lookup(ui, name)
    case None => None
    case Some(t) => FindTemplate(cv, Some(screen), Some(t), UiThreshold)
  }

  /** The early-return chain of `get_current_game_state` on a preprocessed
      screen. */
  function ClassifyScreen(cv: Cv, ui: Store, screen: Gray): (s: GameState)
    ensures s != Initializing && s != Stopped
  {
    if UiMatch(cv, ui, screen, BattleIndicator).Some? then InBattle
    else if UiMatch(cv, ui, screen, PlayButton).Some? then OnMenu
    else if UiMatch(cv, ui, screen, OkButton).Some? then PostGame
    else if UiMatch(cv, ui, screen, HomeButton).Some? then OnMenu
    else InBattle
  }

  /** The classifier as a priority table: the first rule whose template is
      found decides the phase. */
  const PhaseRules: seq<(string, GameState)> :=
    [(BattleIndicator, InBattle), (PlayButton, OnMenu), (OkButton, PostGame), (HomeButton, OnMenu)]

  const FallbackPhase := InBattle

  /** The phase decided by the rules from index i on. */
  function FirstMatchingRule(cv: Cv, ui: Store, screen: Gray, rules: seq<(string, GameState)>,
                             i: nat, fallback: GameState): (s: GameState)
    ensures s == fallback || exists k :: i <= k < |rules| && s == rules[k].1
    decreases |rules| - i
  {
    if i >= |rules| then fallback
    else if UiMatch(cv, ui, screen, rules[i].0).Some? then rules[i].1
    else FirstMatchingRule(cv, ui, screen, rules, i + 1, fallback)
  }

  lemma ClassifyIsFirstMatchingRule(cv: Cv, ui: Store, screen: Gray)
    ensures ClassifyScreen(cv, ui, screen) == FirstMatchingRule(cv, ui, screen, PhaseRules, 0, FallbackPhase)
  {
    var rules, f := PhaseRules, FallbackPhase;
    if UiMatch(cv, ui, screen, BattleIndicator).Some? {
      assert rules[0].0 == BattleIndicator;
    } else {
      assert FirstMatchingRule(cv, ui, screen, rules, 0, f) == FirstMatchingRule(cv, ui, screen, rules, 1, f);
      if UiMatch(cv, ui, screen, PlayButton).Some? {
        assert rules[1].0 == PlayButton;
      } else {
        assert FirstMatchingRule(cv, ui, screen, rules, 1, f) == FirstMatchingRule(cv, ui, screen, rules, 2, f);
        if UiMatch(cv, ui, screen, OkButton).Some? {
          assert rules[2].0 == OkButton;
        } else {
          assert FirstMatchingRule(cv, ui, screen, rules, 2, f) == FirstMatchingRule(cv, ui, screen, rules, 3, f);
          assert rules[3].0 == HomeButton;
          assert FirstMatchingRule(cv, ui, screen, rules, 4, f) == f;
        }
      }
    }
  }

  /** Each phase, in terms of which UI templates are found: a detected
      battle indicator wins over everything; a play button over the OK and
      home buttons; with nothing found the phase is "in battle". */
  lemma ClassifyPriority(cv: Cv, ui: Store, screen: Gray)
    ensures var b := UiMatch(cv, ui, screen, BattleIndicator).Some?;
      var p := UiMatch(cv, ui, screen, PlayButton).Some?;
      var o := UiMatch(cv, ui, screen, OkButton).Some?;
      var h := UiMatch(cv, ui, screen, HomeButton).Some?;
      var s := ClassifyScreen(cv, ui, screen);
      && (s == InBattle <==> b || (!p && !o && !h))
      && (s == OnMenu <==> !b && (p || (!o && h)))
      && (s == PostGame <==> !b && !p && o)
  {
  }

  /** With no UI templates loaded, every screen is classified as in battle. */
  lemma ClassifyWithoutUiTemplates(cv: Cv, screen: Gray)
    ensures ClassifyScreen(cv, [], screen) == InBattle
  {
  }

  // ----- Scene analyser -----

  /** A template found in a region: its name and full-frame position. */
  datatype Match = Match(name: string, position: Point)

  function Shift(p: Point, offset: Point): Point {
    Point(p.x + offset.x, p.y + offset.y)
  }

  /** The matcher with its search region and threshold fixed: where a
      template image is found in that region, if anywhere. */
  type Probe = Gray -> Option<Point>

  function ProbeOf(cv: Cv, region: Gray, threshold: real): Probe {
    t => FindTemplate(cv, Some(region), Some(t), threshold)
  }

  /** One pass over a template store with a probe: at most one match per
      template, in store order, each remapped by `offset`. */
  function Detections(probe: Probe, store: Store, offset: Point): (ms: seq<Match>)
    ensures |ms| <= |store|
    decreases |store|
  {
    if store == [] then []
    else
      var last := store[|store| - 1];
      var earlier := Detections(probe, store[..|store| - 1], offset);
      match probe(last.image)
      case Some(p) => earlier + [Match(last.name, Shift(p, offset))]
      case None => earlier
  }

  /** The detections of a store in a region of the screen: the region is
      cropped to the image, an empty crop finds nothing, and positions are
      remapped by the region's own (unclamped) top-left corner. */
  function RoiDetections(cv: Cv, screen: Gray, roi: Roi, store: Store, threshold: real): (ms: seq<Match>)
    ensures IsEmpty(Crop(screen, roi)) ==> ms == []
    ensures |ms| <= |store|
  {
    var crop := Crop(screen, roi);
    if IsEmpty(crop) then [] else Detections(ProbeOf(cv, crop, threshold), store, Point(roi.left, roi.top))
  }

  const CardCostPlaceholder := 3
  const UnitHealthPlaceholder := 100
  const FullTowers := TowerHealth(3000, 2000, 2000)

  function AsCard(m: Match): DetectedCard {
    DetectedCard(m.name, m.position, CardCostPlaceholder, "unit")
  }

  function AsUnit(m: Match): DetectedUnit {
    DetectedUnit(m.name, m.position, UnitHealthPlaceholder, "unit")
  }

  function CardsOf(ms: seq<Match>): (cs: seq<DetectedCard>)
    ensures |cs| == |ms| && forall k :: 0 <= k < |ms| ==> cs[k] == AsCard(ms[k])
  {
    seq(|ms|, k requires 0 <= k < |ms| => AsCard(ms[k]))
  }

  function UnitsOf(ms: seq<Match>): (us: seq<DetectedUnit>)
    ensures |us| == |ms| && forall k :: 0 <= k < |ms| ==> us[k] == AsUnit(ms[k])
  {
    seq(|ms|, k requires 0 <= k < |ms| => AsUnit(ms[k]))
  }

  /** One more template extends a pass by that template's detection, if any. */
  lemma DetectionsExtend(probe: Probe, store: Store, i: nat, offset: Point)
    requires i < |store|
    ensures var found := probe(store[i].image);
      Detections(probe, store[..i + 1], offset)
        == Detections(probe, store[..i], offset)
           + (if found.Some? then [Match(store[i].name, Shift(found.value, offset))] else [])
  {
    assert store[..i + 1][..i] == store[..i];
  }

  /** The `game_info` of `analyze_battlefield` on a preprocessed screen:
      cards from the hand region, enemy units from the enemy field, and
      fields that do not depend on the image. */
  function Analyze(cv: Cv, cards: Store, units: Store, screen: Gray): (info: GameInfo)
    ensures info.playerUnits == Some([])
    ensures info.currentElixir == Some(10.0)
    ensures info.playerTowerHealth == Some(TowerHealth(3000, 2000, 2000))
    ensures info.opponentTowerHealth == Some(TowerHealth(3000, 2000, 2000))
    ensures info.gameTimeSeconds == Some(60)
    ensures info.cardsInHand.Some? && |info.cardsInHand.value| <= |cards|
    ensures info.opponentUnits.Some? && |info.opponentUnits.value| <= |units|
  {
    GameInfo(
      playerUnits := Some([]),
      opponentUnits := Some(UnitsOf(RoiDetections(cv, screen, EnemyFieldRoi, units, UnitThreshold))),
      cardsInHand := Some(CardsOf(RoiDetections(cv, screen, HandRoi, cards, CardThreshold))),
      currentElixir := Some(10.0),
      playerTowerHealth := Some(FullTowers),
      opponentTowerHealth := Some(FullTowers),
      gameTimeSeconds := Some(60))
  }

  /** Each detection comes from its own template, in store order: the
      returned indices are strictly increasing, and the k-th detection is
      template src[k] found at its position less the offset. */
  lemma {:induction false} DetectionSources(probe: Probe, store: Store, offset: Point)
    returns (src: seq<nat>)
    ensures var ms := Detections(probe, store, offset);
      && |src| == |ms|
      && (forall k, l :: 0 <= k < l < |src| ==> src[k] < src[l])
      && forall k :: 0 <= k < |src| ==>
           && src[k] < |store|
           && ms[k].name == store[src[k]].name
           && probe(store[src[k]].image).Some?
           && ms[k].position == Shift(probe(store[src[k]].image).value, offset)
    decreases |store|
  {
    if store == [] {
      src := [];
    } else {
      var n := |store| - 1;
      var earlier := DetectionSources(probe, store[..n], offset);
      var before := Detections(probe, store[..n], offset);
      var ms := Detections(probe, store, offset);
      var found := probe(store[n].image);
      if found.Some? {
        assert ms == before + [Match(store[n].name, Shift(found.value, offset))];
        src := earlier + [n];
      } else {
        assert ms == before;
        src := earlier;
      }
      forall k | 0 <= k < |earlier|
        ensures src[k] == earlier[k] && ms[k] == before[k] && store[src[k]] == store[..n][earlier[k]]
      {
      }
    }
  }

  /** Every template found in the region contributes a detection. */
  lemma {:induction false} DetectionsComplete(probe: Probe, store: Store, offset: Point, j: nat)
    requires j < |store|
    requires probe(store[j].image).Some?
    ensures Match(store[j].name, Shift(probe(store[j].image).value, offset))
            in Detections(probe, store, offset)
    decreases |store|
  {
    var n := |store| - 1;
    if j < n {
      DetectionsComplete(probe, store[..n], offset, j);
    }
  }

  /** Distinct template names give distinct detection names: at most one
      detection per template. */
  lemma DetectionNamesDistinct(probe: Probe, store: Store, offset: Point)
    requires NamesDistinct(store)
    ensures var ms := Detections(probe, store, offset);
      forall k, l :: 0 <= k < l < |ms| ==> ms[k].name != ms[l].name
  {
    var src := DetectionSources(probe, store, offset);
  }

  /** An empty region finds no (non-empty) template, so the source's
      `size == 0` test only saves the work. */
  lemma {:induction false} EmptyRegionDetectsNothing(cv: Cv, region: Gray, store: Store, offset: Point, threshold: real)
    requires IsEmpty(region) && NonEmptyTemplates(store)
    ensures Detections(ProbeOf(cv, region, threshold), store, offset) == []
    decreases |store|
  {
    if store != [] {
      EmptyRegionDetectsNothing(cv, region, store[..|store| - 1], offset, threshold);
    }
  }

  /** For a region whose corner is inside the frame, every detection lies
      in the part of the region that is inside the frame. */
  lemma DetectionsInsideRegion(cv: Cv, screen: Gray, roi: Roi, store: Store, threshold: real)
    requires 0 <= roi.left && 0 <= roi.top && 0 <= roi.right && 0 <= roi.bottom
    requires NonEmptyTemplates(store)
    ensures forall m :: m in RoiDetections(cv, screen, roi, store, threshold) ==>
      && roi.left <= m.position.x < Min(roi.right, screen.width)
      && roi.top <= m.position.y < Min(roi.bottom, screen.height)
  {
    var crop := Crop(screen, roi);
    if !IsEmpty(crop) {
      var offset := Point(roi.left, roi.top);
      var probe := ProbeOf(cv, crop, threshold);
      var ms := Detections(probe, store, offset);
      var src := DetectionSources(probe, store, offset);
      CropIsClampedRegion(screen, roi);
      forall m | m in ms
        ensures roi.left <= m.position.x < Min(roi.right, screen.width)
        ensures roi.top <= m.position.y < Min(roi.bottom, screen.height)
      {
        var k :| 0 <= k < |ms| && ms[k] == m;
        assert store[src[k]].image.height >= 1 && store[src[k]].image.width >= 1;
      }
    }
  }

  /** Cards are found inside the hand region and units inside the enemy
      field, whatever the frame. */
  lemma SceneInsideRegions(cv: Cv, cards: Store, units: Store, screen: Gray)
    requires NonEmptyTemplates(cards) && NonEmptyTemplates(units)
    ensures var info := Analyze(cv, cards, units, screen);
      && (forall c :: c in info.cardsInHand.value ==>
            50 <= c.position.x < 670 && 1050 <= c.position.y < 1230
            && c.position.x < screen.width && c.position.y < screen.height)
      && (forall u :: u in info.opponentUnits.value ==>
            0 <= u.position.x < 720 && 150 <= u.position.y < 625
            && u.position.x < screen.width && u.position.y < screen.height)
  {
    DetectionsInsideRegion(cv, screen, HandRoi, cards, CardThreshold);
    DetectionsInsideRegion(cv, screen, EnemyFieldRoi, units, UnitThreshold);
    var info := Analyze(cv, cards, units, screen);
    var hand := RoiDetections(cv, screen, HandRoi, cards, CardThreshold);
    var field := RoiDetections(cv, screen, EnemyFieldRoi, units, UnitThreshold);
    forall c | c in info.cardsInHand.value
      ensures 50 <= c.position.x < 670 && 1050 <= c.position.y < 1230
      ensures c.position.x < screen.width && c.position.y < screen.height
    {
      var k :| 0 <= k < |hand| && c == AsCard(hand[k]);
      assert hand[k] in hand;
    }
    forall u | u in info.opponentUnits.value
      ensures 0 <= u.position.x < 720 && 150 <= u.position.y < 625
      ensures u.position.x < screen.width && u.position.y < screen.height
    {
      var k :| 0 <= k < |field| && u == AsUnit(field[k]);
      assert field[k] in field;
    }
  }

  /** A frame too small to reach the hand region (such as 1x1) shows no
      cards and no enemy units. */
  lemma TinyFrameShowsNothing(cv: Cv, cards: Store, units: Store, screen: Gray)
    requires screen.height <= 150
    ensures Analyze(cv, cards, units, screen).cardsInHand == Some([])
    ensures Analyze(cv, cards, units, screen).opponentUnits == Some([])
  {
  }

  // ----- The vision system object -----

  class VisionSystem {
    const cv: Cv
    const cardTemplates: Store
    const uiTemplates: Store
    const enemyUnitTemplates: Store

    /** The last frame handed to the classifier or the analyser. */
    var latestScreenshot: Option<Frame>

    ghost predicate Valid() {
      && NamesDistinct(cardTemplates) && NonEmptyTemplates(cardTemplates)
      && NamesDistinct(uiTemplates) && NonEmptyTemplates(uiTemplates)
      && NamesDistinct(enemyUnitTemplates) && NonEmptyTemplates(enemyUnitTemplates)
    }

    /** A vision system over already-loaded template stores; no frame has
        been seen yet. */
    constructor (cv: Cv, cards: Store, ui: Store, units: Store)
      requires NamesDistinct(cards) && NonEmptyTemplates(cards)
      requires NamesDistinct(ui) && NonEmptyTemplates(ui)
      requires NamesDistinct(units) && NonEmptyTemplates(units)
      ensures Valid()
      ensures this.cv == cv && cardTemplates == cards && uiTemplates == ui && enemyUnitTemplates == units
      ensures latestScreenshot == None
    {
      this.cv := cv;
      cardTemplates := cards;
      uiTemplates := ui;
      enemyUnitTemplates := units;
      latestScreenshot := None;
    }

    /** `get_current_game_state`: remembers the frame and classifies its
        preprocessed image. */
    method GetCurrentGameState(frame: Frame) returns (state: GameState)
      modifies this`latestScreenshot
      ensures latestScreenshot == Some(frame)
      ensures state == ClassifyScreen(cv, uiTemplates, Preprocess(cv, frame))
    {
      latestScreenshot := Some(frame);
      var processed := Preprocess(cv, frame);
      state := ClassifyScreen(cv, uiTemplates, processed);
    }

    /** `analyze_battlefield`: remembers the frame, then reads the hand and
        the enemy field of its preprocessed image. */
    method AnalyzeBattlefield(frame: Frame) returns (info: GameInfo)
      modifies this`latestScreenshot
      ensures latestScreenshot == Some(frame)
      ensures info == Analyze(cv, cardTemplates, enemyUnitTemplates, Preprocess(cv, frame))
    {
      latestScreenshot := Some(frame);
      var processed := Preprocess(cv, frame);
      var cardsInHand := DetectCardsInHand(processed);
      var opponentUnits := DetectOpponentUnits(processed);
      info := GameInfo(
        playerUnits := Some([]),
        opponentUnits := Some(opponentUnits),
        cardsInHand := Some(cardsInHand),
        currentElixir := Some(10.0),
        playerTowerHealth := Some(FullTowers),
        opponentTowerHealth := Some(FullTowers),
        gameTimeSeconds := Some(60));
    }

    /** The loop shared by the card and the enemy-unit passes of
        `analyze_battlefield`: every template of the store, in store order,
        matched against the region, each hit remapped by `offset`. */
    method Scan(region: Gray, store: Store, offset: Point, threshold: real) returns (ms: seq<Match>)
      ensures ms == Detections(ProbeOf(cv, region, threshold), store, offset)
    {
      ms := [];
      ghost var probe := ProbeOf(cv, region, threshold);
      for i := 0 to |store|
        invariant ms == Detections(probe, store[..i], offset)
      {
        var template := store[i];
        var found := FindTemplate(cv, Some(region), Some(template.image), threshold);
        assert found == probe(template.image);
        DetectionsExtend(probe, store, i, offset);
        if found.Some? {
          ms := ms + [Match(template.name, Shift(found.value, offset))];
        }
      }
      assert store[..|store|] == store;
    }

    /** The card pass of `analyze_battlefield`: the hand region, skipped
        when its crop is empty, with card records for the hits. */
    method DetectCardsInHand(processed: Gray) returns (cardsInHand: seq<DetectedCard>)
      ensures cardsInHand == CardsOf(RoiDetections(cv, processed, HandRoi, cardTemplates, CardThreshold))
    {
      cardsInHand := [];
      var hand := Crop(processed, HandRoi);
      if !IsEmpty(hand) {
        var ms := Scan(hand, cardTemplates, Point(HandRoi.left, HandRoi.top), CardThreshold);
        cardsInHand := CardsOf(ms);
      }
    }

    /** The enemy-unit pass of `analyze_battlefield`: the enemy field,
        skipped when its crop is empty, with unit records for the hits. */
    method DetectOpponentUnits(processed: Gray) returns (opponentUnits: seq<DetectedUnit>)
      ensures opponentUnits == UnitsOf(RoiDetections(cv, processed, EnemyFieldRoi, enemyUnitTemplates, UnitThreshold))
    {
      opponentUnits := [];
      var field := Crop(processed, EnemyFieldRoi);
      if !IsEmpty(field) {
        var ms := Scan(field, enemyUnitTemplates, Point(EnemyFieldRoi.left, EnemyFieldRoi.top), UnitThreshold);
        opponentUnits := UnitsOf(ms);
      }
    }

    /** `get_card_coordinates`: the centre of the named card's template on
        the whole of the last frame, "not found" when there is no frame yet
        or no template under the normalised name. */
    function CardCoordinates(cardName: string): (r: Option<Point>)
      reads this
      requires Valid()
      ensures latestScreenshot.None? ==> r.None?
      ensures Lookup(cardTemplates, NormalizeName(cardName)).None? ==> r.None?
      ensures latestScreenshot.Some? ==>
        r == FindTemplate(cv, Some(Preprocess(cv, latestScreenshot.value)),
                          Lookup(cardTemplates, NormalizeName(cardName)), LocateThreshold)
      ensures r.Some? ==>
        0 <= r.value.x < latestScreenshot.value.width && 0 <= r.value.y < latestScreenshot.value.height
    {
      if latestScreenshot.None? then None
      else
        var key := NormalizeName(cardName);
        match Lookup(cardTemplates, key)
        case None => None
        case Some(template) =>
          var screen := Preprocess(cv, latestScreenshot.value);
          FindTemplate(cv, Some(screen), Some(template), LocateThreshold)
    }
  }

  /** Asking for a card before any frame has been captured finds nothing. */
  method LocateBeforeAnyCapture(cv: Cv, cards: Store, ui: Store, units: Store, cardName: string)
    returns (r: Option<Point>)
    requires NamesDistinct(cards) && NonEmptyTemplates(cards)
    requires NamesDistinct(ui) && NonEmptyTemplates(ui)
    requires NamesDistinct(units) && NonEmptyTemplates(units)
    ensures r.None?
  {
    var vision := new VisionSystem(cv, cards, ui, units);
    r := vision.CardCoordinates(cardName);
  }
}
