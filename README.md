# Perception and decision core of a card-battle bot, in Dafny

This project models the two self-contained parts of a bot that plays a
real-time mobile card-battle game from screenshots:

- **The vision system** (`vision/vision_system.py`). It has three parts:
  - The **region matcher** finds a grayscale template in a search image. It
    returns the template's centre when the best normalised-correlation score
    reaches a threshold.
  - The **phase classifier** tries four UI templates in a fixed priority
    order: battle indicator, play button, OK button, home button.
  - The **scene analyser** crops the hand region and the enemy field. It runs
    every card or enemy-unit template over its crop, in template-store order,
    and shifts each hit back to full-frame coordinates. It then builds the
    `game_info` record, whose other fields are fixed placeholders.

  The **coordinate resolver** looks up a card by its normalised name
  (`'_'` → `' '`, then Python's `str.title()`) and searches the whole last
  frame for it. The object remembers the last frame it was given.
- **The strategy engine** (`strategy/strategy_engine.py`). Its cost table
  charges 99 elixir for any unknown card. Its policy keeps the affordable
  cards and sorts them by cost with Python's stable `sorted`. It plays the
  first one, at a lane chosen from the first enemy unit's x-coordinate, or at
  a fixed offensive point when there is no threat.

Modules, one per file:

| file | module | models |
|---|---|---|
| wrappers.dfy | `Wrappers` | `None` results and `dict.get` defaults |
| game_states.dfy | `GameStates` | the five game phases |
| imaging.dfy | `Imaging` | frames and grayscale images, points, regions, the opaque OpenCV calls, numpy cropping |
| matcher.dfy | `Matcher` | `_find_template` with `minMaxLoc` as an argmax |
| card_names.dfy | `CardNames` | the name normalisation used when loading and looking up templates |
| game_info.dfy | `GameInfos` | the `game_info` dictionary |
| vision_system.dfy | `Vision` | regions, the classifier, the analyser, the `VisionSystem` class |
| strategy_engine.dfy | `Strategy` | the cost table, the stable sort, the policy |
| battle_turn.dfy | `BattleTurn` | the analyser's scene handed to the policy |

Modelling choices:

- **OpenCV stays opaque.** A `Cv` value holds two functions:
  - the grayscale-and-blur intensity of a frame pixel;
  - the correlation score of a template at an alignment.

  The region matcher is proved against any such functions.
- **Argmax ties are left open.** The model's argmax scans row by row and
  keeps the first maximum. The contracts promise only *some*
  highest-scoring alignment, because `minMaxLoc`'s tie-breaking is not part
  of the source.
- **Cropping uses numpy slice semantics.** This includes a negative end,
  which counts back from the far edge. Every region in the source has
  non-negative ends. For those, `Imaging.CropIsClampedRegion` proves that the
  crop is `[max(0, start), min(dim, end))`.
- **Hits are shifted by the unclamped corner.** A hit is remapped by the
  region's own top-left corner, as the source does, not by the clamped one.
- **Detection passes are written once.** The card pass and the
  enemy-unit pass share one loop, `VisionSystem.Scan`. The lemmas about
  detection hold for any *probe*, meaning the matcher with its search
  region and threshold fixed.
- **Template dictionaries keep their order.** They are sequences of
  (name, image) in insertion order, because detection order follows them.
- **`game_info` keys are optional.** Each key is an `Option`, because the
  policy reads it with `.get` and a default.
- **Python `sorted` is an insertion sort.** It is proved sorted, a
  permutation and stable.
- **The lane test is proved exact.** The policy compares against
  `720 / 3` and `(720 / 3) * 2` as reals, like the source does.
  `Strategy.Placement` proves these tests are the integer thresholds 240
  and 480.
- **The "failed to determine a placement" branch is unreachable.** A
  placement is always set once a card is chosen, so `Placement` returns a
  point in every case.
- **The enemy-field comment is wrong.** The code's enemy field ends at row
  625 (`Vision.EnemyFieldRoiValue`). The comment beside it says 575; the
  model follows the code.
- **The stored frame is the raw one.** Both entry points store the raw
  frame as `latestScreenshot` before preprocessing, and the coordinate
  resolver preprocesses it again.

## Model

| member | source | states |
|---|---|---|
| `Imaging.Preprocess` | vision/vision_system.py:176-191 | the preprocessed image has the frame's shape, and each pixel is the opaque grayscale-and-blur value |
| `Imaging.SliceBound` | vision/vision_system.py:299-300 | Python's slice bound: counted from the end when negative, clamped into [0, len] |
| `Imaging.SliceLength` | vision/vision_system.py:299-300 | a slice selects no more than what is left after its start |
| `Imaging.Crop` | vision/vision_system.py:299-300 | a crop is never larger than the image it is cut from |
| `Imaging.CropIsClampedRegion` | vision/vision_system.py:354-355 | with non-negative ends, the crop is rows [max(0,top), min(H,bottom)) and columns [max(0,left), min(W,right)) of the image, pixel for pixel |
| `Imaging.NegativeEndCountsFromFarEdge` | vision/vision_system.py:299-300 | a region bottom -e (with e at most the image's height) keeps all but the last e rows, rather than none |
| `Matcher.BestInRow` | vision/vision_system.py:216 | no column of the row scores above the chosen one |
| `Matcher.BestInRows` | vision/vision_system.py:216 | no cell of the scanned rows scores above the chosen one |
| `Matcher.BestAlignment` | vision/vision_system.py:215-216 | the chosen top-left corner is a valid alignment with the highest correlation score |
| `Matcher.FindTemplate` | vision/vision_system.py:193-223 | not found when an input is missing or the template is taller or wider; found iff some alignment scores at least the threshold; when found, the result is a best alignment plus half the template's size, and it lies inside the image |
| `CardNames.TitleFrom` | vision/vision_system.py:436 | title-casing keeps the length |
| `CardNames.TitleFromAt` | vision/vision_system.py:436 | each character is lower-cased after a cased character and upper-cased otherwise |
| `CardNames.Title` | vision/vision_system.py:436 | `str.title()` keeps the length, and position by position upper-cases a character that starts a word (first, or after an uncased character) and lower-cases every other |
| `CardNames.ReplaceUnderscores` | vision/vision_system.py:95 | each '_' becomes ' ', and every other character is kept |
| `CardNames.NormalizeName` | vision/vision_system.py:95 | the template key of a name keeps its length, and each character is the title-case character of the name with '_' read as ' ' |
| `CardNames.TitleFromIdempotent` | vision/vision_system.py:160 | title-casing twice is title-casing once |
| `CardNames.NormalizeNameIsCanonical` | vision/vision_system.py:95 | a normalised name has no '_' and is its own normalisation, so a key loaded from a file name is found again under itself |
| `CardNames.NormalizeNameIgnoresCaseAndSeparators` | vision/vision_system.py:436-437 | names that differ only in letter case or '_' versus ' ' look up the same template |
| `CardNames.NormalizedCardNames` | vision/vision_system.py:95 | "mini_pekka", "spear_goblins" and "KNIGHT" become the cost table's "Mini Pekka", "Spear Goblins" and "Knight" |
| `Vision.Lookup` | vision/vision_system.py:437 | `dict.get`: found iff some entry has the name, and then the result is that entry's image |
| `Vision.EnemyFieldOf` | vision/vision_system.py:55-59 | the enemy field keeps the battlefield's left, top and right; its height is the upper half (floor) plus 50 |
| `Vision.EnemyFieldRoiValue` | vision/vision_system.py:47-59 | for the constant battlefield (0,150,720,1000) the enemy field is (0,150,720,625) |
| `Vision.UiMatch` | vision/vision_system.py:243-268 | `ui_templates.get` then `_find_template(..., 0.7)`: not found when the template is missing; otherwise found iff some placement of the template scores at least 0.7 |
| `Vision.ClassifyScreen` | vision/vision_system.py:239-275 | the classifier never answers INITIALIZING or STOPPED |
| `Vision.FirstMatchingRule` | vision/vision_system.py:240-275 | a priority table yields the fallback or the phase of one of its rules |
| `Vision.ClassifyIsFirstMatchingRule` | vision/vision_system.py:242-275 | the early-return chain equals first-match-wins over (Battle Indicator→IN_BATTLE, Play Button→ON_MENU, OK Button→POST_GAME, Home Button→ON_MENU) with fallback IN_BATTLE |
| `Vision.ClassifyPriority` | vision/vision_system.py:242-275 | each phase as an if-and-only-if over which of the four templates are found at threshold 0.7 |
| `Vision.ClassifyWithoutUiTemplates` | vision/vision_system.py:273-275 | with an empty UI store every screen is IN_BATTLE |
| `Vision.Detections` | vision/vision_system.py:311-327 | one pass of a probe over a store yields at most one detection per template |
| `Vision.RoiDetections` | vision/vision_system.py:299-327 | crop, `size == 0` test and remap: an empty crop gives no detections, and there is at most one per template; `DetectionSources`, `DetectionsComplete` and `DetectionsInsideRegion` say which and where |
| `Vision.CardsOf` | vision/vision_system.py:322-327 | each card match becomes a record with the placeholder cost 3 and type "unit" |
| `Vision.UnitsOf` | vision/vision_system.py:375-380 | each unit match becomes a record with the placeholder health 100 and type "unit" |
| `Vision.Analyze` | vision/vision_system.py:407-415 | player units [], elixir 10.0, both tower maps (3000,2000,2000) and time 60 whatever the image; at most one card or unit per template |
| `Vision.DetectionSources` | vision/vision_system.py:366-380 | each detection comes from its own template, in strictly increasing store order, and sits at that template's local match plus the region offset |
| `Vision.DetectionsComplete` | vision/vision_system.py:311-327 | every template found in the region contributes its detection |
| `Vision.DetectionNamesDistinct` | vision/vision_system.py:311-327 | with distinct template names, detection names are distinct |
| `Vision.EmptyRegionDetectsNothing` | vision/vision_system.py:307-308 | an empty crop matches no non-empty template, so the size check only saves work |
| `Vision.DetectionsInsideRegion` | vision/vision_system.py:316-319 | for a region with non-negative corners, every remapped detection lies inside the region and inside the frame |
| `Vision.SceneInsideRegions` | vision/vision_system.py:299-380 | cards lie in x 50..669, y 1050..1229, units in x 0..719, y 150..624, all inside the frame |
| `Vision.TinyFrameShowsNothing` | vision/vision_system.py:307-308 | a frame no taller than 150 rows (a 1x1 frame, say) yields no cards and no units, without error |
| `Vision.VisionSystem.constructor` | vision/vision_system.py:23-36 | no frame is stored yet, and the stores are the loaded ones |
| `Vision.VisionSystem.GetCurrentGameState` | vision/vision_system.py:226-237 | stores the frame as the latest screenshot, changes nothing else, and classifies its preprocessed image |
| `Vision.VisionSystem.AnalyzeBattlefield` | vision/vision_system.py:278-290 | stores the frame as the latest screenshot, changes nothing else, and returns the analysis of its preprocessed image |
| `Vision.VisionSystem.Scan` | vision/vision_system.py:311-319 | the loop over a store returns exactly the detections of the store, in store order, with the matcher bound to the region and threshold |
| `Vision.VisionSystem.DetectCardsInHand` | vision/vision_system.py:292-327 | the card pass returns nothing for an empty hand crop, otherwise card records for the templates found in it at 0.85, in store order, shifted by (50, 1050) |
| `Vision.VisionSystem.DetectOpponentUnits` | vision/vision_system.py:348-380 | the unit pass returns nothing for an empty enemy-field crop, otherwise unit records for the templates found in it at 0.85, in store order, shifted by (0, 150) |
| `Vision.VisionSystem.CardCoordinates` | vision/vision_system.py:421-456 | not found without a stored frame or without a template under the normalised name; otherwise the match over the whole preprocessed frame at 0.8, inside the frame |
| `Vision.LocateBeforeAnyCapture` | vision/vision_system.py:432-434 | a card asked for before any frame is stored is not found |
| `Strategy.GetCardProperties` | strategy/strategy_engine.py:46-67 | the table entry for a known name, else cost 99 with type and target "unknown"; every cost is at least 2, and only known cards cost 5 or less |
| `Strategy.Cost` | strategy/strategy_engine.py:96-97 | the filter and sort key: at least 2 for every card, and at most 5 exactly for the cards of the table |
| `Strategy.Playable` | strategy/strategy_engine.py:94-98 | a card is kept iff it is in hand and costs no more than the elixir |
| `Strategy.Insert` | strategy/strategy_engine.py:94-97 | insertion adds exactly one card and puts it first iff it costs no more than the old head |
| `Strategy.SortByKey` | strategy/strategy_engine.py:94-97 | the sort is a permutation of its input |
| `Strategy.InsertSorted` | strategy/strategy_engine.py:94-97 | insertion keeps a cost-sorted list sorted |
| `Strategy.SortByKeySorted` | strategy/strategy_engine.py:94-97 | the sorted list is in non-decreasing cost |
| `Strategy.WithKey` | strategy/strategy_engine.py:94-97 | the cards of one cost are cards of the list with that cost |
| `Strategy.InsertWithKey` | strategy/strategy_engine.py:94-97 | insertion puts the new card before every card of equal cost |
| `Strategy.SortByKeyStable` | strategy/strategy_engine.py:94-97 | the sort is stable: cards of equal cost keep their hand order |
| `Strategy.ChooseCard` | strategy/strategy_engine.py:99-103 | no card iff no card in hand is affordable; otherwise the choice is an affordable card from the hand |
| `Strategy.ChooseCardStep` | strategy/strategy_engine.py:94-103 | the head card is chosen unless the rest of the hand offers a strictly cheaper affordable card |
| `Strategy.ChooseCardIsFirstCheapest` | strategy/strategy_engine.py:94-104 | the chosen card is affordable, no affordable card is cheaper, and every affordable card before it in the hand is dearer |
| `Strategy.FirstCheapestIsUnique` | strategy/strategy_engine.py:103 | only one hand position is the first cheapest affordable card |
| `Strategy.FirstCheapestDependsOnlyOnKeys` | strategy/strategy_engine.py:96-97 | which card is first cheapest depends only on the cards' costs |
| `Strategy.ChoiceDependsOnlyOnKeys` | strategy/strategy_engine.py:94-103 | hands with equal costs position by position choose the same position |
| `Strategy.AssessThreat` | strategy/strategy_engine.py:34-44 | the scene's opponent units, or none when the key is missing |
| `Strategy.Placement` | strategy/strategy_engine.py:109-135 | with a threat: x < 240 → (200,900), 240 ≤ x ≤ 480 → (360,800), x > 480 → (520,900) for the first unit's x; without one, (360,500) |
| `Strategy.PlacementDependsOnFirstX` | strategy/strategy_engine.py:109-125 | two threats with the same first-unit x, or both empty, give the same placement |
| `Strategy.DecideAction` | strategy/strategy_engine.py:70-155 | an empty or missing hand gives no action; an action exists iff some card in hand is affordable; its position is the placement for the threat |
| `Strategy.DecideActionPlaysFirstCheapest` | strategy/strategy_engine.py:94-104 | the card played is the first, in hand order, of the cheapest affordable cards |
| `Strategy.NoActionBelowTwoElixir` | strategy/strategy_engine.py:85 | with less than 2 elixir, including a missing `current_elixir` read as 0, there is no action |
| `Strategy.KnownCardPlayableWithFiveElixir` | strategy/strategy_engine.py:53-67 | with 5 elixir or more, any card of the table in hand leads to an action |
| `Strategy.DecisionDependsOnNamesElixirAndFirstThreat` | strategy/strategy_engine.py:84-86 | the decision depends only on the hand's card names, the elixir and the first opponent unit's x; the vision-supplied `elixir_cost` and positions are ignored |
| `BattleTurn.AnalysedSceneDecision` | core/bot_loop.py:100-103 | on an analysed frame (10 elixir), the policy plays iff the hand shows a card of the cost table, and never plays an unknown card |

## Left out

- OpenCV's grayscale conversion, Gaussian blur, `matchTemplate` and `minMaxLoc` score values are floating-point library code. They are opaque functions of the model, and scores are real numbers, so NaN and rounding are not modelled.
- Matcher.BestAlignment: the contract does not fix which of several equally scoring alignments is chosen, since `minMaxLoc`'s tie-breaking is not part of the source.
- CardNames.TitleFrom: case mapping covers ASCII letters only; Python's Unicode case tables (for accented letters, say) are not modelled.
- Template loading from the file system is I/O. The three stores are given to the constructor, which requires what loading guarantees: dictionary keys are distinct, and every template image is non-empty (`cv2.imread` returns an image or `None`).
- A malformed image that OpenCV cannot convert raises an error in the source. The model has no such error path.
- The debug drawing and `imwrite` calls, the debug flag and directory, all logging, and the unused `_battle_analysis_counter` have no effect on results.
- The classification of a blank frame depends on correlation values, which are opaque here, so it is not stated.
- A card without a `name`, or an opponent unit without a `name` or a `position`, is not modelled: every record has these fields, because the vision system always sets them. The policy reads a card's name with `card.get("name")` (strategy/strategy_engine.py:96, 97, 104), so a nameless card would cost 99 and, with 99 elixir or more, be played under the name `None`; a card's `position` is never read. A unit's `position` (line 114) and `name` (line 110, in the log message, which is built whether or not logging is on) are read with `[...]`, so a unit lacking either raises `KeyError`.
- `decide_action` and `_get_card_properties` take no mutable state. They are pure functions here, so "modifies nothing" holds by construction.
- The emulator, the bot loop (apart from the one lemma on the analyser's scene reaching the policy) and the entry point are I/O and orchestration.
