/** The decision policy (strategy/strategy_engine.py): from the
    `game_info` of one frame to the card to play and where, or no action. */
module Strategy {
  import opened Wrappers
  import opened Imaging
  import opened GameInfos

  // ----- Placement points for a 720x1280 screen -----

  const ScreenWidth: real := 720.0

  const GeneralDefensivePosition := Point(360, 900)
  const GeneralOffensivePosition := Point(360, 450)
  const LeftLaneDefensive := Point(200, 900)
  const RightLaneDefensive := Point(520, 900)
  const MiddleDefensive := Point(360, 800)
  const LeftLaneOffensive := Point(200, 450)
  const RightLaneOffensive := Point(520, 450)
  const MiddleOffensive := Point(360, 500)

  // ----- Card properties -----

  datatype CardProperties = CardProperties(elixirCost: int, kind: string, target: string)

  const CardData: map<string, CardProperties> := map[
    "Knight" := CardProperties(3, "tank", "ground"),
    "Archers" := CardProperties(3, "ranged", "ground_air"),
    "Fireball" := CardProperties(4, "spell", "area"),
    "Mini Pekka" := CardProperties(4, "damage", "ground"),
    "Barbarians" := CardProperties(5, "swarm", "ground"),
    "Giant" := CardProperties(5, "tank", "buildings"),
    "Musketeer" := CardProperties(4, "ranged", "ground_air"),
    "Spear Goblins" := CardProperties(2, "swarm", "ground_air"),
    "Tombstone" := CardProperties(3, "building", "spawner"),
    "Valkyrie" := CardProperties(4, "splash", "ground"),
    "Wizard" := CardProperties(5, "splash_ranged", "ground_air")
  ]

  const UnknownCard := CardProperties(99, "unknown", "unknown")

  /** `_get_card_properties`: the table entry of a known card, and cost 99
      with type and target "unknown" for any other name. Every card costs
      at least 2; exactly the known ones cost at most 5. */
  function GetCardProperties(name: string): (p: CardProperties)
    ensures name in CardData ==> p == CardData[name]
    ensures name !in CardData ==> p == UnknownCard
    ensures 2 <= p.elixirCost
    ensures p.elixirCost <= 5 <==> name in CardData
  {
    if name in CardData then CardData[name] else UnknownCard
  }

  /** The sort key and filter of `decide_action`: the table cost of the
      card's name. */
  function Cost(card: DetectedCard): (k: int)
    ensures 2 <= k
    ensures k <= 5 <==> card.name in CardData
  {
    GetCardProperties(card.name).elixirCost
  }

  /** A key from cards to costs; the policy uses `Cost`, and the lemmas
      below hold for any key. */
  type CostKey = DetectedCard -> int

  predicate IsPlayable(card: DetectedCard, key: CostKey, elixir: real) {
    key(card) as real <= elixir
  }

  /** The list comprehension keeping the cards that cost no more than the
      elixir, in hand order. */
  function Playable(hand: seq<DetectedCard>, key: CostKey, elixir: real): (r: seq<DetectedCard>)
    ensures |r| <= |hand|
    ensures forall c :: c in r <==> c in hand && IsPlayable(c, key, elixir)
  {
    if hand == [] then []
    else (if IsPlayable(hand[0], key, elixir) then [hand[0]] else []) + Playable(hand[1..], key, elixir)
  }

  // ----- Python's stable `sorted(..., key=...)` -----

  ghost predicate SortedByKey(s: seq<DetectedCard>, key: CostKey) {
    forall i, j :: 0 <= i < j < |s| ==> key(s[i]) <= key(s[j])
  }

  /** Puts `c` before the first card whose key is as large or larger. */
  function Insert(c: DetectedCard, s: seq<DetectedCard>, key: CostKey): (r: seq<DetectedCard>)
    ensures multiset(r) == multiset(s) + multiset{c}
    ensures r[0] == if s == [] || key(c) <= key(s[0]) then c else s[0]
  {
    if s == [] || key(c) <= key(s[0]) then [c] + s
    else
      assert s == [s[0]] + s[1..];
      [s[0]] + Insert(c, s[1..], key)
  }

  /** Insertion sort by key, inserting from the back of the list. */
  function SortByKey(s: seq<DetectedCard>, key: CostKey): (r: seq<DetectedCard>)
    ensures multiset(r) == multiset(s)
  {
    if s == [] then []
    else
      assert s == [s[0]] + s[1..];
      Insert(s[0], SortByKey(s[1..], key), key)
  }

  lemma {:induction false} InsertSorted(c: DetectedCard, s: seq<DetectedCard>, key: CostKey)
    requires SortedByKey(s, key)
    ensures SortedByKey(Insert(c, s, key), key)
  {
    if s != [] && key(c) > key(s[0]) {
      InsertSorted(c, s[1..], key);
      var r := Insert(c, s[1..], key);
      forall x | x in r ensures key(s[0]) <= key(x) {
        assert x in multiset(r);
      }
    }
  }

  /** The sort orders by key and (its ensures) permutes its input. */
  lemma {:induction false} SortByKeySorted(s: seq<DetectedCard>, key: CostKey)
    ensures SortedByKey(SortByKey(s, key), key)
  {
    if s != [] {
      SortByKeySorted(s[1..], key);
      InsertSorted(s[0], SortByKey(s[1..], key), key);
    }
  }

  /** The cards of a list whose key is k, in list order. */
  function WithKey(s: seq<DetectedCard>, key: CostKey, k: int): (r: seq<DetectedCard>)
    ensures forall c :: c in r ==> c in s && key(c) == k
  {
    if s == [] then []
    else (if key(s[0]) == k then [s[0]] else []) + WithKey(s[1..], key, k)
  }

  lemma {:induction false} InsertWithKey(c: DetectedCard, s: seq<DetectedCard>, key: CostKey, k: int)
    ensures WithKey(Insert(c, s, key), key, k)
         == if key(c) == k then [c] + WithKey(s, key, k) else WithKey(s, key, k)
  {
    if s == [] || key(c) <= key(s[0]) {
      assert ([c] + s)[1..] == s;
    } else {
      InsertWithKey(c, s[1..], key, k);
      assert ([s[0]] + Insert(c, s[1..], key))[1..] == Insert(c, s[1..], key);
    }
  }

  /** The sort is stable: cards with equal keys keep their relative order. */
  lemma {:induction false} SortByKeyStable(s: seq<DetectedCard>, key: CostKey, k: int)
    ensures WithKey(SortByKey(s, key), key, k) == WithKey(s, key, k)
  {
    if s != [] {
      var sortedTail := SortByKey(s[1..], key);
      SortByKeyStable(s[1..], key, k);
      InsertWithKey(s[0], sortedTail, key, k);
      calc {
        WithKey(SortByKey(s, key), key, k);
        WithKey(Insert(s[0], sortedTail, key), key, k);
        (if key(s[0]) == k then [s[0]] else []) + WithKey(sortedTail, key, k);
        (if key(s[0]) == k then [s[0]] else []) + WithKey(s[1..], key, k);
        WithKey(s, key, k);
      }
    }
  }

  // ----- The decision -----

  /** `playable_cards[0]`: the head of the playable cards sorted by key. */
  function ChooseCard(hand: seq<DetectedCard>, key: CostKey, elixir: real): (r: Option<DetectedCard>)
    ensures r.None? <==> forall c :: c in hand ==> !IsPlayable(c, key, elixir)
    ensures r.Some? ==> r.value in hand && IsPlayable(r.value, key, elixir)
  {
    var playable := SortByKey(Playable(hand, key, elixir), key);
    assert |playable| == |Playable(hand, key, elixir)| by {
      assert |multiset(playable)| == |multiset(Playable(hand, key, elixir))|;
    }
    if playable == [] then
      assert Playable(hand, key, elixir) == [];
      None
    else
      assert playable[0] in multiset(Playable(hand, key, elixir));
      assert playable[0] in Playable(hand, key, elixir);
      Some(playable[0])
  }

  /** hand[i] is playable, no playable card is cheaper, and every playable
      card before it is dearer. */
  ghost predicate IsFirstCheapestPlayable(hand: seq<DetectedCard>, key: CostKey, elixir: real, i: int) {
    && 0 <= i < |hand| && IsPlayable(hand[i], key, elixir)
    && (forall j :: 0 <= j < |hand| && IsPlayable(hand[j], key, elixir) ==> key(hand[i]) <= key(hand[j]))
    && (forall j :: 0 <= j < i && IsPlayable(hand[j], key, elixir) ==> key(hand[i]) < key(hand[j]))
  }

  /** The choice over a hand, from the choice over its tail: the first
      card wins unless the tail offers a strictly cheaper playable card. */
  lemma ChooseCardStep(hand: seq<DetectedCard>, key: CostKey, elixir: real)
    requires hand != []
    ensures var c, rest := hand[0], ChooseCard(hand[1..], key, elixir);
      ChooseCard(hand, key, elixir) ==
        if !IsPlayable(c, key, elixir) then rest
        else if rest.None? || key(c) <= key(rest.value) then Some(c)
        else rest
  {
    var c, tail := hand[0], hand[1..];
    assert hand == [c] + tail;
    var t := SortByKey(Playable(tail, key, elixir), key);
    if IsPlayable(c, key, elixir) {
      assert Playable(hand, key, elixir) == [c] + Playable(tail, key, elixir);
      assert ([c] + Playable(tail, key, elixir))[1..] == Playable(tail, key, elixir);
      assert SortByKey(Playable(hand, key, elixir), key) == Insert(c, t, key);
    } else {
      assert Playable(hand, key, elixir) == Playable(tail, key, elixir);
    }
  }

  /** The chosen card is the first card in hand order among the cheapest
      playable cards. */
  lemma {:induction false} ChooseCardIsFirstCheapest(hand: seq<DetectedCard>, key: CostKey, elixir: real)
    returns (i: nat)
    requires ChooseCard(hand, key, elixir).Some?
    ensures IsFirstCheapestPlayable(hand, key, elixir, i)
    ensures ChooseCard(hand, key, elixir) == Some(hand[i])
  {
    ChooseCardStep(hand, key, elixir);
    var c, rest := hand[0], hand[1..];
    if ChooseCard(rest, key, elixir).None? {
      i := 0;
      FirstCheapestCons(hand, key, elixir, -1);
    } else {
      var i' := ChooseCardIsFirstCheapest(rest, key, elixir);
      FirstCheapestCons(hand, key, elixir, i');
      if IsPlayable(c, key, elixir) && key(c) <= key(rest[i']) {
        i := 0;
      } else {
        i := i' + 1;
      }
    }
  }

  /** The first cheapest playable card of a hand, from that of its tail
      (`i' < 0` when the tail has no playable card): the head when it is
      playable and no dearer, the same card one position on otherwise. */
  lemma FirstCheapestCons(hand: seq<DetectedCard>, key: CostKey, elixir: real, i': int)
    requires hand != []
    requires i' < 0 ==> forall d :: d in hand[1..] ==> !IsPlayable(d, key, elixir)
    requires i' >= 0 ==> IsFirstCheapestPlayable(hand[1..], key, elixir, i')
    requires IsPlayable(hand[0], key, elixir) || i' >= 0
    ensures IsPlayable(hand[0], key, elixir) && (i' < 0 || key(hand[0]) <= key(hand[1..][i'])) ==>
      IsFirstCheapestPlayable(hand, key, elixir, 0)
    ensures !(IsPlayable(hand[0], key, elixir) && (i' < 0 || key(hand[0]) <= key(hand[1..][i']))) ==>
      IsFirstCheapestPlayable(hand, key, elixir, i' + 1)
  {
  }

  /** Only one index can be the first cheapest playable card. */
  lemma FirstCheapestIsUnique(hand: seq<DetectedCard>, key: CostKey, elixir: real, i: int, i': int)
    requires IsFirstCheapestPlayable(hand, key, elixir, i) && IsFirstCheapestPlayable(hand, key, elixir, i')
    ensures i == i'
  {
  }

  /** `_assess_threat`: the opponent units of the scene, none when the key
      is missing. */
  function AssessThreat(info: GameInfo): (units: seq<DetectedUnit>)
    ensures info.opponentUnits.None? ==> units == []
    ensures info.opponentUnits.Some? ==> units == info.opponentUnits.value
  {
    info.opponentUnits.GetOr([])
  }

  /** Where to play: by the lane (left, middle or right third of the screen)
      of the first opponent unit, or the fixed offensive point when there is
      no threat. The thirds fall at x = 240 and x = 480. */
  function Placement(opponentUnits: seq<DetectedUnit>): (p: Point)
    ensures opponentUnits == [] ==> p == MiddleOffensive
    ensures opponentUnits != [] ==>
      var x := opponentUnits[0].position.x;
      && (x < 240 ==> p == LeftLaneDefensive)
      && (240 <= x <= 480 ==> p == MiddleDefensive)
      && (x > 480 ==> p == RightLaneDefensive)
  {
    if opponentUnits != [] then
      var enemyX := opponentUnits[0].position.x as real;
      if enemyX < ScreenWidth / 3.0 then LeftLaneDefensive
      else if enemyX > (ScreenWidth / 3.0) * 2.0 then RightLaneDefensive
      else MiddleDefensive
    else MiddleOffensive
  }

  /** The only action the policy produces. */
  datatype Action = PlayCard(cardName: string, position: Point)

  /** The hand, elixir and opponent units the policy reads, with the
      defaults of `game_info.get`. */
  function Hand(info: GameInfo): seq<DetectedCard> { info.cardsInHand.GetOr([]) }
  function Elixir(info: GameInfo): real { info.currentElixir.GetOr(0.0) }

  /** `decide_action`: play the cheapest playable card at the placement for
      the current threat; no action when the hand is empty or nothing is
      affordable. */
  function DecideAction(info: GameInfo): (action: Option<Action>)
    ensures Hand(info) == [] ==> action.None?
    ensures action.Some? <==> exists c :: c in Hand(info) && IsPlayable(c, Cost, Elixir(info))
    ensures action.Some? ==> action.value.position == Placement(AssessThreat(info))
  {
    var cardsInHand := info.cardsInHand.GetOr([]);
    var currentElixir := info.currentElixir.GetOr(0.0);
    var opponentUnits := AssessThreat(info);
    if cardsInHand == [] then None
    else
      match ChooseCard(cardsInHand, Cost, currentElixir)
      case None => None
      case Some(card) => Some(PlayCard(card.name, Placement(opponentUnits)))
  }

  /** The card played is the first of the cheapest affordable cards in
      hand order. */
  lemma DecideActionPlaysFirstCheapest(info: GameInfo) returns (i: nat)
    requires DecideAction(info).Some?
    ensures IsFirstCheapestPlayable(Hand(info), Cost, Elixir(info), i)
    ensures DecideAction(info).value.cardName == Hand(info)[i].name
  {
    i := ChooseCardIsFirstCheapest(Hand(info), Cost, Elixir(info));
  }

  /** Without elixir for the cheapest card in the table (in particular when
      `current_elixir` is missing and defaults to 0) there is no action. */
  lemma NoActionBelowTwoElixir(info: GameInfo)
    requires Elixir(info) < 2.0
    ensures DecideAction(info).None?
  {
  }

  /** With 5 elixir or more, any card of the table in hand leads to an
      action. */
  lemma KnownCardPlayableWithFiveElixir(info: GameInfo, c: DetectedCard)
    requires Elixir(info) >= 5.0
    requires c in Hand(info) && c.name in CardData
    ensures DecideAction(info).Some?
  {
  }

  /** Being the first cheapest playable card depends only on the keys. */
  lemma FirstCheapestDependsOnlyOnKeys(ha: seq<DetectedCard>, hb: seq<DetectedCard>, key: CostKey,
                                       elixir: real, i: int)
    requires |ha| == |hb|
    requires forall k :: 0 <= k < |ha| ==> key(ha[k]) == key(hb[k])
    requires IsFirstCheapestPlayable(ha, key, elixir, i)
    ensures IsFirstCheapestPlayable(hb, key, elixir, i)
  {
  }

  /** Hands whose cards have the same keys, position by position, lead to
      the choice of the same position in the hand. */
  lemma ChoiceDependsOnlyOnKeys(ha: seq<DetectedCard>, hb: seq<DetectedCard>, key: CostKey, elixir: real)
    requires |ha| == |hb|
    requires forall k :: 0 <= k < |ha| ==> key(ha[k]) == key(hb[k])
    ensures ChooseCard(ha, key, elixir).None? == ChooseCard(hb, key, elixir).None?
    ensures ChooseCard(ha, key, elixir).Some? ==>
      exists i :: 0 <= i < |ha| && ChooseCard(ha, key, elixir) == Some(ha[i])
                               && ChooseCard(hb, key, elixir) == Some(hb[i])
  {
    if ChooseCard(ha, key, elixir).Some? {
      var i := ChooseCardIsFirstCheapest(ha, key, elixir);
      FirstCheapestDependsOnlyOnKeys(ha, hb, key, elixir, i);
      assert hb[i] in hb;
      var j := ChooseCardIsFirstCheapest(hb, key, elixir);
      FirstCheapestIsUnique(hb, key, elixir, i, j);
    } else if ChooseCard(hb, key, elixir).Some? {
      var j := ChooseCardIsFirstCheapest(hb, key, elixir);
      FirstCheapestDependsOnlyOnKeys(hb, ha, key, elixir, j);
    }
  }

  /** The decision depends on nothing but the card names in hand, the
      elixir, and the x-coordinate of the first opponent unit: the
      vision-supplied `elixir_cost` and card positions are ignored. */
  lemma DecisionDependsOnNamesElixirAndFirstThreat(a: GameInfo, b: GameInfo)
    requires |Hand(a)| == |Hand(b)|
    requires forall k :: 0 <= k < |Hand(a)| ==> Hand(a)[k].name == Hand(b)[k].name
    requires Elixir(a) == Elixir(b)
    requires (AssessThreat(a) == []) == (AssessThreat(b) == [])
    requires AssessThreat(a) != [] ==> AssessThreat(a)[0].position.x == AssessThreat(b)[0].position.x
    ensures DecideAction(a) == DecideAction(b)
  {
    var ha, hb := Hand(a), Hand(b);
    assert forall k :: 0 <= k < |ha| ==> Cost(ha[k]) == Cost(hb[k]);
    ChoiceDependsOnlyOnKeys(ha, hb, Cost, Elixir(a));
    PlacementDependsOnFirstX(AssessThreat(a), AssessThreat(b));
  }

  /** The placement reads nothing of the threat but whether there is one
      and the x-coordinate of the first opponent unit. */
  lemma PlacementDependsOnFirstX(us: seq<DetectedUnit>, vs: seq<DetectedUnit>)
    requires (us == []) == (vs == [])
    requires us != [] ==> us[0].position.x == vs[0].position.x
    ensures Placement(us) == Placement(vs)
  {
  }
}
