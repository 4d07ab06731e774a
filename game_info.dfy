/** The `game_info` dictionary the vision system produces and the strategy
    engine consumes. Every key is optional, as in the dictionary: the
    strategy engine reads keys with `.get` and a default. */
module GameInfos {
  import opened Wrappers
  import opened Imaging

  /** A card found in the hand; `elixirCost` and `kind` are placeholders
      that do not come from the image. */
  datatype DetectedCard = DetectedCard(name: string, position: Point, elixirCost: int, kind: string)

  /** A unit found on the field; `health` and `kind` are placeholders. */
  datatype DetectedUnit = DetectedUnit(name: string, position: Point, health: int, kind: string)

  datatype TowerHealth = TowerHealth(king: int, left: int, right: int)

  datatype GameInfo = GameInfo(
    playerUnits: Option<seq<DetectedUnit>>,
    opponentUnits: Option<seq<DetectedUnit>>,
    cardsInHand: Option<seq<DetectedCard>>,
    currentElixir: Option<real>,
    playerTowerHealth: Option<TowerHealth>,
    opponentTowerHealth: Option<TowerHealth>,
    gameTimeSeconds: Option<int>)
}
