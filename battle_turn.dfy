/** One in-battle turn of the bot loop (core/bot_loop.py, lines 100-103):
    the scene the analyser builds from a frame, handed to the policy. */
module BattleTurn {
  import opened Wrappers
  import opened Imaging
  import opened GameInfos
  import opened Vision
  import opened Strategy

  /** The analyser always reports 10 elixir, so every card of the cost
      table found in the hand region is affordable and some card is
      played; a card outside the table (cost 99) never is. */
  lemma AnalysedSceneDecision(cv: Cv, cards: Store, units: Store, screen: Gray)
    ensures var info := Analyze(cv, cards, units, screen);
      && ((exists c :: c in Hand(info) && c.name in CardData) <==> DecideAction(info).Some?)
      && (DecideAction(info).Some? ==> DecideAction(info).value.cardName in CardData)
  {
  }
}
