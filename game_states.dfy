/** The phases of the bot's main loop (core/game_states.py). */
module GameStates {

  datatype GameState = Initializing | OnMenu | InBattle | PostGame | Stopped
}
