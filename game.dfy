/**
 * The records the decision layer consumes and produces: the per-frame game
 * snapshot (two player states plus round metadata), the numeric observation
 * and transition used for learning, the ten-flag button record and the
 * command that carries one button record per player.
 */
module GameTypes {

  datatype Option<T> = None | Some(value: T)

  /** One fighter's state in a frame. */
  datatype PlayerState = PlayerState(
    xCoord: int,
    yCoord: int,
    health: int,
    isJumping: bool,
    isCrouching: bool,
    isPlayerInMove: bool,
    moveId: int)

  /** One frame as received from the emulator. */
  datatype GameState = GameState(
    player1: PlayerState,
    player2: PlayerState,
    timer: int,
    hasRoundStarted: bool,
    isRoundOver: bool)

  /** The feature vector handed to the Q-networks (one row of the state tensor). */
  type Observation = seq<real>

  /** One closed experience `(s, a, r, s', done)` of the replay memory. */
  datatype Transition = Transition(
    state: Observation,
    action: int,
    reward: real,
    nextState: Observation,
    done: bool)

  /**
   * The controller's button record: four lower-case direction flags and six
   * action flags whose upper-case names are part of the external contract.
   */
  datatype Buttons = Buttons(
    up: bool, down: bool, left: bool, right: bool,
    Y: bool, B: bool, A: bool, X: bool, L: bool, R: bool)

  /** A freshly constructed button record: nothing pressed. */
  const Released := Buttons(false, false, false, false, false, false, false, false, false, false)

  /** The message sent to the emulator: one button record per player slot. */
  datatype Command = Command(playerButtons: Buttons, player2Buttons: Buttons)

  /** A freshly constructed command: both slots released. */
  const EmptyCommand := Command(Released, Released)
}
