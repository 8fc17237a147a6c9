/**
 * The shapes shared by the front end: the run status of the timer, the phase
 * of the work/rest cycle, the current cycle and the user's phase lengths.
 * They carry no behaviour.
 */
module Types {

  datatype Status = Paused | Running

  datatype State = Pomodoro | ShortRest | LongRest

  /** The current phase and whether it is paused; the two are independent. */
  datatype Cycle = Cycle(state: State, paused: bool)

  /** The phase lengths, in seconds. */
  datatype UserPreferences = UserPreferences(pomodoro_time: int, short_rest_time: int, long_rest_time: int)
}
