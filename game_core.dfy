/** The two-state mode switch shared by the player and the menu plugins. */
module GameCore {
  import opened Wrappers

  /** `GameState`; `FirstPerson` is the default state. */
  datatype GameState = FirstPerson | MenuOpen

  const DefaultState: GameState := FirstPerson

  /**
   * Bevy's `NextState<GameState>` resource: a transition requested during a
   * frame, applied by the engine at the next state-transition point.
   */
  class NextState {
    var pending: Option<GameState>

    constructor ()
      ensures pending == None
    {
      pending := None;
    }

    /** `NextState::set`: the latest request replaces any earlier one. */
    method Set(s: GameState)
      modifies this
      ensures pending == Some(s)
    {
      pending := Some(s);
    }
  }
}
