/** The keyboard and mouse-button state Bevy hands to systems each frame (`Res<Input<T>>`). */
module BevyInput {

  /** The keys the controller and the menu read. */
  datatype KeyCode = W | A | S | D | Space | Tab

  datatype MouseButton = Left | Right | Middle

  /**
   * `pressed` holds the buttons that are down this frame; `justPressed` those
   * that went down since the previous frame.
   */
  datatype Input<T> = Input(pressed: set<T>, justPressed: set<T>)
}
