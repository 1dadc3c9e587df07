/** Entity identities of the Bevy world. */
module Ecs {
  /**
   * An entity id. Each world that spawns entities (the bullets, the menus)
   * draws fresh ids from its own counter and never reuses one; the worlds are
   * separate id spaces, so a bullet and a menu may carry the same number.
   */
  type Entity = nat
}
