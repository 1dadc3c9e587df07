/**
 * How the plugins' systems are scheduled around the mode switch: the state
 * transition with its enter and exit hooks, the state-gated input systems,
 * and one whole frame of the player controller.
 */
module Schedule {
  import opened Wrappers
  import opened Glam
  import opened Ecs
  import opened BevyInput
  import opened GameCore
  import opened Rapier
  import opened GroundProbe
  import opened PlayerControl
  import opened Bullets
  import Cursor
  import opened Menu

  /** The state a Tab press asks for. */
  function Toggled(s: GameState): (t: GameState)
    ensures t != s
  {
    match s
    case FirstPerson => MenuOpen
    case MenuOpen => FirstPerson
  }

  /** The visibility the hooks give every menu in state `s`: hidden in first-person, visible with the menu open. */
  function MenuVisibility(s: GameState): Visibility {
    match s
    case FirstPerson => Hidden
    case MenuOpen => Visible
  }

  /**
   * The visibility map after a transition from `from` to `to`: unchanged when
   * the state stays, otherwise every menu takes the new state's visibility
   * and every other entity keeps its own.
   */
  function TransitionVisibility(visibility: map<Entity, Visibility>, menus: set<Entity>, from: GameState, to: GameState)
    : (r: map<Entity, Visibility>)
    requires menus <= visibility.Keys
    ensures r.Keys == visibility.Keys
    ensures from != to ==> AllMenus(r, menus, MenuVisibility(to))
    ensures forall e | e in visibility && (e !in menus || from == to) :: r[e] == visibility[e]
  {
    if from == to then visibility else SetMenus(visibility, menus, MenuVisibility(to))
  }

  /**
   * Leaving a state and coming back restores the visibility of every entity,
   * provided the menus had the visibility of the state left, as the mode
   * invariant guarantees.
   */
  lemma TransitionRoundTrip(visibility: map<Entity, Visibility>, menus: set<Entity>, s: GameState, t: GameState)
    requires menus <= visibility.Keys && AllMenus(visibility, menus, MenuVisibility(s))
    ensures TransitionVisibility(TransitionVisibility(visibility, menus, s, t), menus, t, s) == visibility
  {
    if s != t {
      SetMenusTwice(visibility, menus, MenuVisibility(t), MenuVisibility(s));
      SetMenusUnchanged(visibility, menus, MenuVisibility(s));
    }
  }

  /**
   * The `GameState` resource together with what its transitions act on: the
   * pending `NextState`, the primary windows and the menu entities.
   */
  class ModeSwitch {
    var state: GameState
    const next: NextState
    const windows: seq<Cursor.Window>
    const menu: MenuWorld

    /**
     * The effects of the enter and exit hooks hold for the current state:
     * in first-person the cursor is grabbed and every menu hidden; with the
     * menu open the cursor is free and every menu visible.
     */
    ghost predicate Valid()
      reads this, windows, menu
    {
      && menu.Valid()
      && AllMenus(menu.visibility, menu.menus, MenuVisibility(state))
      && (state == FirstPerson ==> Cursor.Grabbed(windows))
      && (state == MenuOpen ==> Cursor.Released(windows))
    }

    /** Every window keeps its cursor settings, unless there is exactly one primary window. */
    twostate predicate WindowsKept()
      reads windows
    {
      |windows| != 1 ==> Cursor.States(windows) == old(Cursor.States(windows))
    }

    /**
     * Start-up: the menus have been created hidden, the state starts at its
     * default and `OnEnter(FirstPerson)` grabs the cursor.
     */
    constructor (next: NextState, windows: seq<Cursor.Window>, menu: MenuWorld)
      requires menu.Valid() && AllMenus(menu.visibility, menu.menus, Hidden)
      modifies windows
      ensures Valid() && state == DefaultState
      ensures this.next == next && this.windows == windows && this.menu == menu
      ensures unchanged(next) && unchanged(menu)
      ensures |windows| != 1 ==> Cursor.States(windows) == old(Cursor.States(windows))
    {
      this.state := DefaultState;
      this.next := next;
      this.windows := windows;
      this.menu := menu;
      new;
      Cursor.GrabCursor(windows);
    }

    /** The `OnExit` hooks of state `s`. */
    method Exit(s: GameState)
      requires menu.Valid()
      modifies windows, menu
      ensures menu.Valid() && menu.menus == old(menu.menus) && menu.nextId == old(menu.nextId)
      ensures WindowsKept()
      ensures s == FirstPerson ==> Cursor.Released(windows) && menu.visibility == old(menu.visibility)
      ensures s == MenuOpen ==>
        menu.visibility == SetMenus(old(menu.visibility), menu.menus, Hidden) &&
        Cursor.States(windows) == old(Cursor.States(windows))
    {
      match s
      case FirstPerson => Cursor.ReleaseCursor(windows);
      case MenuOpen => HideMenu(menu);
    }

    /** The `OnEnter` hooks of state `s`. */
    method Enter(s: GameState)
      requires menu.Valid()
      modifies windows, menu
      ensures menu.Valid() && menu.menus == old(menu.menus) && menu.nextId == old(menu.nextId)
      ensures WindowsKept()
      ensures s == FirstPerson ==> Cursor.Grabbed(windows) && menu.visibility == old(menu.visibility)
      ensures s == MenuOpen ==>
        menu.visibility == SetMenus(old(menu.visibility), menu.menus, Visible) &&
        Cursor.States(windows) == old(Cursor.States(windows))
    {
      match s
      case FirstPerson => Cursor.GrabCursor(windows);
      case MenuOpen => ShowMenu(menu);
    }

    /** Leaving the current state for `t`: its exit hooks, the change of state, then the enter hooks of `t`. */
    method SwitchTo(t: GameState)
      requires Valid() && t != state
      modifies this, windows, menu
      ensures Valid() && state == t
      ensures menu.menus == old(menu.menus) && menu.nextId == old(menu.nextId)
      ensures menu.visibility == TransitionVisibility(old(menu.visibility), menu.menus, old(state), t)
      ensures WindowsKept()
    {
      Exit(state);
      state := t;
      Enter(state);
    }

    /**
     * The engine's state-transition step: a pending request is taken; if it
     * names another state, the old state's exit hooks run, the state changes
     * and the new state's enter hooks run.
     */
    method ApplyStateTransition()
      requires Valid()
      modifies this, next, windows, menu
      ensures Valid()
      ensures next.pending == None
      ensures state == if old(next.pending).Some? then old(next.pending).value else old(state)
      ensures menu.menus == old(menu.menus) && menu.nextId == old(menu.nextId)
      ensures menu.visibility == TransitionVisibility(old(menu.visibility), menu.menus, old(state), state)
      ensures WindowsKept()
      ensures state == old(state) ==> unchanged(windows, menu)
    {
      var requested := next.pending;
      if requested.Some? {
        next.pending := None;
        if requested.value != state {
          SwitchTo(requested.value);
        }
      }
    }
  }

  /**
   * Two Tab presses, each followed by its transition: the mode switch comes
   * back to its state with every visibility and the cursor invariant restored.
   */
  method ToggleTwice(mode: ModeSwitch)
    requires mode.Valid()
    modifies mode, mode.next, mode.windows, mode.menu
    ensures mode.Valid() && mode.state == old(mode.state) && mode.next.pending == None
    ensures mode.menu.menus == old(mode.menu.menus) && mode.menu.visibility == old(mode.menu.visibility)
    ensures mode.WindowsKept()
  {
    // The windows only pass through here: the transitions' contracts suffice without the cursor definitions.
    hide Cursor.States, Cursor.Grabbed, Cursor.Released;
    ghost var visibility := mode.menu.visibility;
    mode.next.Set(Toggled(mode.state));
    mode.ApplyStateTransition();
    TransitionRoundTrip(visibility, mode.menu.menus, old(mode.state), mode.state);
    mode.next.Set(Toggled(mode.state));
    mode.ApplyStateTransition();
  }

  /**
   * The Update systems of one frame: in first-person the movement input, the
   * mouse look, the mode input, `bullet_collision` and shooting; with the menu
   * open only the menu's input and `bullet_collision`, which is not
   * state-gated. Bullets spawned this frame are not visited by this frame's
   * collision pass, since both systems' commands are applied after Update.
   * `camera` and `cameras` both come from the one `PlayerCam` query, so the
   * basis exists exactly when there is a single camera; `look` is the
   * rotation the mouse look computes, absent without window or motion.
   */
  method RunUpdate(state: GameState, next: NextState, controller: PlayerController, bulletWorld: BulletWorld,
                   camera: Option<Basis>, cameras: seq<Transform>, keys: Input<KeyCode>, mouse: Input<MouseButton>,
                   look: Option<Quat>, ctx: RapierContext)
    requires bulletWorld.Valid()
    requires camera.Some? <==> |cameras| == 1
    requires state == FirstPerson ==> |cameras| == 1
    modifies next, controller, bulletWorld
    ensures bulletWorld.Valid()
    ensures next.pending == if Tab in keys.justPressed then Some(Toggled(state)) else old(next.pending)
    ensures controller.movementDirection ==
      if state == FirstPerson then Add(old(controller.movementDirection), InputDirection(camera, keys))
      else old(controller.movementDirection)
    ensures controller.jumping == (old(controller.jumping) || (state == FirstPerson && Space in keys.justPressed))
    ensures controller.lastTargetVelocity == old(controller.lastTargetVelocity)
    ensures controller.cameraRotation ==
      if state == FirstPerson && look.Some? then look.value else old(controller.cameraRotation)
    ensures state == FirstPerson && Left in mouse.justPressed ==>
      && bulletWorld.bullets == Untouched(ctx, old(bulletWorld.bullets))[old(bulletWorld.nextId) := SpawnedBullet(cameras[0])]
      && bulletWorld.entities ==
           old(bulletWorld.entities) - (old(bulletWorld.bullets).Keys * ctx.contacts) + {old(bulletWorld.nextId)}
      && bulletWorld.nextId == old(bulletWorld.nextId) + 1
    ensures !(state == FirstPerson && Left in mouse.justPressed) ==>
      && bulletWorld.bullets == Untouched(ctx, old(bulletWorld.bullets))
      && bulletWorld.entities == old(bulletWorld.entities) - (old(bulletWorld.bullets).Keys * ctx.contacts)
      && bulletWorld.nextId == old(bulletWorld.nextId)
  {
    match state
    case FirstPerson =>
      HandleMovementInput(controller, camera, keys);
      HandleMouse(controller, look);
      HandleOtherInput(keys, next);
      BulletCollision(bulletWorld, ctx);
      HandleShooting(bulletWorld, mouse, cameras);
    case MenuOpen =>
      Menu.HandleInput(keys, next);
      BulletCollision(bulletWorld, ctx);
  }

  /**
   * The stages before Update: `reset_movement_input` (PreUpdate), then the
   * state transition.
   */
  method StartFrame(mode: ModeSwitch, controller: PlayerController)
    requires mode.Valid()
    modifies mode, mode.next, mode.windows, mode.menu, controller
    ensures mode.Valid()
    ensures mode.state == if old(mode.next.pending).Some? then old(mode.next.pending).value else old(mode.state)
    ensures mode.next.pending == None
    ensures mode.menu.menus == old(mode.menu.menus) && mode.menu.nextId == old(mode.menu.nextId)
    ensures mode.menu.visibility == TransitionVisibility(old(mode.menu.visibility), mode.menu.menus, old(mode.state), mode.state)
    ensures mode.WindowsKept()
    ensures controller.movementDirection == Zero && !controller.jumping
    ensures controller.lastTargetVelocity == old(controller.lastTargetVelocity)
    ensures controller.cameraRotation == old(controller.cameraRotation)
  {
    ResetMovementInput(controller);
    mode.ApplyStateTransition();
  }

  /**
   * The stages before PostUpdate: `reset_movement_input`, the state
   * transition, then the Update systems in the new state.
   */
  method RunUntilPostUpdate(mode: ModeSwitch, controller: PlayerController, bulletWorld: BulletWorld,
                            camera: Option<Basis>, cameras: seq<Transform>, keys: Input<KeyCode>,
                            mouse: Input<MouseButton>, look: Option<Quat>, ctx: RapierContext)
    requires mode.Valid() && bulletWorld.Valid()
    requires camera.Some? <==> |cameras| == 1
    requires (if mode.next.pending.Some? then mode.next.pending.value else mode.state) == FirstPerson ==> |cameras| == 1
    modifies mode, mode.next, mode.windows, mode.menu, controller, bulletWorld
    ensures mode.Valid() && bulletWorld.Valid()
    ensures mode.state == if old(mode.next.pending).Some? then old(mode.next.pending).value else old(mode.state)
    ensures mode.next.pending == if Tab in keys.justPressed then Some(Toggled(mode.state)) else Option.None
    ensures mode.menu.menus == old(mode.menu.menus) && mode.menu.nextId == old(mode.menu.nextId)
    ensures mode.menu.visibility == TransitionVisibility(old(mode.menu.visibility), mode.menu.menus, old(mode.state), mode.state)
    ensures mode.WindowsKept()
    ensures controller.movementDirection == if mode.state == FirstPerson then InputDirection(camera, keys) else Zero
    ensures controller.jumping <==> mode.state == FirstPerson && Space in keys.justPressed
    ensures controller.lastTargetVelocity == old(controller.lastTargetVelocity)
    ensures controller.cameraRotation ==
      if mode.state == FirstPerson && look.Some? then look.value else old(controller.cameraRotation)
    ensures mode.state == FirstPerson && Left in mouse.justPressed ==>
      && bulletWorld.bullets == Untouched(ctx, old(bulletWorld.bullets))[old(bulletWorld.nextId) := SpawnedBullet(cameras[0])]
      && bulletWorld.entities ==
           old(bulletWorld.entities) - (old(bulletWorld.bullets).Keys * ctx.contacts) + {old(bulletWorld.nextId)}
      && bulletWorld.nextId == old(bulletWorld.nextId) + 1
    ensures !(mode.state == FirstPerson && Left in mouse.justPressed) ==>
      && bulletWorld.bullets == Untouched(ctx, old(bulletWorld.bullets))
      && bulletWorld.entities == old(bulletWorld.entities) - (old(bulletWorld.bullets).Keys * ctx.contacts)
      && bulletWorld.nextId == old(bulletWorld.nextId)
  {
    // The direction only passes through here: the stages' contracts suffice without its definition.
    hide InputDirection;
    StartFrame(mode, controller);
    RunUpdate(mode.state, mode.next, controller, bulletWorld, camera, cameras, keys, mouse, look, ctx);
  }

  /**
   * One frame as the plugins schedule it: `reset_movement_input` (PreUpdate),
   * the state transition, the Update systems, then `handle_movement_physics`
   * (PostUpdate). The jump impulse is added exactly when the frame runs in
   * first-person, Space went down this frame and the body is grounded.
   */
  method Frame(mode: ModeSwitch, player: Entity, controller: PlayerController, impulse: ExternalImpulse,
               collisions: HitBuffer, bulletWorld: BulletWorld, global: Transform, linvel: Vec3,
               camera: Option<Basis>, cameras: seq<Transform>, keys: Input<KeyCode>, mouse: Input<MouseButton>,
               look: Option<Quat>, ctx: RapierContext, sqrt: real -> real)
    requires mode.Valid() && bulletWorld.Valid()
    requires camera.Some? <==> |cameras| == 1
    requires CastHonoursFilter(ctx) && PositiveRoot(sqrt)
    requires (if mode.next.pending.Some? then mode.next.pending.value else mode.state) == FirstPerson ==> |cameras| == 1
    modifies mode, mode.next, mode.windows, mode.menu, controller, impulse, collisions, bulletWorld
    ensures mode.Valid() && bulletWorld.Valid()
    ensures mode.state == if old(mode.next.pending).Some? then old(mode.next.pending).value else old(mode.state)
    ensures mode.next.pending == if Tab in keys.justPressed then Some(Toggled(mode.state)) else Option.None
    ensures mode.menu.menus == old(mode.menu.menus) && mode.menu.nextId == old(mode.menu.nextId)
    ensures mode.menu.visibility == TransitionVisibility(old(mode.menu.visibility), mode.menu.menus, old(mode.state), mode.state)
    ensures mode.WindowsKept()
    ensures collisions.hits == Sweep(ctx, GroundShape(global), ProbeMaxToi, GroundFilter(player), [])
    ensures controller.movementDirection == if mode.state == FirstPerson then InputDirection(camera, keys) else Zero
    ensures controller.jumping <==> mode.state == FirstPerson && Space in keys.justPressed
    ensures controller.lastTargetVelocity == SmoothedTarget(old(controller.lastTargetVelocity), controller.movementDirection, ctx.dt)
    ensures controller.cameraRotation ==
      if mode.state == FirstPerson && look.Some? then look.value else old(controller.cameraRotation)
    ensures impulse.impulse.x ==
      old(impulse.impulse.x) + HorizontalCorrection(controller.lastTargetVelocity, linvel, sqrt).x
    ensures impulse.impulse.z ==
      old(impulse.impulse.z) + HorizontalCorrection(controller.lastTargetVelocity, linvel, sqrt).z
    ensures impulse.impulse.y == old(impulse.impulse.y) +
      if mode.state == FirstPerson && Space in keys.justPressed && Grounded(collisions.hits) then JumpImpulse else 0.0
    ensures impulse.torqueImpulse == old(impulse.torqueImpulse)
    ensures mode.state == FirstPerson && Left in mouse.justPressed ==>
      && bulletWorld.bullets == Untouched(ctx, old(bulletWorld.bullets))[old(bulletWorld.nextId) := SpawnedBullet(cameras[0])]
      && bulletWorld.entities ==
           old(bulletWorld.entities) - (old(bulletWorld.bullets).Keys * ctx.contacts) + {old(bulletWorld.nextId)}
      && bulletWorld.nextId == old(bulletWorld.nextId) + 1
    ensures !(mode.state == FirstPerson && Left in mouse.justPressed) ==>
      && bulletWorld.bullets == Untouched(ctx, old(bulletWorld.bullets))
      && bulletWorld.entities == old(bulletWorld.entities) - (old(bulletWorld.bullets).Keys * ctx.contacts)
      && bulletWorld.nextId == old(bulletWorld.nextId)
  {
    // The frame's contract follows from the two stages' contracts alone.
    hide *;
    RunUntilPostUpdate(mode, controller, bulletWorld, camera, cameras, keys, mouse, look, ctx);
    HandleMovementPhysics(player, controller, global, linvel, impulse, ctx, collisions, sqrt);
  }
}
