# Player controller and mode switch of `working-title`, in Dafny

This project models the decision logic of the first-person player controller
of the `working-title` game prototype (a Bevy 0.12 / Rapier game) and the
two-state mode switch between playing and the menu:

- the ground probe: `intersections`, a shape-cast loop that records every
  collider under the player once, in cast order, and the ground verdict
  computed from those hits (first walkable hit, then a distance band);
- the `PlayerController` component and the systems that update it every
  frame: `reset_movement_input`, `handle_movement_input` (held keys and the
  jump edge) and `handle_movement_physics` (smoothing, the horizontal
  correction, the ground probe and the jump impulse);
- bullets: `handle_shooting` and `bullet_collision`;
- the mode switch `GameState` (`FirstPerson`, the default, and `MenuOpen`),
  the Tab handlers of both plugins, their state gating, and the enter/exit
  hooks that grab or release the cursor and show or hide the menu.

Floating-point numbers are modelled as exact reals. The physics engine is
abstracted: a `RapierContext` value carries the set of colliders, the
sensors, the entities currently in contact, the time step, and the
shape-cast query as an oracle function. The only thing assumed of the oracle
(`Rapier.CastHonoursFilter`) is what Rapier promises: a hit is on a collider
of the world that the filter it was given admits. From that alone the cast
loop is proved to terminate after at most one iteration per collider.
Input devices are parameters (`BevyInput.Input`: the keys held and the keys
that went down this frame). Bevy's deferred commands are applied at once,
which gives the same end state for the systems modelled here.

Modules: `Wrappers` (Option), `Ecs` (entity ids), `Glam` (vectors,
quaternions, `lerp`, `clamp_length_max`), `BevyInput`, `GameCore` (the state
enum and the `NextState` resource), `Rapier` (the abstract physics context),
`GroundProbe`, `PlayerControl`, `Bullets`, `Cursor`, `Menu`, and `Schedule`
(the order the plugins run their systems in, and the state transitions).

## Model

| member | source | states |
|---|---|---|
| GroundProbe.Extended | working-title-player/src/lib.rs:304-309 | each cast's filter admits exactly the entities not yet recorded that the caller's filter admits |
| GroundProbe.Sweep | working-title-player/src/lib.rs:303-325 | the hits the loop records extend what it had, are pairwise distinct, all on colliders the caller's filter admits, number at most the colliders of the world, and the loop ends only when a cast finds nothing; termination is proved from the oracle's promise alone |
| GroundProbe.SweepStopsExactlyWithoutHit | working-title-player/src/lib.rs:318-324 | the loop records nothing more exactly when the next cast returns no hit |
| GroundProbe.Intersections | working-title-player/src/lib.rs:292-326 | after the call the buffer holds exactly the loop's hits from an empty start (nothing from a previous call survives), distinct, admitted by the filter, at most one per collider, and the last cast found nothing |
| GroundProbe.FindGround | working-title-player/src/lib.rs:207-215 | the result is the first hit, in cast order, that is not penetrating and whose normal is within 45 degrees of up (a hit without details counts); it is absent exactly when no hit qualifies |
| GroundProbe.Grounded | working-title-player/src/lib.rs:218-222 | grounded exactly when the first walkable hit has `toi - 0.55` in [-0.3, 0.05], that is a distance in [0.25, 0.6]; never grounded without a walkable hit |
| GroundProbe.GroundIgnoresLaterHits | working-title-player/src/lib.rs:207-215 | hits after a walkable one never change the ground hit or the verdict |
| GroundProbe.GroundSkipsUnwalkable | working-title-player/src/lib.rs:207-215 | leading hits that are penetrating or too steep are skipped: the ground hit and verdict are those of the remaining hits |
| PlayerControl.PlayerController.constructor | working-title-player/src/lib.rs:108-114 | the default controller has no movement, no jump request, zero last target velocity and identity camera rotation |
| PlayerControl.AxisCoefficient | working-title-player/src/lib.rs:138-152 | a key pair moves +1, -1 or 0 along its axis; +1 exactly when only the positive key is held, -1 exactly when only the negative one is |
| PlayerControl.InputDirectionAxes | working-title-player/src/lib.rs:138-152 | the intent the four key checks build is `[W]-[S]` times forward plus `[D]-[A]` times right, so opposite keys held together cancel |
| PlayerControl.DirectionUpdates | working-title-player/src/lib.rs:129-152 | adding forward for W, subtracting it for S, adding right for D and subtracting it for A, in that order, takes a start vector to the start plus the intent; without a camera forward and right are zero and nothing is added |
| PlayerControl.AccumulateDirection | working-title-player/src/lib.rs:138-152 | the four `if` statements add or subtract forward and right exactly for the keys held, in the source's order |
| PlayerControl.ResetMovementInput | working-title-player/src/lib.rs:116-121 | the movement direction becomes zero and the jump request false; the last target velocity and camera rotation are unchanged |
| PlayerControl.HandleMovementInput | working-title-player/src/lib.rs:123-158 | the direction grows by `[W]-[S]` times forward plus `[D]-[A]` times right (nothing without a camera, no normalisation); the jump request is raised only by a just-pressed Space, never by a held one |
| PlayerControl.HorizontalCorrection | working-title-player/src/lib.rs:185-187 | the correction has no vertical component, and a velocity gap no longer than 10 is passed on unchanged apart from its y |
| PlayerControl.GroundFilter | working-title-player/src/lib.rs:201-203 | the ground probe admits exactly the non-sensor colliders other than the player's own |
| PlayerControl.HandleMovementPhysics | working-title-player/src/lib.rs:160-230 | the hit buffer holds the ground probe's sweep, never the player's own collider or a sensor; the last target velocity becomes the smoothed target, and the impulse grows in x and z by the horizontal correction towards it and in y by 100 exactly when grounded and jumping; torque, movement intent, jump request and camera rotation are unchanged |
| PlayerControl.ClampPitch | working-title-player/src/lib.rs:350 | the pitch always ends in [-1.54, 1.54], is unchanged inside it and is set to the nearer limit outside it |
| PlayerControl.HandleMouse | working-title-player/src/lib.rs:337-355 | with a primary window and mouse motion the camera rotation becomes the rotation the last event computes; without either it is kept; the movement intent, jump request and last target velocity are never touched |
| PlayerControl.HandleOtherInput | working-title-player/src/lib.rs:362-369 | a just-pressed Tab requests `MenuOpen`; otherwise the pending request is unchanged |
| Bullets.HandleShooting | working-title-player/src/lib.rs:232-268 | with exactly one camera, a just-pressed left button spawns exactly one bullet one unit ahead of the camera moving forward at 200; otherwise the world is unchanged |
| Bullets.BulletCollision | working-title-player/src/lib.rs:273-283 | exactly the bullets with at least one contact are despawned; bullets without contact and every other entity remain, and no entity id is used up |
| Cursor.GrabCursor | working-title-player/src/lib.rs:32-37 | with a single primary window the cursor becomes locked and hidden; otherwise nothing changes |
| Cursor.ReleaseCursor | working-title-player/src/lib.rs:39-44 | with a single primary window the cursor becomes free and visible; otherwise nothing changes |
| Menu.CreateMenu | working-title-menu/src/lib.rs:18-33 | a new menu entity is spawned with visibility `Hidden` |
| Menu.SetMenus | working-title-menu/src/lib.rs:35-45 | every menu entity gets the given visibility and every other entity keeps its own |
| Menu.SetMenusTwice | working-title-menu/src/lib.rs:35-45 | setting the menus twice leaves only the second setting, so show then hide leaves every menu hidden |
| Menu.SetMenusUnchanged | working-title-menu/src/lib.rs:41-45 | hiding menus that are all hidden already (or showing visible ones) changes nothing |
| Menu.SetAllMenus | working-title-menu/src/lib.rs:36-38 | the `for_each_mut` loop writes the visibility into every menu and touches nothing else |
| Menu.ShowMenu | working-title-menu/src/lib.rs:35-39 | every menu becomes `Visible`; other entities are untouched |
| Menu.HideMenu | working-title-menu/src/lib.rs:41-45 | every menu becomes `Hidden`; other entities are untouched |
| Menu.HandleInput | working-title-menu/src/lib.rs:47-51 | a just-pressed Tab requests `FirstPerson`; otherwise the pending request is unchanged |
| Schedule.Toggled | working-title-core/src/lib.rs:3-8 | Tab always asks for the other of the two states |
| Schedule.TransitionVisibility | working-title-menu/src/lib.rs:9-10 | a change of state gives every menu the new state's visibility and every other entity keeps its own, with the same set of entities; no change of state keeps the map |
| Schedule.TransitionRoundTrip | working-title-menu/src/lib.rs:9-10 | leaving a state and coming back restores the visibility of every entity, provided the menus had the first state's visibility |
| Schedule.ModeSwitch.constructor | working-title-player/src/lib.rs:27 | the game starts in `FirstPerson` with the cursor grabbed and the (hidden) menus hidden; the menu world is untouched, and windows keep their cursor settings unless there is exactly one primary window |
| Schedule.ModeSwitch.Exit | working-title-menu/src/lib.rs:10 | leaving `FirstPerson` releases the cursor (`release_cursor`, working-title-player/src/lib.rs:28) and keeps every visibility; leaving `MenuOpen` hides every menu and keeps every window's cursor settings; the menu set and the entity counter are kept, and windows keep their cursor settings unless there is exactly one primary window |
| Schedule.ModeSwitch.Enter | working-title-menu/src/lib.rs:9 | entering `FirstPerson` grabs the cursor (`grab_cursor`, working-title-player/src/lib.rs:27) and keeps every visibility; entering `MenuOpen` shows every menu and keeps every window's cursor settings; the menu set and the entity counter are kept, and windows keep their cursor settings unless there is exactly one primary window |
| Schedule.ModeSwitch.SwitchTo | working-title-player/src/lib.rs:27-28 | the exit hooks of the current state, then the enter hooks of the new one, reach the new state with the invariant "first-person: cursor grabbed, menus hidden; menu open: cursor free, menus visible" kept and the visibility map changed as the transition prescribes |
| Schedule.ModeSwitch.ApplyStateTransition | working-title-player/src/lib.rs:27-28 | a pending request is consumed and becomes the state; the mode invariant is kept; the menu set and entity counter are kept; every visibility changes as `TransitionVisibility` says, so a round trip restores them (`TransitionRoundTrip`); windows keep their cursor settings unless there is exactly one primary window; without a change of state windows and menus are untouched |
| Schedule.ToggleTwice | working-title-player/src/lib.rs:27-28 | two Tab requests, each followed by its transition, bring back the starting state, the same menus with every entity's visibility as before, and the cursor invariant |
| Schedule.StartFrame | working-title-player/src/lib.rs:25 | before Update the movement intent and jump request are cleared while the last target velocity and camera rotation are kept, and a pending state request is applied with the transition's full effect on state, menus and windows |
| Schedule.RunUpdate | working-title-player/src/lib.rs:14-24 | the movement, mouse-look, Tab and shooting input run only in `FirstPerson`, the menu's Tab input only in `MenuOpen`, so a Tab press requests the other state; the intent grows by the keys' direction, the jump request rises on a Space press and the camera rotation takes the mouse look's rotation only in `FirstPerson`; `bullet_collision` runs in both states, and a bullet is spawned with a fresh id only on a left click in `FirstPerson` |
| Schedule.RunUntilPostUpdate | working-title-player/src/lib.rs:14-28 | after PreUpdate, the transition and Update, the state is the requested one, a Tab press is pending as a request for the other state, menus and windows are as the transition leaves them, the intent and jump request come from this frame's keys, and the camera rotation from its mouse look, only in `FirstPerson`, and the bullets are those that touched nothing plus one spawned on a left click in `FirstPerson` |
| Schedule.Frame | working-title-player/src/lib.rs:14-28 | over one frame: everything `RunUntilPostUpdate` states, then the ground probe's hits, the new smoothed target, the horizontal correction in x and z, and the jump impulse added exactly when the frame runs in `FirstPerson`, Space went down this frame and the body is grounded; with the menu open there is no movement intent, no jump and no change of camera rotation |

## Left out

- `handle_mouse` (working-title-player/src/lib.rs:331-360): the Euler-angle decomposition, degree/radian conversion, window scaling and quaternion composition are floating-point orientation work. The pitch clamp is modelled (`PlayerControl.ClampPitch`), and so is the effect on the controller (`PlayerControl.HandleMouse`), with the rotation of the frame's last mouse event as a parameter; the camera entity's own `Transform` is not part of the model.
- Camera basis normalisation in `handle_movement_input` (lines 129-136): the normalised horizontal forward and right vectors are a parameter (`Option<Basis>`, absent without a single camera) rather than computed with a square root.
- Square roots: `clamp_length_max` is modelled as glam writes it, with `f32::sqrt` supplied by the caller and assumed only to be positive on positive input; rounding of f32 arithmetic is not modelled anywhere.
- Rapier's `cast_shape` and `contacts_with`: the cast is an oracle in `RapierContext` (with the shape, `max_toi` and `stop_at_penetration` passed to it), contacts are a set of entities. The contact normal of a hit is reduced to whether it is within 45 degrees of up.
- `setup_player` (asset loading and bundle spawning) and `working-title-main/src/main.rs` (lights and the test world): engine bootstrap with no decision logic.
- The physics step itself (integration of the impulse into velocity), and the ordering of `handle_movement_physics` relative to Rapier's own PostUpdate sets.
- Bevy's state machinery beyond one pending request per frame: `apply_state_transition` is modelled as taking the request and running the exit and enter hooks only when it names another state; the Bevy schedule is reduced to PreUpdate, the transition, Update and PostUpdate.
- Only one player and one camera exist (`setup_player` spawns one of each), so the `for_each_mut` loops over `PlayerController` are modelled on that one controller.
- Exactly one camera is required only for frames that run in `FirstPerson`: `handle_shooting` unwraps the single camera there and panics otherwise; with the menu open no system reads the cameras.
- Bullet growth is unbounded, as in the source: bullets that never touch anything stay forever.
