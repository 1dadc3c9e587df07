/**
 * Projectiles: `handle_shooting` spawns one bullet per press of the left
 * mouse button, and `bullet_collision` removes every bullet that touches
 * anything.
 */
module Bullets {
  import opened Glam
  import opened BevyInput
  import opened Ecs
  import opened Rapier

  /** Speed a bullet leaves the camera with. */
  const BulletSpeed: real := 200.0
  const BulletRadius: real := 0.025

  /** A spawned bullet: where it starts, its velocity and its collider. */
  datatype Bullet = Bullet(transform: Transform, velocity: Vec3, collider: Collider)

  /**
   * The entities of the world: every live entity, the live ones that carry
   * the `Bullet` marker, and the next fresh entity id.
   */
  class BulletWorld {
    var entities: set<Entity>
    var bullets: map<Entity, Bullet>
    var nextId: Entity

    ghost predicate Valid()
      reads this
    {
      bullets.Keys <= entities && forall e | e in entities :: e < nextId
    }

    constructor (initial: set<Entity>, next: Entity)
      requires forall e | e in initial :: e < next
      ensures Valid() && entities == initial && bullets == map[] && nextId == next
    {
      entities, bullets, nextId := initial, map[], next;
    }
  }

  /**
   * The bullet `handle_shooting` spawns: one unit in front of the camera,
   * moving along the camera's forward vector at `BulletSpeed`.
   */
  function SpawnedBullet(camera: Transform): Bullet {
    var forward := Forward(camera);
    Bullet(Transform(Add(camera.translation, forward), camera.rotation), Scale(forward, BulletSpeed), Ball(BulletRadius))
  }

  /**
   * `handle_shooting`. The source unwraps the single camera and panics
   * otherwise, so exactly one camera is required. A bullet is spawned only
   * on the frame the left button goes down.
   */
  method HandleShooting(world: BulletWorld, mouse: Input<MouseButton>, cameras: seq<Transform>)
    requires |cameras| == 1
    requires world.Valid()
    modifies world
    ensures world.Valid()
    ensures Left in mouse.justPressed ==>
      && world.entities == old(world.entities) + {old(world.nextId)}
      && world.bullets == old(world.bullets)[old(world.nextId) := SpawnedBullet(cameras[0])]
      && world.nextId == old(world.nextId) + 1
    ensures Left !in mouse.justPressed ==>
      world.entities == old(world.entities) && world.bullets == old(world.bullets) && world.nextId == old(world.nextId)
  {
    var camera := cameras[0];
    if Left in mouse.justPressed {
      var e := world.nextId;
      world.entities := world.entities + {e};
      world.bullets := world.bullets[e := SpawnedBullet(camera)];
      world.nextId := world.nextId + 1;
    }
  }

  /** The bullets of `bullets` that touch nothing. */
  function Untouched(ctx: RapierContext, bullets: map<Entity, Bullet>): (r: map<Entity, Bullet>)
    ensures forall e :: e in r <==> e in bullets && !HasContact(ctx, e)
    ensures forall e | e in r :: r[e] == bullets[e]
  {
    map e | e in bullets && !HasContact(ctx, e) :: bullets[e]
  }

  /** The bullets while `bullet_collision` runs: the untouched ones, and those still to visit. */
  function Pending(ctx: RapierContext, bullets: map<Entity, Bullet>, toVisit: set<Entity>): (r: map<Entity, Bullet>)
    requires toVisit <= bullets.Keys
    ensures toVisit == {} ==> r == Untouched(ctx, bullets)
    ensures toVisit == bullets.Keys ==> r == bullets
  {
    Untouched(ctx, bullets) + map e | e in toVisit :: bullets[e]
  }

  /** Visiting one bullet removes it from the pending ones exactly when it has a contact. */
  lemma VisitOne(ctx: RapierContext, bullets: map<Entity, Bullet>, toVisit: set<Entity>, e: Entity)
    requires toVisit <= bullets.Keys && e in toVisit
    ensures Pending(ctx, bullets, toVisit - {e}) ==
      if HasContact(ctx, e) then Pending(ctx, bullets, toVisit) - {e} else Pending(ctx, bullets, toVisit)
  {
  }

  /**
   * `bullet_collision`: visits every bullet and despawns those that have a
   * contact. Bullets without contact and all other entities stay.
   */
  method BulletCollision(world: BulletWorld, ctx: RapierContext)
    requires world.Valid()
    modifies world
    ensures world.Valid()
    ensures world.bullets == Untouched(ctx, old(world.bullets))
    ensures world.entities == old(world.entities) - (old(world.bullets).Keys * ctx.contacts)
    ensures world.nextId == old(world.nextId)
  {
    var toVisit := world.bullets.Keys;
    ghost var visited: set<Entity> := {};
    while toVisit != {}
      invariant world.Valid()
      invariant toVisit + visited == old(world.bullets).Keys && toVisit !! visited
      invariant world.bullets == Pending(ctx, old(world.bullets), toVisit)
      invariant world.entities == old(world.entities) - (visited * ctx.contacts)
      invariant world.nextId == old(world.nextId)
      decreases toVisit
    {
      var e :| e in toVisit;
      VisitOne(ctx, old(world.bullets), toVisit, e);
      if HasContact(ctx, e) {
        world.entities := world.entities - {e};
        world.bullets := world.bullets - {e};
      }
      toVisit := toVisit - {e};
      visited := visited + {e};
    }
  }
}
