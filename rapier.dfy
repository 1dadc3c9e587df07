/**
 * The part of the Rapier physics context the controller queries. The engine's
 * own collision algorithms are not modelled: a shape cast is an oracle that
 * returns no hit or one hit on a collider of the world.
 */
module Rapier {
  import opened Wrappers
  import opened Glam
  import opened Ecs

  /** The collider shapes the controller and the bullets use: balls. */
  datatype Collider = Ball(radius: real)

  /** The shape swept by a cast: position, rotation, direction of travel and the shape itself. */
  datatype ShapeDesc = ShapeDesc(shapePos: Vec3, shapeRot: Quat, shapeVel: Vec3, shape: Collider)

  datatype TOIStatus = OutOfIterations | Converged | Failed | Penetrating

  /**
   * Contact details of a hit. The controller reads only whether `normal1` is
   * within 45 degrees of up, so the normal is reduced to that one fact.
   */
  datatype ToiDetails = ToiDetails(normalWithin45: bool)

  /** Rapier's `Toi`: distance travelled before impact, status and optional details. */
  datatype Toi = Toi(toi: real, status: TOIStatus, details: Option<ToiDetails>)

  /** One recorded cast result, the `(Entity, Toi)` pair. */
  datatype Hit = Hit(entity: Entity, toi: Toi)

  /** `QueryFilter`: the sensor flag and the optional caller predicate. */
  datatype QueryFilter = QueryFilter(excludeSensors: bool, pred: Option<Entity -> bool>)

  /** `QueryFilter::new()`. */
  const NewFilter: QueryFilter := QueryFilter(false, None)

  /** `predicate.map(|pred| pred(entity)).unwrap_or(true)`. */
  function PredicateAllows(pred: Option<Entity -> bool>, e: Entity): bool {
    match pred
    case None => true
    case Some(p) => p(e)
  }

  /**
   * The physics context: every collider of the world, which of them are
   * sensors, the shape-cast query, the entities that currently touch
   * something, and the integration time step.
   */
  datatype RapierContext = RapierContext(
    colliders: set<Entity>,
    sensors: set<Entity>,
    castShape: (ShapeDesc, real, bool, QueryFilter) -> Option<Hit>,
    contacts: set<Entity>,
    dt: real)

  /** Whether a cast under filter `f` may report collider `e`. */
  predicate Admits(ctx: RapierContext, f: QueryFilter, e: Entity) {
    (f.excludeSensors ==> e !in ctx.sensors) && PredicateAllows(f.pred, e)
  }

  /**
   * The engine's promise about `cast_shape`: a hit is always on a collider of
   * the world that the filter it was given admits.
   */
  ghost predicate CastHonoursFilter(ctx: RapierContext) {
    forall shape, maxToi, stop, f ::
      ctx.castShape(shape, maxToi, stop, f).Some? ==>
        ctx.castShape(shape, maxToi, stop, f).value.entity in ctx.colliders &&
        Admits(ctx, f, ctx.castShape(shape, maxToi, stop, f).value.entity)
  }

  /** `ctx.contacts_with(entity).next().is_some()`. */
  predicate HasContact(ctx: RapierContext, e: Entity) {
    e in ctx.contacts
  }
}
