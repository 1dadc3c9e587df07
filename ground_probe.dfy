/**
 * Ground detection of the player controller: the deduplicating shape-cast
 * loop `intersections`, and the ground verdict computed from its hits.
 */
module GroundProbe {
  import opened Wrappers
  import opened Glam
  import opened Ecs
  import opened Rapier

  /** The entities of a list of hits. */
  function Entities(hits: seq<Hit>): set<Entity> {
    set i | 0 <= i < |hits| :: hits[i].entity
  }

  /** No entity is recorded twice. */
  predicate Distinct(hits: seq<Hit>) {
    forall i, j | 0 <= i < j < |hits| :: hits[i].entity != hits[j].entity
  }

  /** Every recorded entity is a collider of the world that `filter` admits. */
  predicate AllAdmitted(ctx: RapierContext, filter: QueryFilter, hits: seq<Hit>) {
    forall i | 0 <= i < |hits| :: hits[i].entity in ctx.colliders && Admits(ctx, filter, hits[i].entity)
  }

  /**
   * The filter of one iteration of the loop: the caller's filter with its
   * predicate replaced by "not yet recorded, and admitted by the caller's
   * predicate".
   */
  function Extended(filter: QueryFilter, hits: seq<Hit>): (f: QueryFilter)
    ensures forall ctx: RapierContext, e: Entity ::
      Admits(ctx, f, e) <==> e !in Entities(hits) && Admits(ctx, filter, e)
  {
    var callerPred := filter.pred;
    filter.(pred := Some((e: Entity) => e !in Entities(hits) && PredicateAllows(callerPred, e)))
  }

  lemma EntitiesAppend(hits: seq<Hit>, h: Hit)
    ensures Entities(hits + [h]) == Entities(hits) + {h.entity}
  {
    var ext := hits + [h];
    assert forall e :: e in Entities(ext) ==> e in Entities(hits) + {h.entity};
    forall e | e in Entities(hits) + {h.entity} ensures e in Entities(ext) {
      if e == h.entity {
        assert ext[|hits|].entity == e;
      } else {
        var i :| 0 <= i < |hits| && hits[i].entity == e;
        assert ext[i].entity == e;
      }
    }
  }

  /** Distinct hits have as many entities as there are hits. */
  lemma {:induction false} DistinctCard(hits: seq<Hit>)
    requires Distinct(hits)
    ensures |Entities(hits)| == |hits|
  {
    if hits != [] {
      var init := hits[..|hits| - 1];
      var last := hits[|hits| - 1];
      assert hits == init + [last];
      DistinctCard(init);
      EntitiesAppend(init, last);
      assert last.entity !in Entities(init);
    }
  }

  /** Recording one more unseen collider shrinks the colliders still to be found. */
  lemma RemainderShrinks(universe: set<Entity>, seen: set<Entity>, e: Entity)
    requires e in universe && e !in seen
    ensures |universe - (seen + {e})| < |universe - seen|
  {
    assert universe - seen == (universe - (seen + {e})) + {e};
  }

  lemma SubsetCard(a: set<Entity>, b: set<Entity>)
    requires a <= b
    ensures |a| <= |b|
  {
    assert b == a + (b - a);
  }

  /** A hit of the extended filter is a new collider that the caller's filter admits. */
  lemma ExtendedHit(ctx: RapierContext, shape: ShapeDesc, maxToi: real, filter: QueryFilter, acc: seq<Hit>)
    requires CastHonoursFilter(ctx)
    requires ctx.castShape(shape, maxToi, true, Extended(filter, acc)).Some?
    ensures var e := ctx.castShape(shape, maxToi, true, Extended(filter, acc)).value.entity;
      e in ctx.colliders && e !in Entities(acc) && Admits(ctx, filter, e)
  {
  }

  /** Appending a new admitted collider keeps the recorded hits distinct and admitted. */
  lemma AppendKeeps(ctx: RapierContext, filter: QueryFilter, acc: seq<Hit>, h: Hit)
    requires Distinct(acc) && AllAdmitted(ctx, filter, acc)
    requires h.entity in ctx.colliders && h.entity !in Entities(acc) && Admits(ctx, filter, h.entity)
    ensures Distinct(acc + [h]) && AllAdmitted(ctx, filter, acc + [h])
  {
  }

  /**
   * What the cast loop records once it has recorded `acc`: the next cast, with
   * every recorded entity excluded, either finds nothing and the loop stops,
   * or its hit is appended and the loop goes on.
   */
  function Sweep(ctx: RapierContext, shape: ShapeDesc, maxToi: real, filter: QueryFilter, acc: seq<Hit>): (r: seq<Hit>)
    requires CastHonoursFilter(ctx)
    requires Distinct(acc) && AllAdmitted(ctx, filter, acc)
    ensures acc <= r
    ensures Distinct(r) && AllAdmitted(ctx, filter, r)
    ensures |r| <= |ctx.colliders|
    ensures ctx.castShape(shape, maxToi, true, Extended(filter, r)).None?
    decreases |ctx.colliders - Entities(acc)|
  {
    match ctx.castShape(shape, maxToi, true, Extended(filter, acc))
    case None =>
      DistinctCard(acc);
      SubsetCard(Entities(acc), ctx.colliders);
      acc
    case Some(h) =>
      var next := acc + [h];
      ExtendedHit(ctx, shape, maxToi, filter, acc);
      AppendKeeps(ctx, filter, acc, h);
      EntitiesAppend(acc, h);
      RemainderShrinks(ctx.colliders, Entities(acc), h.entity);
      Sweep(ctx, shape, maxToi, filter, next)
  }

  /**
   * The loop stops exactly when the cast returns nothing: the recorded hits
   * are final if and only if the next cast finds no hit.
   */
  lemma SweepStopsExactlyWithoutHit(ctx: RapierContext, shape: ShapeDesc, maxToi: real, filter: QueryFilter, acc: seq<Hit>)
    requires CastHonoursFilter(ctx)
    requires Distinct(acc) && AllAdmitted(ctx, filter, acc)
    ensures Sweep(ctx, shape, maxToi, filter, acc) == acc <==> ctx.castShape(shape, maxToi, true, Extended(filter, acc)).None?
  {
  }

  /** The `Local<Vec<(Entity, Toi)>>` buffer the physics system reuses from frame to frame. */
  class HitBuffer {
    var hits: seq<Hit>

    constructor ()
      ensures hits == []
    {
      hits := [];
    }
  }

  /**
   * `intersections`: clears the buffer, then casts again and again, each cast
   * excluding every entity already recorded, and appends each hit in cast
   * order until a cast returns nothing.
   */
  method Intersections(ctx: RapierContext, shape: ShapeDesc, maxToi: real, filter: QueryFilter, collisions: HitBuffer)
    requires CastHonoursFilter(ctx)
    modifies collisions
    ensures collisions.hits == Sweep(ctx, shape, maxToi, filter, [])
    ensures Distinct(collisions.hits) && AllAdmitted(ctx, filter, collisions.hits)
    ensures |collisions.hits| <= |ctx.colliders|
    ensures ctx.castShape(shape, maxToi, true, Extended(filter, collisions.hits)).None?
  {
    collisions.hits := [];
    while true
      invariant Distinct(collisions.hits) && AllAdmitted(ctx, filter, collisions.hits)
      invariant Sweep(ctx, shape, maxToi, filter, collisions.hits) == Sweep(ctx, shape, maxToi, filter, [])
      decreases |ctx.colliders - Entities(collisions.hits)|
    {
      var cast := ctx.castShape(shape, maxToi, true, Extended(filter, collisions.hits));
      if cast.None? {
        break;
      }
      ExtendedHit(ctx, shape, maxToi, filter, collisions.hits);
      AppendKeeps(ctx, filter, collisions.hits, cast.value);
      EntitiesAppend(collisions.hits, cast.value);
      RemainderShrinks(ctx.colliders, Entities(collisions.hits), cast.value.entity);
      collisions.hits := collisions.hits + [cast.value];
    }
  }

  /**
   * The ground test applied to each hit: the cast did not start inside the
   * collider, and the contact normal is within 45 degrees of up; a hit
   * without details passes the normal test.
   */
  predicate IsWalkable(h: Hit) {
    h.toi.status != Penetrating &&
    match h.toi.details
    case None => true
    case Some(det) => det.normalWithin45
  }

  /** Hit `i` is walkable and no earlier hit is. */
  predicate IsFirstWalkable(hits: seq<Hit>, i: int) {
    0 <= i < |hits| && IsWalkable(hits[i]) && forall j | 0 <= j < i :: !IsWalkable(hits[j])
  }

  /** `collisions.iter().find(..)`: the first walkable hit, in cast order. */
  function FindGround(hits: seq<Hit>): (r: Option<Hit>)
    ensures r.None? <==> forall i | 0 <= i < |hits| :: !IsWalkable(hits[i])
    ensures r.Some? ==> exists i :: IsFirstWalkable(hits, i) && hits[i] == r.value
  {
    if hits == [] then None
    else if IsWalkable(hits[0]) then
      assert IsFirstWalkable(hits, 0);
      Some(hits[0])
    else
      var r := FindGround(hits[1..]);
      r
  }

  /** Distance the probe travels from the body centre to a surface the body rests on. */
  const FloatHeight: real := 0.55
  const MinOffset: real := -0.3
  const MaxOffset: real := 0.05

  /** `toi - 0.55` of the ground hit, when there is one. */
  function FloatOffset(hits: seq<Hit>): Option<real> {
    match FindGround(hits)
    case None => None
    case Some(h) => Some(h.toi.toi - FloatHeight)
  }

  /**
   * The ground verdict: the first walkable hit lies between 0.25 and 0.6
   * units below the body centre, both ends included; without a walkable hit
   * the body is not grounded.
   */
  function Grounded(hits: seq<Hit>): (g: bool)
    ensures g <==> exists i :: IsFirstWalkable(hits, i) && 0.25 <= hits[i].toi.toi <= 0.6
  {
    match FloatOffset(hits)
    case None => false
    case Some(offset) => MinOffset <= offset <= MaxOffset
  }

  /** Hits recorded after a walkable one never change the ground hit or the verdict. */
  lemma {:induction false} GroundIgnoresLaterHits(hits: seq<Hit>, later: seq<Hit>)
    requires exists i :: 0 <= i < |hits| && IsWalkable(hits[i])
    ensures FindGround(hits + later) == FindGround(hits)
    ensures Grounded(hits + later) == Grounded(hits)
  {
    if !IsWalkable(hits[0]) {
      assert (hits + later)[1..] == hits[1..] + later;
      var i :| 0 <= i < |hits| && IsWalkable(hits[i]);
      assert hits[1..][i - 1] == hits[i];
      GroundIgnoresLaterHits(hits[1..], later);
    }
  }

  /** Hits that are not walkable are skipped: a steep or penetrating nearest hit defers to the next one. */
  lemma {:induction false} GroundSkipsUnwalkable(skipped: seq<Hit>, hits: seq<Hit>)
    requires forall i | 0 <= i < |skipped| :: !IsWalkable(skipped[i])
    ensures FindGround(skipped + hits) == FindGround(hits)
    ensures Grounded(skipped + hits) == Grounded(hits)
  {
    if skipped != [] {
      assert (skipped + hits)[0] == skipped[0];
      assert (skipped + hits)[1..] == skipped[1..] + hits;
      GroundSkipsUnwalkable(skipped[1..], hits);
    } else {
      assert skipped + hits == hits;
    }
  }
}
