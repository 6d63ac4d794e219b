/**
  * The per-enemy visibility verdict that CrosshairSnap.DetectEnemies computes
  * every frame. The engine's geometry (Physics.Raycast from the enemy towards
  * the player, Vector3.Distance, Vector3.Dot) is not modelled: its results for
  * one enemy in one frame arrive as a `Sighting`.
  */
module Visibility {
  import opened Wrappers

  /** A world position; the model only copies positions, it never computes with them. */
  datatype Position = Position(x: real, y: real, z: real)

  /** Enemy.CanSeePlayer. The C# enum is nested in the Enemy class; Dafny has
    * no types inside classes, so it is declared here, next to Verdict, which
    * computes it. */
  datatype CanSeePlayer = Seen | Unseen

  /** What the engine reports about one enemy in one frame:
    * `hit` is the distance to the first collider struck by the ray cast from
    * the enemy towards the player (None when the ray strikes nothing),
    * `trueDistance` is the straight-line distance enemy-player and `dot` is
    * the dot product of the crosshair's forward vector with the vector from
    * the crosshair to the enemy. The model puts no sign constraint on these
    * numbers: a ray cast reports only non-negative distances, but nothing here
    * relies on that, so every statement below holds for all reals. */
  datatype Sighting = Sighting(hit: Option<real>, trueDistance: real, dot: real)

  /** The tolerance between hit distance and true distance (2 world units). */
  const LineOfSightTolerance: real := 2.0

  /** hit.distance as the code reads it: a miss leaves the default RaycastHit,
    * whose distance is 0. */
  function HitDistance(s: Sighting): real
  {
    match s.hit
    case Some(d) => d
    case None => 0.0
  }

  /** Mathf.Abs. */
  function Abs(x: real): (r: real)
    ensures r >= 0.0 && (r == x || r == -x)
  {
    if x < 0.0 then -x else x
  }

  /** The three-part condition of DetectEnemies: the ray reached (about) the
    * player, the hit distance is inside the snap range, and the enemy lies in
    * front of the crosshair by more than maxBehindEngageDistance. */
  predicate Qualifies(s: Sighting, distanceToSnap: real, maxBehindEngageDistance: real)
  {
    && Abs(HitDistance(s) - s.trueDistance) < LineOfSightTolerance
    && HitDistance(s) < distanceToSnap
    && s.dot > maxBehindEngageDistance
  }

  /** The flag DetectEnemies writes for an enemy with this sighting. */
  function Verdict(s: Sighting, distanceToSnap: real, maxBehindEngageDistance: real): CanSeePlayer
  {
    if Qualifies(s, distanceToSnap, maxBehindEngageDistance) then Seen else Unseen
  }

  /** Although the range test reads the hit distance, the tolerance bounds it by
    * the true distance: an enemy at least distanceToSnap + 2 away is never Seen. */
  lemma FarEnemyUnseen(s: Sighting, distanceToSnap: real, maxBehindEngageDistance: real)
    requires s.trueDistance >= distanceToSnap + LineOfSightTolerance
    ensures Verdict(s, distanceToSnap, maxBehindEngageDistance) == Unseen
  {
  }

  /** The bound above is tight: because the range test reads the hit distance,
    * an enemy whose true distance lies in [distanceToSnap, distanceToSnap + 2)
    * is still Seen when its ray stops a little short of the player. */
  lemma NearBoundarySeen(trueDistance: real, dot: real, distanceToSnap: real, maxBehindEngageDistance: real)
    requires distanceToSnap <= trueDistance < distanceToSnap + LineOfSightTolerance
    requires dot > maxBehindEngageDistance
    ensures var hit := (trueDistance - LineOfSightTolerance + distanceToSnap) / 2.0;
            Verdict(Sighting(Some(hit), trueDistance, dot), distanceToSnap, maxBehindEngageDistance) == Seen
  {
  }

  /** A concrete scenario of NearBoundarySeen (distanceToSnap = 125, true
    * distance 126, witness hit distance (126 - 2 + 125) / 2 = 124.5): with the
    * default settings the enemy is Seen, although it is beyond distanceToSnap. */
  lemma DefaultRangeExample()
    ensures Verdict(Sighting(Some(124.5), 126.0, 15.0), 125.0, 10.0) == Seen
  {
  }

  /** A ray that strikes nothing is read as distance 0, so a miss can qualify,
    * but only for an enemy closer than 2 units to the player. */
  lemma MissSeenOnlyWhenClose(s: Sighting, distanceToSnap: real, maxBehindEngageDistance: real)
    requires s.hit.None?
    ensures Verdict(s, distanceToSnap, maxBehindEngageDistance) == Seen <==>
      (-LineOfSightTolerance < s.trueDistance < LineOfSightTolerance && 0.0 < distanceToSnap && s.dot > maxBehindEngageDistance)
  {
  }
}
