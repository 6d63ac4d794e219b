/**
  * CrosshairSnap (CrosshairSnap.cs): the enemy registry, the per-frame
  * visibility pass and the decision to snap the crosshair onto the enemy under
  * the aim ray. Engine queries arrive as parameters: the enemies that
  * FindGameObjectsWithTag returns, the per-enemy geometry of the frame, the
  * aim-dummy position and what the aim ray struck.
  */
module Crosshair {
  import opened Wrappers
  import opened Visibility
  import opened Enemies
  import opened Detection

  /** What the aim ray cast in Snap struck. */
  datatype AimHit =
    | Nothing
      /** A collider whose object carries the Enemy component. */
    | EnemyHit(enemy: Enemy)
      /** Any other collider, with its object's tag. */
    | OtherHit(tag: string)

  /** The snap condition: the ray struck something, tagged "Enemy", whose flag is Seen. */
  predicate LocksOn(hit: AimHit)
    reads if hit.EnemyHit? then {hit.enemy} else {}
  {
    hit.EnemyHit? && hit.enemy.tag == "Enemy" && hit.enemy.snap == Seen
  }

  class CrosshairSnap {
    /** Settings. */
    var distanceToSnap: real
    var maxBehindEngageDistance: real
    /** allEnemies: the registry, in scan order, duplicates included. */
    var allEnemies: seq<Enemy>
    /** snappableCrosshair.transform.position. */
    var primaryPosition: Position
    /** secondaryCrosshair.transform.position and its active state. */
    var secondaryPosition: Position
    var secondaryActive: bool
    /** The target of the DOMove tween started by this frame's Snap, if any. */
    var tweenTarget: Option<Position>

    /** The component as the scene creates it, with the default settings. */
    constructor (at: Position, secondaryActive: bool)
      ensures distanceToSnap == 125.0 && maxBehindEngageDistance == 10.0
      ensures allEnemies == [] && tweenTarget == None
      ensures primaryPosition == at && secondaryPosition == at && this.secondaryActive == secondaryActive
    {
      distanceToSnap := 125.0;
      maxBehindEngageDistance := 10.0;
      allEnemies := [];
      primaryPosition := at;
      secondaryPosition := at;
      this.secondaryActive := secondaryActive;
      tweenTarget := None;
    }

    /** Start: hide the secondary crosshair and begin with an empty registry. */
    method Start()
      modifies this`secondaryActive, this`allEnemies
      ensures !secondaryActive && allEnemies == []
    {
      secondaryActive := false;
      allEnemies := [];
    }

    /** AddEnemiesToList: append what the scan found, in the order found, after
      * every entry already registered; nothing is deduplicated. */
    method AddEnemiesToList(found: seq<Enemy>)
      modifies this`allEnemies
      ensures allEnemies == old(allEnemies) + found
      ensures |allEnemies| == old(|allEnemies|) + |found|
      ensures forall e :: multiset(allEnemies)[e] == old(multiset(allEnemies))[e] + multiset(found)[e]
    {
      allEnemies := allEnemies + found;
    }

    /** DetectEnemies: write every listed enemy's flag from this frame's
      * geometry; no other field and no unlisted enemy is touched. */
    method DetectEnemies(enemies: seq<Enemy>, geometry: map<Enemy, Sighting>)
      requires Covers(enemies, geometry)
      modifies enemies`snap
      ensures forall e :: e in enemies ==> e.snap == Verdict(geometry[e], distanceToSnap, maxBehindEngageDistance)
      ensures forall e :: e in enemies ==>
        (e.snap == Seen <==>
          && -LineOfSightTolerance < HitDistance(geometry[e]) - geometry[e].trueDistance < LineOfSightTolerance
          && HitDistance(geometry[e]) < distanceToSnap
          && geometry[e].dot > maxBehindEngageDistance)
      ensures forall e :: e in enemies ==> e.snap == Detect(old(Flags(enemies)), enemies, geometry, distanceToSnap, maxBehindEngageDistance)[e]
    {
      ghost var before := Flags(enemies);
      for i := 0 to |enemies|
        invariant forall e :: e in enemies[..i] ==> e.snap == Verdict(geometry[e], distanceToSnap, maxBehindEngageDistance)
      {
        var e := enemies[i];
        if Qualifies(geometry[e], distanceToSnap, maxBehindEngageDistance) {
          e.snap := Seen;
        } else {
          e.snap := Unseen;
        }
        assert enemies[..i + 1] == enemies[..i] + [e];
      }
      assert enemies[..|enemies|] == enemies;
      ghost var after := Detect(before, enemies, geometry, distanceToSnap, maxBehindEngageDistance);
      forall e | e in enemies ensures after[e] == e.snap {
        DetectListed(before, enemies, geometry, distanceToSnap, maxBehindEngageDistance, e);
      }
    }

    /** Snap: when the aim ray strikes a Seen enemy, start moving the primary
      * crosshair towards it and show the secondary one; otherwise hide the
      * secondary crosshair and put the primary back on the aim dummy. */
    method Snap(hit: AimHit, dummy: Position)
      requires hit.OtherHit? ==> hit.tag != "Enemy"
      modifies this`primaryPosition, this`secondaryActive, this`tweenTarget
      ensures secondaryActive == LocksOn(hit)
      ensures secondaryActive ==> tweenTarget == Some(hit.enemy.position) && primaryPosition == old(primaryPosition)
      ensures !secondaryActive ==> tweenTarget == None && primaryPosition == dummy
    {
      if hit.EnemyHit? && hit.enemy.tag == "Enemy" && hit.enemy.snap == Seen {
        tweenTarget := Some(hit.enemy.position);
        secondaryActive := true;
      } else {
        tweenTarget := None;
        secondaryActive := false;
        primaryPosition := dummy;
      }
    }

    /** Update: one frame. Both crosshairs go to the aim dummy, then the
      * registry is scanned for visibility, then Snap consults the flags just
      * written. An enemy struck before it was ever registered is judged by
      * its stale flag. */
    method Update(dummy: Position, geometry: map<Enemy, Sighting>, hit: AimHit)
      requires Covers(allEnemies, geometry)
      requires hit.OtherHit? ==> hit.tag != "Enemy"
      modifies this`primaryPosition, this`secondaryPosition, this`secondaryActive, this`tweenTarget, allEnemies`snap
      ensures primaryPosition == dummy && secondaryPosition == dummy
      ensures forall e :: e in allEnemies ==> e.snap == Verdict(geometry[e], distanceToSnap, maxBehindEngageDistance)
      ensures secondaryActive == LocksOn(hit)
      ensures tweenTarget == if secondaryActive then Some(hit.enemy.position) else None
      ensures hit.EnemyHit? && hit.enemy in allEnemies ==>
        (secondaryActive <==> hit.enemy.tag == "Enemy" && Qualifies(geometry[hit.enemy], distanceToSnap, maxBehindEngageDistance))
      ensures hit.EnemyHit? && hit.enemy !in allEnemies ==> hit.enemy.snap == old(hit.enemy.snap)
    {
      secondaryPosition := dummy;
      primaryPosition := dummy;
      DetectEnemies(allEnemies, geometry);
      Snap(hit, dummy);
    }
  }
}
