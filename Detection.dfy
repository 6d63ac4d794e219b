/**
  * What one pass of CrosshairSnap.DetectEnemies does to the visibility flags,
  * as a function on a flag store (enemy -> flag). The pass walks the registry
  * in order and overwrites each listed enemy's flag with that frame's verdict;
  * the registry may list an enemy more than once, and every write for it
  * stores the same verdict.
  */
module Detection {
  import opened Visibility
  import opened Enemies

  /** Every enemy in the registry has a sighting in this frame's geometry. */
  predicate Covers(enemies: seq<Enemy>, geometry: map<Enemy, Sighting>)
  {
    forall e :: e in enemies ==> e in geometry
  }

  /** The flags of the listed enemies, as they are in the heap. */
  function Flags(enemies: seq<Enemy>): map<Enemy, CanSeePlayer>
    reads enemies
  {
    map e | e in enemies :: e.snap
  }

  /** The flag store after writing, in list order, the verdict of every enemy
    * of `enemies` into `flags`. */
  function Detect(flags: map<Enemy, CanSeePlayer>, enemies: seq<Enemy>, geometry: map<Enemy, Sighting>,
                  distanceToSnap: real, maxBehindEngageDistance: real): (r: map<Enemy, CanSeePlayer>)
    requires Covers(enemies, geometry)
    ensures r.Keys == flags.Keys + (set e | e in enemies)
    decreases |enemies|
  {
    if enemies == [] then flags
    else
      var last := enemies[|enemies| - 1];
      var before := Detect(flags, enemies[..|enemies| - 1], geometry, distanceToSnap, maxBehindEngageDistance);
      before[last := Verdict(geometry[last], distanceToSnap, maxBehindEngageDistance)]
  }

  /** Every listed enemy ends up with its own verdict for this frame. */
  lemma {:induction false} DetectListed(flags: map<Enemy, CanSeePlayer>, enemies: seq<Enemy>, geometry: map<Enemy, Sighting>,
                                        distanceToSnap: real, maxBehindEngageDistance: real, e: Enemy)
    requires Covers(enemies, geometry)
    requires e in enemies
    ensures Detect(flags, enemies, geometry, distanceToSnap, maxBehindEngageDistance)[e]
         == Verdict(geometry[e], distanceToSnap, maxBehindEngageDistance)
  {
    var front := enemies[..|enemies| - 1];
    if enemies[|enemies| - 1] != e {
      assert enemies == front + [enemies[|enemies| - 1]];
      assert e in front;
      DetectListed(flags, front, geometry, distanceToSnap, maxBehindEngageDistance, e);
    }
  }

  /** After a pass, a listed enemy is Seen exactly when its ray reached the
    * player within 2 units, its hit distance is inside the snap range and it
    * lies in front of the crosshair; otherwise it is Unseen. */
  lemma {:induction false} DetectSeenIff(flags: map<Enemy, CanSeePlayer>, enemies: seq<Enemy>, geometry: map<Enemy, Sighting>,
                      distanceToSnap: real, maxBehindEngageDistance: real, e: Enemy)
    requires Covers(enemies, geometry)
    requires e in enemies
    ensures var flag := Detect(flags, enemies, geometry, distanceToSnap, maxBehindEngageDistance)[e];
            var s := geometry[e];
            flag == Seen <==>
              && -LineOfSightTolerance < HitDistance(s) - s.trueDistance < LineOfSightTolerance
              && HitDistance(s) < distanceToSnap
              && s.dot > maxBehindEngageDistance
  {
    DetectListed(flags, enemies, geometry, distanceToSnap, maxBehindEngageDistance, e);
  }

  /** An enemy outside the registry keeps whatever flag it had. */
  lemma {:induction false} DetectUnlisted(flags: map<Enemy, CanSeePlayer>, enemies: seq<Enemy>, geometry: map<Enemy, Sighting>,
                                          distanceToSnap: real, maxBehindEngageDistance: real, e: Enemy)
    requires Covers(enemies, geometry)
    requires e !in enemies && e in flags
    ensures Detect(flags, enemies, geometry, distanceToSnap, maxBehindEngageDistance)[e] == flags[e]
  {
    if enemies != [] {
      var front := enemies[..|enemies| - 1];
      assert e !in front by {
        assert forall x :: x in front ==> x in enemies;
      }
      DetectUnlisted(flags, front, geometry, distanceToSnap, maxBehindEngageDistance, e);
    }
  }

  /** Whatever the flags were before, the listed enemies end up with the same
    * flags: a verdict never depends on the previous flag. */
  lemma {:induction false} DetectIgnoresPriorFlags(flags1: map<Enemy, CanSeePlayer>, flags2: map<Enemy, CanSeePlayer>,
                                enemies: seq<Enemy>, geometry: map<Enemy, Sighting>,
                                distanceToSnap: real, maxBehindEngageDistance: real)
    requires Covers(enemies, geometry)
    ensures forall e :: e in enemies ==>
      Detect(flags1, enemies, geometry, distanceToSnap, maxBehindEngageDistance)[e]
      == Detect(flags2, enemies, geometry, distanceToSnap, maxBehindEngageDistance)[e]
  {
    forall e | e in enemies
      ensures Detect(flags1, enemies, geometry, distanceToSnap, maxBehindEngageDistance)[e]
           == Detect(flags2, enemies, geometry, distanceToSnap, maxBehindEngageDistance)[e]
    {
      DetectListed(flags1, enemies, geometry, distanceToSnap, maxBehindEngageDistance, e);
      DetectListed(flags2, enemies, geometry, distanceToSnap, maxBehindEngageDistance, e);
    }
  }

  /** Running detection a second time with the same geometry changes nothing. */
  lemma {:induction false} DetectIdempotent(flags: map<Enemy, CanSeePlayer>, enemies: seq<Enemy>, geometry: map<Enemy, Sighting>,
                         distanceToSnap: real, maxBehindEngageDistance: real)
    requires Covers(enemies, geometry)
    ensures var once := Detect(flags, enemies, geometry, distanceToSnap, maxBehindEngageDistance);
            Detect(once, enemies, geometry, distanceToSnap, maxBehindEngageDistance) == once
  {
    var once := Detect(flags, enemies, geometry, distanceToSnap, maxBehindEngageDistance);
    var twice := Detect(once, enemies, geometry, distanceToSnap, maxBehindEngageDistance);
    forall e | e in twice ensures twice[e] == once[e] {
      if e in enemies {
        DetectListed(flags, enemies, geometry, distanceToSnap, maxBehindEngageDistance, e);
        DetectListed(once, enemies, geometry, distanceToSnap, maxBehindEngageDistance, e);
      } else {
        DetectUnlisted(once, enemies, geometry, distanceToSnap, maxBehindEngageDistance, e);
      }
    }
  }

  /** After a pass, a listed enemy at least distanceToSnap + 2 from the player is Unseen. */
  lemma {:induction false} DetectFarUnseen(flags: map<Enemy, CanSeePlayer>, enemies: seq<Enemy>, geometry: map<Enemy, Sighting>,
                        distanceToSnap: real, maxBehindEngageDistance: real, e: Enemy)
    requires Covers(enemies, geometry)
    requires e in enemies && geometry[e].trueDistance >= distanceToSnap + LineOfSightTolerance
    ensures Detect(flags, enemies, geometry, distanceToSnap, maxBehindEngageDistance)[e] == Unseen
  {
    DetectListed(flags, enemies, geometry, distanceToSnap, maxBehindEngageDistance, e);
    FarEnemyUnseen(geometry[e], distanceToSnap, maxBehindEngageDistance);
  }
}
