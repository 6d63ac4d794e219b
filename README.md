# Crosshair snap (auto-aim) of the RAIL on-rails shooter, in Dafny

This project models the auto-aim "snap" subsystem of the RAIL Unity game. It has two
cooperating components:

- `CrosshairSnap` keeps a registry of enemies (`allEnemies`). Each frame it writes every
  registered enemy's visibility flag (`DetectEnemies`). It then decides whether the primary
  crosshair is sent toward the enemy under the aim ray, with the secondary crosshair shown,
  or is put back on the aim dummy, with the secondary crosshair hidden (`Snap`). `Update`
  fixes the order within a frame: reset both crosshairs to the dummy, run detection, then snap.
- `Enemy` holds the two-state flag `CanSeePlayer { Seen, Unseen }` and the lifecycle of its
  marker (`snapArea`). While `Seen`, the enemy creates a marker if it has none and keeps it on
  the enemy's position. While `Unseen`, it destroys the marker.

Files:

- `Wrappers.dfy` defines `Option`.
- `Visibility.dfy` defines positions, the flag type and the per-enemy verdict:
  - the predicate `Qualifies` holds the three-part condition of `DetectEnemies`;
  - `Verdict` turns it into `Seen`/`Unseen`.
- `Enemies.dfy` has the classes `Enemy` and `Marker`. A ghost set `liveMarkers` records the
  markers an enemy has instantiated and not destroyed. `Valid()` ties it to `snapArea`.
- `Detection.dfy` gives the meaning of one detection pass. `Detect` is a function on a flag
  store (enemy to flag) that writes the verdicts in list order. The lemmas about it cover:
  - which flag each enemy ends with;
  - that unlisted enemies are untouched;
  - idempotence;
  - independence from the previous flags.
- `Crosshair.dfy` has the class `CrosshairSnap`. Its methods change the registry, the flags
  and the crosshair state in place.

Engine services are abstracted into inputs:

- **Ray from an enemy toward the player.** Each enemy's ray cast, straight-line distance to
  the player and dot product for the frame arrive as a `Sighting`, in a map keyed by enemy.
  `Covers` says that every registered enemy has one.
- **Aim ray.** What the aim ray strikes arrives as an `AimHit`.
- **Aim dummy.** The aim-dummy position is a parameter of `Update` and `Snap`.
- **Tag scan.** What `FindGameObjectsWithTag("Enemy")` returns is the parameter of
  `AddEnemiesToList`.

## Behaviour kept as the code has it

- **Range test.** It compares the ray-cast hit distance with `distanceToSnap`, not the
  straight-line distance (CrosshairSnap.cs:98). Together with the 2-unit tolerance this
  means an enemy is never `Seen` when it is at least `distanceToSnap + 2` away
  (`FarEnemyUnseen`). Between `distanceToSnap` and `distanceToSnap + 2` it can still be
  `Seen` when its ray stops a little short of the player (`NearBoundarySeen`). For example,
  with the default settings, an enemy 126 units away whose ray stops at 124.5 is `Seen`
  (`DefaultRangeExample`, the scenario `NearBoundarySeen` gives for these numbers).
- **Ray miss.** A ray that strikes nothing leaves the default `RaycastHit`, whose distance is 0
  (CrosshairSnap.cs:92-93). The miss is not treated as "no clear line". Such an enemy is
  `Seen` exactly when it is closer than 2 units, `distanceToSnap` is positive and it is in
  front of the crosshair (`MissSeenOnlyWhenClose`).
- **No deduplication.** The registry only grows by appending, so a re-scan lists the same
  enemy again (CrosshairSnap.cs:134-136). Duplicates are harmless to detection: every write
  for an enemy stores the same verdict.
- **Snap target.** `Snap` uses whatever the aim ray strikes. It does not search for the
  nearest qualifying enemy.
- **Stale flags.** An enemy struck by the aim ray but not yet registered keeps its flag from
  before. Its flag may still be C#'s default `Seen` (the enum's first member) if its own
  `Start` has not run.

## Model

| member | source | states |
|---|---|---|
| `Visibility.Abs` | RAIL/Assets/Scripts/Crosshair/CrosshairSnap.cs:96 | Mathf.Abs gives a non-negative value equal to x or -x |
| `Visibility.HitDistance` | RAIL/Assets/Scripts/Crosshair/CrosshairSnap.cs:92-93 | the hit distance the test reads: the distance of the struck collider, or 0 (the default RaycastHit) when the ray strikes nothing |
| `Visibility.Qualifies` | RAIL/Assets/Scripts/Crosshair/CrosshairSnap.cs:96-100 | the three-part visibility test: abs(hit distance - true distance) < 2, hit distance < distanceToSnap, dot > maxBehindEngageDistance |
| `Visibility.Verdict` | RAIL/Assets/Scripts/Crosshair/CrosshairSnap.cs:101-111 | the flag the loop writes for one enemy: Seen when the test passes, Unseen otherwise |
| `Visibility.NearBoundarySeen` | RAIL/Assets/Scripts/Crosshair/CrosshairSnap.cs:96-98 | for every true distance in [distanceToSnap, distanceToSnap + 2) and a passing dot test, some hit distance makes the enemy Seen, so the FarEnemyUnseen bound is tight |
| `Visibility.DefaultRangeExample` | RAIL/Assets/Scripts/Crosshair/CrosshairSnap.cs:96-98 | a concrete scenario of NearBoundarySeen (the instance distanceToSnap = 125, true distance 126, whose witness hit distance is 124.5): with the defaults 125 and 10 and dot 15 the enemy is Seen |
| `Visibility.FarEnemyUnseen` | RAIL/Assets/Scripts/Crosshair/CrosshairSnap.cs:96-98 | an enemy whose true distance is at least distanceToSnap + 2 is always judged Unseen |
| `Visibility.MissSeenOnlyWhenClose` | RAIL/Assets/Scripts/Crosshair/CrosshairSnap.cs:92-100 | when the ray strikes nothing (hit distance 0), the enemy is Seen iff its true distance is within 2 units, 0 < distanceToSnap and the dot test passes |
| `Detection.Detect` | RAIL/Assets/Scripts/Crosshair/CrosshairSnap.cs:83-112 | the store after a pass has entries for exactly the enemies it had entries for before, plus every listed enemy (keys only; the values are stated by DetectListed and DetectUnlisted) |
| `Detection.DetectSeenIff` | RAIL/Assets/Scripts/Crosshair/CrosshairSnap.cs:96-111 | after a pass, a listed enemy's flag is Seen iff -2 < hitDistance - trueDistance < 2, hitDistance < distanceToSnap and dot > maxBehindEngageDistance; otherwise Unseen |
| `Detection.DetectListed` | RAIL/Assets/Scripts/Crosshair/CrosshairSnap.cs:96-111 | after a pass, every listed enemy, duplicates included, holds its own verdict for the frame |
| `Detection.DetectUnlisted` | RAIL/Assets/Scripts/Crosshair/CrosshairSnap.cs:83-112 | in the flag store, an enemy that is not in the list keeps its flag (for the method DetectEnemies this fact comes from its frame, which lets it write only the snap fields of listed enemies) |
| `Detection.DetectIgnoresPriorFlags` | RAIL/Assets/Scripts/Crosshair/CrosshairSnap.cs:96-111 | the flags a pass leaves on listed enemies do not depend on their previous values |
| `Detection.DetectIdempotent` | RAIL/Assets/Scripts/Crosshair/CrosshairSnap.cs:83-112 | running the pass twice with the same geometry gives the same flag store as running it once |
| `Detection.DetectFarUnseen` | RAIL/Assets/Scripts/Crosshair/CrosshairSnap.cs:96-98 | after a pass, a listed enemy at least distanceToSnap + 2 away is Unseen |
| `Enemies.Marker.constructor` | RAIL/Assets/Scripts/Enemy/Enemy.cs:33 | Instantiate creates a new marker at the prefab's position |
| `Enemies.Enemy.constructor` | RAIL/Assets/Scripts/Enemy/Enemy.cs:8-15 | before Start the flag holds C#'s default value Seen, there is no marker and no live marker is recorded |
| `Enemies.Enemy.Start` | RAIL/Assets/Scripts/Enemy/Enemy.cs:19-25 | after Start the flag is Unseen and the tag is "Enemy" |
| `Enemies.Enemy.Update` | RAIL/Assets/Scripts/Enemy/Enemy.cs:28-41 | the flag and position are unchanged and the live-marker record stays consistent with snapArea. While Seen, exactly one marker is live: a fresh one when there was none, otherwise the same one with no new marker, at the enemy's position. While Unseen, no marker is live and snapArea is null. Every newly live marker was freshly created, so there is never more than one live marker |
| `Crosshair.CrosshairSnap.constructor` | RAIL/Assets/Scripts/Crosshair/CrosshairSnap.cs:38-40 | default settings distanceToSnap = 125 and maxBehindEngageDistance = 10, empty registry, no tween |
| `Crosshair.CrosshairSnap.Start` | RAIL/Assets/Scripts/Crosshair/CrosshairSnap.cs:56-68 | after Start the registry is empty and the secondary crosshair is inactive |
| `Crosshair.CrosshairSnap.AddEnemiesToList` | RAIL/Assets/Scripts/Crosshair/CrosshairSnap.cs:134-136 | the registry becomes the old registry followed by the found enemies in order. The length grows by the number found, and each enemy's multiplicity grows by its count in the scan: no deduplication |
| `Crosshair.CrosshairSnap.DetectEnemies` | RAIL/Assets/Scripts/Crosshair/CrosshairSnap.cs:83-113 | every listed enemy's flag becomes its verdict, which is the flag Detect gives it. It is Seen iff the three raw conditions hold. Only the snap fields of listed enemies may change (the modifies frame), so the list and every unlisted enemy are untouched |
| `Crosshair.LocksOn` | RAIL/Assets/Scripts/Crosshair/CrosshairSnap.cs:120-122 | the snap condition: the aim ray struck an object carrying the Enemy component, tagged "Enemy", whose flag is Seen |
| `Crosshair.CrosshairSnap.Snap` | RAIL/Assets/Scripts/Crosshair/CrosshairSnap.cs:115-132 | the secondary crosshair is active iff the aim ray struck an object tagged "Enemy" whose flag is Seen. Then a tween toward that enemy's position starts and the primary stays put. Otherwise there is no tween and the primary is at the dummy |
| `Crosshair.CrosshairSnap.Update` | RAIL/Assets/Scripts/Crosshair/CrosshairSnap.cs:71-77 | both crosshairs are at the dummy and every registered enemy holds this frame's verdict. The snap decision uses the flag written in the same frame: for a registered enemy it snaps iff the tag is "Enemy" and the verdict qualifies. An unregistered enemy keeps its old flag |

## Left out

- Scheduling: `InvokeRepeating` calls `AddEnemiesToList` every 3 seconds from time 0 (CrosshairSnap.cs:67). In the model the caller invokes `AddEnemiesToList`.
- Engine geometry: `Physics.Raycast`, `Vector3.Distance`, `Vector3.Dot`, `Camera.main` and the child transforms looked up in `Start` are inputs (`Sighting`, `AimHit`, the dummy position), not vector math.
- Floats: C# `float` arithmetic is modelled as exact `real` arithmetic, without rounding.
- Crosshair.CrosshairSnap.Snap: only the target of the DOTween `DOMove` started in the frame is recorded (`tweenTarget`). The 0.2 s easing is not modelled, and neither is a running tween, which the reset branch does not kill and which keeps moving the crosshair in later frames.
- Crosshair.CrosshairSnap.Snap, Crosshair.CrosshairSnap.Update: require that an aim hit on an object without the Enemy component is not tagged "Enemy". In C#, `GetComponent<Enemy>()` returns null there and the call throws.
- Crosshair.CrosshairSnap.DetectEnemies: the registry is typed as a sequence of `Enemy`. The C# crashes on a listed object without the Enemy component, or on one that was destroyed, are not modelled.
- Crosshair.CrosshairSnap.constructor: in C#, `allEnemies` is null until `Start`. The model starts it empty.
- Enemies.Enemy.Update: Unity's `Destroy` takes effect at the end of the frame, and the field then compares equal to null. The model clears `snapArea` at once.
- Enemies.Enemy.Update: "at most one marker" is stated over the ghost record `liveMarkers`, which `Update` maintains as it instantiates and destroys. Dafny's contract cannot forbid the method from also allocating an object that it never records, because a quantifier over newly allocated objects has no trigger.
- Enemies.Enemy.Start: the SphereCollider it adds to the enemy itself (Enemy.cs:22-23, radius `snapColliderRadius`) is not modelled. What the aim ray strikes arrives as `AimHit`.
- Enemies.Enemy.Update: the commented-out parenting of the marker to the enemy (Enemy.cs:34) has no effect and is not modelled.
- Diagnostics: `Debug.DrawRay` and the debug colours are not modelled.
- Frame order across scripts: Unity does not fix the order of `Enemy.Update` and `CrosshairSnap.Update` within a frame. The model leaves that order to the caller.
- RAIL/Assets/Scripts/Movement/PlayerMovement.cs is not part of this model. It handles input, transforms, camera and post-processing, and only supplies the aim-dummy position.
