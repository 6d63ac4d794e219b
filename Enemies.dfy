/**
  * Enemy (Enemy.cs): the per-enemy visibility flag and the lifecycle of the
  * marker ("snap area") that is shown while the enemy is Seen.
  */
module Enemies {
  import opened Visibility

  /** The marker object instantiated from the snappable prefab. */
  class Marker {
    var position: Position

    /** Instantiate: a new marker, placed wherever the prefab places it. */
    constructor (spawnedAt: Position)
      ensures position == spawnedAt
    {
      position := spawnedAt;
    }
  }

  class Enemy {
    /** The visibility flag; only CrosshairSnap.DetectEnemies writes it. */
    var snap: CanSeePlayer
    /** gameObject.tag. */
    var tag: string
    /** transform.position; moved by code outside this model. */
    var position: Position
    /** Where Instantiate puts a fresh marker before it is moved. */
    const prefabPosition: Position
    /** snapArea: the marker this enemy refers to, or null. */
    var snapArea: Marker?
    /** The markers this enemy has instantiated and not yet destroyed. */
    ghost var liveMarkers: set<Marker>

    /** The marker reference and the record of live markers agree: the
      * referenced marker is the only live one. */
    ghost predicate Valid()
      reads this
    {
      liveMarkers == if snapArea == null then {} else {snapArea}
    }

    /** The object as the scene creates it, before Start: the enum field holds
      * C#'s default value, the first member Seen, and there is no marker. */
    constructor (position: Position, tag: string, prefabPosition: Position)
      ensures Valid()
      ensures this.position == position && this.tag == tag && this.prefabPosition == prefabPosition
      ensures snap == Seen && snapArea == null && liveMarkers == {}
    {
      this.position := position;
      this.tag := tag;
      this.prefabPosition := prefabPosition;
      snap := Seen;
      snapArea := null;
      liveMarkers := {};
    }

    /** Start: the flag begins Unseen and the object is tagged "Enemy". */
    method Start()
      modifies this`snap, this`tag
      ensures snap == Unseen && tag == "Enemy"
    {
      snap := Unseen;
      tag := "Enemy";
    }

    /** Update: while Seen, create the marker if there is none and keep it on the
      * enemy; while Unseen, destroy it. The flag itself is never written. */
    method Update()
      requires Valid()
      modifies this`snapArea, this`liveMarkers, snapArea
      ensures Valid()
      ensures snap == old(snap) && position == old(position)
      ensures |liveMarkers| == if snap == Seen then 1 else 0
      ensures fresh(liveMarkers - old(liveMarkers))
      ensures snap == Seen ==> snapArea != null && snapArea.position == position
      ensures snap == Seen && old(snapArea) == null ==> fresh(snapArea)
      ensures snap == Seen && old(snapArea) != null ==> snapArea == old(snapArea) && liveMarkers == old(liveMarkers)
      ensures snap == Unseen ==> snapArea == null && liveMarkers == {}
    {
      if snap == Seen {
        if snapArea == null {
          snapArea := new Marker(prefabPosition);
          liveMarkers := liveMarkers + {snapArea};
        }
        snapArea.position := position;
      } else if snap == Unseen {
        if snapArea != null {
          liveMarkers := liveMarkers - {snapArea};
        }
        snapArea := null;
      }
    }
  }
}
