/**
 * The pickup placement lock: a pickup that is frozen in place while it rests
 * at its spawn pose, free while held, and snapped back to the spawn pose
 * when dropped (always, or only when dropped near it). The state is whether
 * the pickup is held, the rigidbody's constraints (when there is a
 * rigidbody) and the pickup's pose.
 *
 * Vector3.Distance between the current and the default position is not
 * computed here: the engine supplies it as the `distance` argument.
 */
module PickupPlacementLock {
  import opened Engine

  datatype RigidbodyConstraints = None | FreezeAll

  class Rigidbody {
    var constraints: RigidbodyConstraints

    constructor (constraints: RigidbodyConstraints)
      ensures this.constraints == constraints
    {
      this.constraints := constraints;
    }
  }

  /** Whether a drop at `distance` from the default position snaps the pickup back. */
  function SnapsBack(snapOnlyWhenNearOrigin: bool, distance: real, snapThreshold: real): bool {
    !snapOnlyWhenNearOrigin || distance <= snapThreshold
  }

  /** The constraints a frame gives a pickup that is not held, `distance` away from its default position. */
  function RestingConstraints(distance: real, snapThreshold: real): RigidbodyConstraints {
    if distance > snapThreshold then None else FreezeAll
  }

  /**
   * The constraints a drop leaves are the ones the following frames keep:
   * a pickup snapped back (now at distance 0) stays frozen, and one left
   * beyond the threshold stays free. This needs a non-negative threshold.
   */
  lemma DropThenUpdateAgree(snapOnlyWhenNearOrigin: bool, distance: real, snapThreshold: real)
    requires snapThreshold >= 0.0
    ensures var snap := SnapsBack(snapOnlyWhenNearOrigin, distance, snapThreshold);
      RestingConstraints(if snap then 0.0 else distance, snapThreshold) == (if snap then FreezeAll else None)
  {
  }

  class PickupPlacementLock {
    // Serialized settings.
    const snapOnlyWhenNearOrigin: bool
    const snapThreshold: real

    // Recorded once, by Start.
    const defaultPosition: Vector3
    const defaultRotation: Quaternion
    /** GetComponent<Rigidbody>(): null when the pickup has none. */
    const rb: Rigidbody?

    // transform.position and transform.rotation.
    var position: Vector3
    var rotation: Quaternion

    var isPickedUp: bool

    /** Start: the current pose becomes the default pose, and a rigidbody is frozen. */
    constructor Start(position: Vector3, rotation: Quaternion, rb: Rigidbody?,
                      snapOnlyWhenNearOrigin: bool, snapThreshold: real)
      modifies rb
      ensures this.position == position && this.rotation == rotation
      ensures defaultPosition == position && defaultRotation == rotation
      ensures this.rb == rb && (rb != null ==> rb.constraints == FreezeAll)
      ensures this.snapOnlyWhenNearOrigin == snapOnlyWhenNearOrigin && this.snapThreshold == snapThreshold
      ensures !isPickedUp
    {
      this.snapOnlyWhenNearOrigin := snapOnlyWhenNearOrigin;
      this.snapThreshold := snapThreshold;
      this.position := position;
      this.rotation := rotation;
      this.isPickedUp := false;
      defaultPosition := position;
      defaultRotation := rotation;
      this.rb := rb;
      new;
      if rb != null {
        rb.constraints := FreezeAll;
      }
    }

    /** One frame: while not held, the rigidbody is frozen exactly when the pickup is within the threshold. */
    method Update(distance: real)
      modifies rb
      ensures isPickedUp && rb != null ==> unchanged(rb)
      ensures !isPickedUp && rb != null ==>
        rb.constraints == RestingConstraints(distance, snapThreshold)
    {
      if !isPickedUp && rb != null {
        if distance > snapThreshold {
          rb.constraints := None;
        } else {
          rb.constraints := FreezeAll;
        }
      }
    }

    method OnPickup()
      modifies this, rb
      ensures isPickedUp
      ensures rb != null ==> rb.constraints == None
      ensures position == old(position) && rotation == old(rotation)
    {
      isPickedUp := true;
      if rb != null {
        rb.constraints := None;
      }
    }

    /**
     * Dropping snaps the pickup back to its default pose and freezes it when
     * snapping is unconditional or the drop point is within the threshold;
     * otherwise the pose is kept and the rigidbody left free.
     */
    method OnDrop(distance: real)
      modifies this, rb
      ensures !isPickedUp
      ensures var snapBack := SnapsBack(snapOnlyWhenNearOrigin, distance, snapThreshold);
        && (snapBack ==> position == defaultPosition && rotation == defaultRotation)
        && (!snapBack ==> position == old(position) && rotation == old(rotation))
        && (rb != null ==> rb.constraints == if snapBack then FreezeAll else None)
    {
      isPickedUp := false;
      var shouldSnapBack := true;
      if snapOnlyWhenNearOrigin {
        shouldSnapBack := distance <= snapThreshold;
      }
      if shouldSnapBack {
        position := defaultPosition;
        rotation := defaultRotation;
        if rb != null {
          rb.constraints := FreezeAll;
        }
      } else if rb != null {
        rb.constraints := None;
      }
    }
  }
}
