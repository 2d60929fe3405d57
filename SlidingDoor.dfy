/**
 * The sliding door behaviour: two leaves that slide between their closed
 * poses and their open poses over `openCloseTime` seconds. The door's state,
 * its timer and the leaves' positions are fields updated in place; each
 * method's new state is the one the function of the same name in DoorLogic
 * computes, and `Valid` keeps the leaves on track between calls.
 */
module SlidingDoor {
  import opened Engine
  import DoorLogic

  class SlidingDoor {
    // Serialized settings.
    const leftOpenOffset: Vector3
    const rightOpenOffset: Vector3
    const openCloseTime: real

    // Recorded once, by Start.
    const leftClosedPos: Vector3
    const rightClosedPos: Vector3

    // The leaves' local positions (leftDoor.localPosition, rightDoor.localPosition).
    var leftDoorPosition: Vector3
    var rightDoorPosition: Vector3

    var timer: real
    var doorState: DoorLogic.DoorState

    ghost function Configuration(): DoorLogic.DoorConfig {
      DoorLogic.DoorConfig(leftClosedPos, rightClosedPos, leftOpenOffset, rightOpenOffset, openCloseTime)
    }

    ghost function Model(): DoorLogic.Door
      reads this
    {
      DoorLogic.Door(doorState, timer, leftDoorPosition, rightDoorPosition)
    }

    ghost predicate Valid()
      reads this
    {
      Configuration().Valid() && DoorLogic.OnTrack(Configuration(), Model())
    }

    /** Start: the leaves' current positions become the closed poses; the door starts Closed. */
    constructor Start(leftPosition: Vector3, rightPosition: Vector3,
                      leftOpenOffset: Vector3, rightOpenOffset: Vector3, openCloseTime: real)
      requires openCloseTime > 0.0
      ensures Valid()
      ensures Configuration() == DoorLogic.DoorConfig(leftPosition, rightPosition, leftOpenOffset, rightOpenOffset, openCloseTime)
      ensures Model() == DoorLogic.Initial(Configuration())
    {
      this.leftOpenOffset := leftOpenOffset;
      this.rightOpenOffset := rightOpenOffset;
      this.openCloseTime := openCloseTime;
      leftClosedPos := leftPosition;
      rightClosedPos := rightPosition;
      leftDoorPosition := leftPosition;
      rightDoorPosition := rightPosition;
      timer := 0.0;
      doorState := DoorLogic.Closed;
    }

    method ToggleDoor()
      requires Valid()
      modifies this
      ensures Valid()
      ensures Model() == DoorLogic.ToggleDoor(old(Model()))
    {
      if doorState == DoorLogic.Open {
        StartClosing();
      } else if doorState == DoorLogic.Closed {
        StartOpening();
      }
    }

    /** The keypad's closed event (_keypadClosed). */
    method KeypadClosed()
      requires Valid()
      modifies this
      ensures Valid()
      ensures Model() == DoorLogic.KeypadClosed(old(Model()))
    {
      if doorState == DoorLogic.Open {
        StartClosing();
      }
    }

    method Interact()
      requires Valid()
      modifies this
      ensures Valid()
      ensures Model() == DoorLogic.Interact(old(Model()))
    {
      if doorState == DoorLogic.Closed {
        StartOpening();
      }
    }

    /** One frame; `deltaTime` is Time.deltaTime. */
    method Update(deltaTime: real)
      requires Valid()
      requires deltaTime >= 0.0
      modifies this
      ensures Valid()
      ensures Model() == DoorLogic.Update(Configuration(), old(Model()), deltaTime)
    {
      ghost var before := Model();
      if doorState == DoorLogic.Opening {
        UpdateDoorPosition(leftClosedPos, leftClosedPos.Plus(leftOpenOffset),
                           rightClosedPos, rightClosedPos.Plus(rightOpenOffset), DoorLogic.Open, deltaTime);
      } else if doorState == DoorLogic.Closing {
        UpdateDoorPosition(leftClosedPos.Plus(leftOpenOffset), leftClosedPos,
                           rightClosedPos.Plus(rightOpenOffset), rightClosedPos, DoorLogic.Closed, deltaTime);
      }
      DoorLogic.StepOnTrack(Configuration(), before, DoorLogic.Tick(deltaTime));
    }

    method StartOpening()
      modifies this
      ensures Model() == DoorLogic.StartOpening(old(Model()))
    {
      doorState := DoorLogic.Opening;
      timer := 0.0;
    }

    method StartClosing()
      modifies this
      ensures Model() == DoorLogic.StartClosing(old(Model()))
    {
      doorState := DoorLogic.Closing;
      timer := 0.0;
    }

    method UpdateDoorPosition(leftStart: Vector3, leftTarget: Vector3,
                              rightStart: Vector3, rightTarget: Vector3,
                              finalState: DoorLogic.DoorState, deltaTime: real)
      requires openCloseTime > 0.0
      modifies this
      ensures Model() == DoorLogic.UpdateDoorPosition(Configuration(), old(Model()), deltaTime,
                                                     leftStart, leftTarget, rightStart, rightTarget, finalState)
    {
      timer := timer + deltaTime;
      var t := Clamp01(timer / openCloseTime);
      leftDoorPosition := Lerp(leftStart, leftTarget, t);
      rightDoorPosition := Lerp(rightStart, rightTarget, t);
      if t >= 1.0 {
        doorState := finalState;
      }
    }
  }
}
