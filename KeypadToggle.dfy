/**
 * The keypad relay: keypad events switch a list of target objects on or
 * off. A granted code activates every target, a closed keypad deactivates
 * every target, and an additional passcode activates the one target it
 * selects. Slots of the target array may be empty (null); with no targets
 * at all, the object the behaviour sits on is activated instead, and never
 * deactivated.
 *
 * A null target array and a null passcode array behave exactly like empty
 * ones at every check in the behaviour, so the model has only the latter.
 */
module KeypadToggle {
  import opened Engine
  import Seqs

  /**
   * The target an additional passcode selects: the first position whose
   * passcode equals the number, else the number itself read as a position
   * when it is one, else -1 (nothing).
   */
  function MatchedIndex(passcodes: seq<int>, number: int): (r: int)
    ensures -1 <= r < |passcodes|
    ensures number in passcodes ==>
      r >= 0 && passcodes[r] == number && forall j :: 0 <= j < r ==> passcodes[j] != number
    ensures number !in passcodes ==> r == (if 0 <= number < |passcodes| then number else -1)
  {
    var byValue := Seqs.IndexOf(passcodes, number);
    if byValue < 0 && 0 <= number < |passcodes| then number else byValue
  }

  /** The search of _keypadAdditionalPasscode: a scan for the number, then the fallback to a direct position. */
  method MatchPasscode(passcodes: seq<int>, number: int) returns (matchedIndex: int)
    ensures matchedIndex == MatchedIndex(passcodes, number)
  {
    matchedIndex := -1;
    var i := 0;
    while i < |passcodes|
      invariant 0 <= i <= |passcodes|
      invariant matchedIndex == -1
      invariant forall j :: 0 <= j < i ==> passcodes[j] != number
    {
      if passcodes[i] == number {
        matchedIndex := i;
        break;
      }
      i := i + 1;
    }
    if matchedIndex < 0 && number >= 0 && number < |passcodes| {
      matchedIndex := number;
    }
  }

  class KeypadToggle {
    /** The object this behaviour is attached to. */
    const gameObject: GameObject
    const targetObjects: array<GameObject?>
    const additionalPasscodeNumbers: seq<int>
    const disableKeypadGranted: bool

    constructor (gameObject: GameObject, targetObjects: array<GameObject?>,
                 additionalPasscodeNumbers: seq<int>, disableKeypadGranted: bool)
      ensures this.gameObject == gameObject && this.targetObjects == targetObjects
      ensures this.additionalPasscodeNumbers == additionalPasscodeNumbers
      ensures this.disableKeypadGranted == disableKeypadGranted
    {
      this.gameObject := gameObject;
      this.targetObjects := targetObjects;
      this.additionalPasscodeNumbers := additionalPasscodeNumbers;
      this.disableKeypadGranted := disableKeypadGranted;
    }

    /** The objects in the non-null slots of the target array. */
    ghost function Targets(): set<GameObject>
      reads targetObjects
    {
      set o: GameObject | o in targetObjects[..]
    }

    /** Every non-null target has the given active flag. */
    ghost predicate TargetsAre(active: bool)
      reads targetObjects, Targets()
    {
      forall i :: 0 <= i < targetObjects.Length && targetObjects[i] != null ==>
        targetObjects[i].activeSelf == active
    }

    /** What the behaviour may switch: its targets and its own object. */
    ghost function Footprint(): set<GameObject>
      reads targetObjects
    {
      Targets() + {gameObject}
    }

    /**
     * With targets, every non-null one takes the flag and the own object is left
     * alone (unless it is itself a target); with none, the own object is
     * activated on `true` and left alone on `false`.
     */
    method SetTargetsActive(active: bool)
      modifies Footprint()
      ensures targetObjects.Length > 0 ==> TargetsAre(active)
      ensures targetObjects.Length > 0 && gameObject !in Targets() ==>
        gameObject.activeSelf == old(gameObject.activeSelf)
      ensures targetObjects.Length == 0 ==>
        gameObject.activeSelf == (active || old(gameObject.activeSelf))
      ensures targetObjects.Length == 0 && !active ==> unchanged(Footprint())
    {
      if targetObjects.Length == 0 {
        if active {
          gameObject.activeSelf := true;
        }
        return;
      }
      for i := 0 to targetObjects.Length
        invariant forall k :: 0 <= k < i && targetObjects[k] != null ==> targetObjects[k].activeSelf == active
        invariant gameObject !in Targets() ==> gameObject.activeSelf == old(gameObject.activeSelf)
      {
        if targetObjects[i] != null {
          targetObjects[i].activeSelf := active;
        }
      }
    }

    /** _keypadGranted: activates everything, unless granted events are disabled. */
    method KeypadGranted()
      modifies Footprint()
      ensures disableKeypadGranted ==> unchanged(Footprint())
      ensures !disableKeypadGranted && targetObjects.Length > 0 ==> TargetsAre(true)
      ensures !disableKeypadGranted && targetObjects.Length > 0 && gameObject !in Targets() ==>
        gameObject.activeSelf == old(gameObject.activeSelf)
      ensures !disableKeypadGranted && targetObjects.Length == 0 ==> gameObject.activeSelf
    {
      if !disableKeypadGranted {
        SetTargetsActive(true);
      }
    }

    /**
     * _keypadAdditionalPasscode: with no passcodes configured it is a granted
     * event; otherwise the matched position activates its own target if that
     * slot exists and is filled, else all targets, else the own object. It
     * only ever activates, and ignores `disableKeypadGranted`.
     */
    method KeypadAdditionalPasscode(number: int)
      modifies Footprint()
      ensures |additionalPasscodeNumbers| == 0 && disableKeypadGranted ==> unchanged(Footprint())
      ensures |additionalPasscodeNumbers| == 0 && !disableKeypadGranted && targetObjects.Length > 0 ==>
        TargetsAre(true) && (gameObject !in Targets() ==> gameObject.activeSelf == old(gameObject.activeSelf))
      ensures |additionalPasscodeNumbers| == 0 && !disableKeypadGranted && targetObjects.Length == 0 ==>
        gameObject.activeSelf
      ensures |additionalPasscodeNumbers| > 0 ==>
        var idx := MatchedIndex(additionalPasscodeNumbers, number);
        && (idx < 0 ==> unchanged(Footprint()))
        && (0 <= idx < targetObjects.Length && targetObjects[idx] != null ==>
              && targetObjects[idx].activeSelf
              && forall o :: o in Footprint() && o != targetObjects[idx] ==> unchanged(o))
        && (idx >= 0 && !(idx < targetObjects.Length && targetObjects[idx] != null) && targetObjects.Length > 0 ==>
              TargetsAre(true) && (gameObject !in Targets() ==> gameObject.activeSelf == old(gameObject.activeSelf)))
        && (idx >= 0 && targetObjects.Length == 0 ==>
              gameObject.activeSelf && unchanged(Targets()))
        && (forall o :: o in Footprint() && old(o.activeSelf) ==> o.activeSelf)
    {
      if |additionalPasscodeNumbers| == 0 {
        KeypadGranted();
        return;
      }
      var matchedIndex := MatchPasscode(additionalPasscodeNumbers, number);
      if matchedIndex >= 0 {
        if matchedIndex < targetObjects.Length && targetObjects[matchedIndex] != null {
          targetObjects[matchedIndex].activeSelf := true;
        } else if targetObjects.Length > 0 {
          SetTargetsActive(true);
        } else {
          gameObject.activeSelf := true;
        }
      }
    }

    /** _keypadClosed: deactivates every non-null target; with no targets nothing changes. */
    method KeypadClosed()
      modifies Footprint()
      ensures targetObjects.Length > 0 ==> TargetsAre(false)
      ensures targetObjects.Length > 0 && gameObject !in Targets() ==>
        gameObject.activeSelf == old(gameObject.activeSelf)
      ensures targetObjects.Length == 0 ==> unchanged(Footprint())
    {
      SetTargetsActive(false);
    }
  }
}
