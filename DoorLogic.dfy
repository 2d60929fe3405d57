/**
 * The sliding door's state machine as pure functions over a value of the
 * door: its state, its animation timer and the positions of its two leaves.
 * The class in SlidingDoor.dfy performs the same steps in place; every one
 * of its methods is specified by the function of the same name here.
 */
module DoorLogic {
  import opened Engine

  datatype DoorState = Closed | Opening | Open | Closing

  /** What the door is configured with: the closed poses recorded at start, the opening offsets and the duration. */
  datatype DoorConfig = DoorConfig(
    leftClosedPos: Vector3,
    rightClosedPos: Vector3,
    leftOpenOffset: Vector3,
    rightOpenOffset: Vector3,
    openCloseTime: real)
  {
    /** The animation divides by the duration, so it must be positive. */
    predicate Valid() {
      openCloseTime > 0.0
    }

    function LeftOpenPos(): Vector3 {
      leftClosedPos.Plus(leftOpenOffset)
    }

    function RightOpenPos(): Vector3 {
      rightClosedPos.Plus(rightOpenOffset)
    }
  }

  /** The serialized defaults: leaves slide one unit apart along x, in one second. */
  const DefaultLeftOpenOffset := Vector3(-1.0, 0.0, 0.0)
  const DefaultRightOpenOffset := Vector3(1.0, 0.0, 0.0)
  const DefaultOpenCloseTime := 1.0

  /** The door's changing state: `left` and `right` are the leaves' local positions. */
  datatype Door = Door(state: DoorState, timer: real, left: Vector3, right: Vector3)

  /** Right after Start: closed, timer at its default, leaves where they stand (which Start records as the closed poses). */
  function Initial(cfg: DoorConfig): Door {
    Door(Closed, 0.0, cfg.leftClosedPos, cfg.rightClosedPos)
  }

  /** The animation's progress for a timer value. */
  function Progress(cfg: DoorConfig, timer: real): (t: real)
    requires cfg.Valid()
    ensures 0.0 <= t <= 1.0
    ensures t == 1.0 <==> timer >= cfg.openCloseTime
    ensures timer <= 0.0 ==> t == 0.0
  {
    ProgressBounds(cfg.openCloseTime, timer);
    Clamp01(timer / cfg.openCloseTime)
  }

  lemma ProgressBounds(duration: real, timer: real)
    requires duration > 0.0
    ensures timer / duration >= 1.0 <==> timer >= duration
    ensures timer <= 0.0 ==> timer / duration <= 0.0
  {
    assert timer == (timer / duration) * duration;
  }

  function StartOpening(d: Door): Door {
    d.(state := Opening, timer := 0.0)
  }

  function StartClosing(d: Door): Door {
    d.(state := Closing, timer := 0.0)
  }

  function ToggleDoor(d: Door): Door {
    if d.state == Open then StartClosing(d)
    else if d.state == Closed then StartOpening(d)
    else d
  }

  function KeypadClosed(d: Door): Door {
    if d.state == Open then StartClosing(d) else d
  }

  function Interact(d: Door): Door {
    if d.state == Closed then StartOpening(d) else d
  }

  /** One animation tick from `start` poses towards `target` poses, committing to `finalState` once progress reaches 1. */
  function UpdateDoorPosition(
    cfg: DoorConfig, d: Door, deltaTime: real,
    leftStart: Vector3, leftTarget: Vector3, rightStart: Vector3, rightTarget: Vector3,
    finalState: DoorState): (r: Door)
    requires cfg.Valid()
    ensures r.timer == d.timer + deltaTime
    ensures r.state == finalState || r.state == d.state
    ensures r.state != d.state ==> r.left == leftTarget && r.right == rightTarget
    ensures d.state != finalState ==> (r.state == finalState <==> r.timer >= cfg.openCloseTime)
  {
    var timer := d.timer + deltaTime;
    var t := Progress(cfg, timer);
    Door(if t >= 1.0 then finalState else d.state, timer,
         Lerp(leftStart, leftTarget, t), Lerp(rightStart, rightTarget, t))
  }

  function Update(cfg: DoorConfig, d: Door, deltaTime: real): Door
    requires cfg.Valid()
  {
    if d.state == Opening then
      UpdateDoorPosition(cfg, d, deltaTime, cfg.leftClosedPos, cfg.LeftOpenPos(),
                         cfg.rightClosedPos, cfg.RightOpenPos(), Open)
    else if d.state == Closing then
      UpdateDoorPosition(cfg, d, deltaTime, cfg.LeftOpenPos(), cfg.leftClosedPos,
                         cfg.RightOpenPos(), cfg.rightClosedPos, Closed)
    else d
  }

  /** The events the door reacts to: the three entry points and a frame. */
  datatype Event = Toggle | InteractEvent | KeypadClosedEvent | Tick(deltaTime: real)

  predicate IsRequest(e: Event) {
    !e.Tick?
  }

  function Step(cfg: DoorConfig, d: Door, e: Event): Door
    requires cfg.Valid()
  {
    match e
    case Toggle => ToggleDoor(d)
    case InteractEvent => Interact(d)
    case KeypadClosedEvent => KeypadClosed(d)
    case Tick(dt) => Update(cfg, d, dt)
  }

  /** The door after a sequence of events. */
  function Run(cfg: DoorConfig, d: Door, events: seq<Event>): Door
    requires cfg.Valid()
    decreases |events|
  {
    if |events| == 0 then d else Run(cfg, Step(cfg, d, events[0]), events[1..])
  }

  /** Frames never run backwards. */
  predicate TimeRunsForward(events: seq<Event>) {
    forall i :: 0 <= i < |events| && events[i].Tick? ==> events[i].deltaTime >= 0.0
  }

  /**
   * Where the leaves are, given the state: at the closed poses when Closed,
   * at the open poses when Open, and mid-animation exactly on the straight
   * line from the pose the animation started at, at the current progress.
   * This is the continuity of the door: every animation starts from the pose
   * the previous one ended at.
   */
  ghost predicate OnTrack(cfg: DoorConfig, d: Door)
    requires cfg.Valid()
  {
    && d.timer >= 0.0
    && match d.state
       case Closed =>
         d.left == cfg.leftClosedPos && d.right == cfg.rightClosedPos
       case Open =>
         d.left == cfg.LeftOpenPos() && d.right == cfg.RightOpenPos()
       case Opening =>
         && d.timer < cfg.openCloseTime
         && d.left == Lerp(cfg.leftClosedPos, cfg.LeftOpenPos(), Progress(cfg, d.timer))
         && d.right == Lerp(cfg.rightClosedPos, cfg.RightOpenPos(), Progress(cfg, d.timer))
       case Closing =>
         && d.timer < cfg.openCloseTime
         && d.left == Lerp(cfg.LeftOpenPos(), cfg.leftClosedPos, Progress(cfg, d.timer))
         && d.right == Lerp(cfg.RightOpenPos(), cfg.rightClosedPos, Progress(cfg, d.timer))
  }

  // ----- Properties of the state machine -----

  /** Opening is entered only from Closed, and only by ToggleDoor or Interact. */
  lemma OpeningOnlyFromClosed(cfg: DoorConfig, d: Door, e: Event)
    requires cfg.Valid()
    requires d.state != Opening && Step(cfg, d, e).state == Opening
    ensures d.state == Closed && (e.Toggle? || e.InteractEvent?)
  {
  }

  /** Closing is entered only from Open, and only by ToggleDoor or the keypad's closed event. */
  lemma ClosingOnlyFromOpen(cfg: DoorConfig, d: Door, e: Event)
    requires cfg.Valid()
    requires d.state != Closing && Step(cfg, d, e).state == Closing
    ensures d.state == Open && (e.Toggle? || e.KeypadClosedEvent?)
  {
  }

  /** A request while the door is moving is ignored: an animation is never reversed. */
  lemma NoReversal(cfg: DoorConfig, d: Door, e: Event)
    requires cfg.Valid()
    requires d.state == Opening || d.state == Closing
    requires IsRequest(e)
    ensures Step(cfg, d, e) == d
  {
  }

  /** Starting an animation sets the new state and resets the timer, leaving the leaves where they are. */
  lemma StartResetsTimer(cfg: DoorConfig, d: Door, e: Event)
    requires cfg.Valid()
    requires IsRequest(e) && Step(cfg, d, e) != d
    ensures Step(cfg, d, e).timer == 0.0
    ensures Step(cfg, d, e).state == (if d.state == Closed then Opening else Closing)
    ensures Step(cfg, d, e).left == d.left && Step(cfg, d, e).right == d.right
  {
  }

  /** Update changes nothing while the door is at rest. */
  lemma UpdateAtRest(cfg: DoorConfig, d: Door, deltaTime: real)
    requires cfg.Valid()
    requires d.state == Open || d.state == Closed
    ensures Update(cfg, d, deltaTime) == d
  {
  }

  /**
   * One frame of an animation: the timer grows by the frame time, the leaves
   * sit at the interpolation for the clamped progress, and the animation
   * commits exactly on the frame where the progress reaches 1, with both
   * leaves exactly on their target poses.
   */
  lemma AnimationFrame(cfg: DoorConfig, d: Door, deltaTime: real)
    requires cfg.Valid()
    requires d.state == Opening || d.state == Closing
    requires deltaTime >= 0.0
    ensures var r := Update(cfg, d, deltaTime);
      && r.timer == d.timer + deltaTime >= d.timer
      && var t := Progress(cfg, r.timer);
      && 0.0 <= t <= 1.0
      && (d.state == Opening ==>
            && r.left == Lerp(cfg.leftClosedPos, cfg.LeftOpenPos(), t)
            && r.right == Lerp(cfg.rightClosedPos, cfg.RightOpenPos(), t)
            && (r.state == Open <==> t >= 1.0)
            && (r.state == Open ==> r.left == cfg.LeftOpenPos() && r.right == cfg.RightOpenPos())
            && (r.state != Open ==> r.state == Opening))
      && (d.state == Closing ==>
            && r.left == Lerp(cfg.LeftOpenPos(), cfg.leftClosedPos, t)
            && r.right == Lerp(cfg.RightOpenPos(), cfg.rightClosedPos, t)
            && (r.state == Closed <==> t >= 1.0)
            && (r.state == Closed ==> r.left == cfg.leftClosedPos && r.right == cfg.rightClosedPos)
            && (r.state != Closed ==> r.state == Closing))
  {
  }

  /** The door starts on track. */
  lemma InitialOnTrack(cfg: DoorConfig)
    requires cfg.Valid()
    ensures OnTrack(cfg, Initial(cfg))
  {
  }

  /** Every event keeps the leaves on track (frames must not run backwards). */
  lemma StepOnTrack(cfg: DoorConfig, d: Door, e: Event)
    requires cfg.Valid() && OnTrack(cfg, d)
    requires e.Tick? ==> e.deltaTime >= 0.0
    ensures OnTrack(cfg, Step(cfg, d, e))
  {
    match e
    case Tick(dt) =>
      var r := Update(cfg, d, dt);
      if d.state == Opening || d.state == Closing {
        var t := Progress(cfg, r.timer);
        LerpOfClamped(cfg.leftClosedPos, cfg.LeftOpenPos(), t);
        if r.state == d.state {
          assert r.timer < cfg.openCloseTime;
        }
      }
    case _ =>
      if Step(cfg, d, e) != d {
        assert Progress(cfg, 0.0) == 0.0;
      }
  }

  /** Continuity holds in every state the door can reach from its start. */
  lemma {:induction false} RunOnTrack(cfg: DoorConfig, d: Door, events: seq<Event>)
    requires cfg.Valid() && OnTrack(cfg, d)
    requires TimeRunsForward(events)
    ensures OnTrack(cfg, Run(cfg, d, events))
    decreases |events|
  {
    if |events| > 0 {
      StepOnTrack(cfg, d, events[0]);
      assert TimeRunsForward(events[1..]) by {
        forall i | 0 <= i < |events[1..]| && events[1..][i].Tick?
          ensures events[1..][i].deltaTime >= 0.0
        {
          assert events[1..][i] == events[i + 1];
        }
      }
      RunOnTrack(cfg, Step(cfg, d, events[0]), events[1..]);
    }
  }

  /** `n` frames of `deltaTime` each. */
  function Ticks(cfg: DoorConfig, d: Door, deltaTime: real, n: nat): Door
    requires cfg.Valid()
    decreases n
  {
    if n == 0 then d else Ticks(cfg, Update(cfg, d, deltaTime), deltaTime, n - 1)
  }

  lemma {:induction false} TicksAtRest(cfg: DoorConfig, d: Door, deltaTime: real, n: nat)
    requires cfg.Valid()
    requires d.state == Open || d.state == Closed
    ensures Ticks(cfg, d, deltaTime, n) == d
  {
    if n > 0 {
      TicksAtRest(cfg, Update(cfg, d, deltaTime), deltaTime, n - 1);
    }
  }

  /**
   * An opening door whose timer plus `n` frames covers the duration is Open
   * after those `n` frames, with its leaves exactly at the open poses.
   */
  lemma {:induction false} OpeningCompletes(cfg: DoorConfig, d: Door, deltaTime: real, n: nat)
    requires cfg.Valid() && OnTrack(cfg, d)
    requires d.state == Opening && deltaTime >= 0.0
    requires d.timer + (n as real) * deltaTime >= cfg.openCloseTime
    ensures Ticks(cfg, d, deltaTime, n).state == Open
    ensures Ticks(cfg, d, deltaTime, n).left == cfg.LeftOpenPos()
    ensures Ticks(cfg, d, deltaTime, n).right == cfg.RightOpenPos()
    decreases n
  {
    assert n > 0;
    var d' := Update(cfg, d, deltaTime);
    StepOnTrack(cfg, d, Tick(deltaTime));
    if d'.state == Open {
      TicksAtRest(cfg, d', deltaTime, n - 1);
    } else {
      assert d'.timer + ((n - 1) as real) * deltaTime == d.timer + (n as real) * deltaTime;
      OpeningCompletes(cfg, d', deltaTime, n - 1);
    }
  }

  /** The same for a closing door, which ends Closed with its leaves exactly at the closed poses. */
  lemma {:induction false} ClosingCompletes(cfg: DoorConfig, d: Door, deltaTime: real, n: nat)
    requires cfg.Valid() && OnTrack(cfg, d)
    requires d.state == Closing && deltaTime >= 0.0
    requires d.timer + (n as real) * deltaTime >= cfg.openCloseTime
    ensures Ticks(cfg, d, deltaTime, n).state == Closed
    ensures Ticks(cfg, d, deltaTime, n).left == cfg.leftClosedPos
    ensures Ticks(cfg, d, deltaTime, n).right == cfg.rightClosedPos
    decreases n
  {
    assert n > 0;
    var d' := Update(cfg, d, deltaTime);
    StepOnTrack(cfg, d, Tick(deltaTime));
    if d'.state == Closed {
      TicksAtRest(cfg, d', deltaTime, n - 1);
    } else {
      assert d'.timer + ((n - 1) as real) * deltaTime == d.timer + (n as real) * deltaTime;
      ClosingCompletes(cfg, d', deltaTime, n - 1);
    }
  }
}
