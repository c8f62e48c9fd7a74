/**
 * The configuration-and-goal-lookup state of the footstep planner's graph:
 * the goal stances, the successor transform libraries, the kinematic limits,
 * the goal thresholds, the progress flag and the discretisation resolution.
 *
 * The state is given twice: as the value `Config`, with `Step` saying what
 * each state-changing operation does to it, and as the class `FootstepGraph`,
 * whose fields the operations update in place and whose `Snapshot()` is the
 * `Config` those fields currently hold.
 */
module FootstepPlanner {

  import opened Wrappers

  /** The pose of one foot placement; its geometry is never inspected here. */
  type Pose

  /** A relative rigid transform from one stance to the next foot placement. */
  type Transform

  /** The discretisation grid size in x, y and yaw. */
  datatype Resolution = Resolution(x: real, y: real, yaw: real)

  /** Leg identifiers of a footstep message. Only LEFT != RIGHT matters below. */
  const LEFT: int := 1
  const RIGHT: int := 2

  /** Default limits and thresholds a new graph starts with. */
  const DefaultMaxSuccessorDistance: real := 0.0
  const DefaultMaxSuccessorRotation: real := 0.0
  const DefaultPosGoalThr: real := 0.1
  const DefaultRotGoalThr: real := 0.17

  /** The whole observable state of a footstep graph. */
  datatype Config = Config(
    leftGoal: Option<Pose>,
    rightGoal: Option<Pose>,
    genericGoal: Option<Pose>,
    leftToRightSuccessors: seq<Transform>,
    rightToLeftSuccessors: seq<Transform>,
    maxSuccessorDistance: real,
    maxSuccessorRotation: real,
    posGoalThr: real,
    rotGoalThr: real,
    publishProgress: bool,
    resolution: Resolution)

  /** The operations that change a graph's state. */
  datatype Op =
    | SetGoalState(left: Option<Pose>, right: Option<Pose>)
    | SetProgressPublisher

  /** The state of a graph just constructed with the given resolution. */
  function Initial(resolution: Resolution): Config
  {
    Config(None, None, None, [], [],
           DefaultMaxSuccessorDistance, DefaultMaxSuccessorRotation,
           DefaultPosGoalThr, DefaultRotGoalThr, false, resolution)
  }

  /** The state after one operation. */
  function Step(c: Config, op: Op): Config
  {
    match op
    case SetGoalState(left, right) => c.(leftGoal := left, rightGoal := right)
    case SetProgressPublisher => c.(publishProgress := true)
  }

  /** The state after a sequence of operations, applied first to last. */
  function Run(c: Config, ops: seq<Op>): Config
    decreases |ops|
  {
    if ops == [] then c else Step(Run(c, ops[..|ops| - 1]), ops[|ops| - 1])
  }

  /** The goal a lookup by leg identifier finds. */
  function GoalOf(c: Config, leg: int): Option<Pose>
  {
    if leg == LEFT then c.leftGoal
    else if leg == RIGHT then c.rightGoal
    else c.genericGoal
  }

  /** A footstep graph whose configuration its methods update in place. */
  class FootstepGraph {
    var leftGoal: Option<Pose>
    var rightGoal: Option<Pose>
    var genericGoal: Option<Pose>
    var leftToRightSuccessors: seq<Transform>
    var rightToLeftSuccessors: seq<Transform>
    var maxSuccessorDistance: real
    var maxSuccessorRotation: real
    var posGoalThr: real
    var rotGoalThr: real
    var publishProgress: bool
    /** Fixed by the constructor; no method can assign it. */
    const resolution: Resolution

    /** The configuration the fields hold. */
    ghost function Snapshot(): Config
      reads this
    {
      Config(leftGoal, rightGoal, genericGoal,
             leftToRightSuccessors, rightToLeftSuccessors,
             maxSuccessorDistance, maxSuccessorRotation,
             posGoalThr, rotGoalThr, publishProgress, resolution)
    }

    /** Both limits 0.0, thresholds 0.1 and 0.17, progress off, no goals,
        empty transform libraries, and the given resolution. */
    constructor (resolution: Resolution)
      ensures this.resolution == resolution
      ensures maxSuccessorDistance == 0.0 && maxSuccessorRotation == 0.0
      ensures posGoalThr == 0.1 && rotGoalThr == 0.17
      ensures !publishProgress
      ensures leftGoal == None && rightGoal == None && genericGoal == None
      ensures leftToRightSuccessors == [] && rightToLeftSuccessors == []
      ensures Snapshot() == Initial(resolution)
    {
      leftGoal, rightGoal, genericGoal := None, None, None;
      leftToRightSuccessors, rightToLeftSuccessors := [], [];
      maxSuccessorDistance := DefaultMaxSuccessorDistance;
      maxSuccessorRotation := DefaultMaxSuccessorRotation;
      posGoalThr := DefaultPosGoalThr;
      rotGoalThr := DefaultRotGoalThr;
      publishProgress := false;
      this.resolution := resolution;
    }

    /** Installs one goal per leg and changes nothing else. */
    method SetGoalState(left: Option<Pose>, right: Option<Pose>)
      modifies this`leftGoal, this`rightGoal
      ensures leftGoal == left && rightGoal == right
      ensures genericGoal == old(genericGoal)
      ensures leftToRightSuccessors == old(leftToRightSuccessors)
      ensures rightToLeftSuccessors == old(rightToLeftSuccessors)
      ensures maxSuccessorDistance == old(maxSuccessorDistance)
      ensures maxSuccessorRotation == old(maxSuccessorRotation)
      ensures posGoalThr == old(posGoalThr) && rotGoalThr == old(rotGoalThr)
      ensures publishProgress == old(publishProgress)
      ensures Snapshot() == Step(old(Snapshot()), Op.SetGoalState(left, right))
    {
      leftGoal := left;
      rightGoal := right;
    }

    /** LEFT finds the left goal, RIGHT the right goal, and every other
        identifier falls back to the generic goal without an error. */
    method GetGoal(leg: int) returns (goal: Option<Pose>)
      ensures leg == LEFT ==> goal == leftGoal
      ensures leg == RIGHT ==> goal == rightGoal
      ensures leg != LEFT && leg != RIGHT ==> goal == genericGoal
      ensures goal == GoalOf(Snapshot(), leg)
    {
      if leg == LEFT {
        goal := leftGoal;
      } else if leg == RIGHT {
        goal := rightGoal;
      } else {
        goal := genericGoal;
      }
    }

    /** The stored maximum successor distance. */
    method MaxSuccessorDistance() returns (d: real)
      ensures d == maxSuccessorDistance
    {
      d := maxSuccessorDistance;
    }

    /** The stored maximum successor rotation. */
    method MaxSuccessorRotation() returns (r: real)
      ensures r == maxSuccessorRotation
    {
      r := maxSuccessorRotation;
    }

    /** Switches progress publishing on and changes nothing else. */
    method SetProgressPublisher()
      modifies this`publishProgress
      ensures publishProgress
      ensures leftGoal == old(leftGoal) && rightGoal == old(rightGoal)
      ensures genericGoal == old(genericGoal)
      ensures leftToRightSuccessors == old(leftToRightSuccessors)
      ensures rightToLeftSuccessors == old(rightToLeftSuccessors)
      ensures maxSuccessorDistance == old(maxSuccessorDistance)
      ensures maxSuccessorRotation == old(maxSuccessorRotation)
      ensures posGoalThr == old(posGoalThr) && rotGoalThr == old(rotGoalThr)
      ensures Snapshot() == Step(old(Snapshot()), Op.SetProgressPublisher)
    {
      publishProgress := true;
    }
  }
}
