/**
 * What the footstep graph's operations guarantee over any sequence of calls,
 * and what a client of the class can rely on.
 */
module FootstepGraphProperties {

  import opened Wrappers
  import opened FootstepPlanner

  /** No modelled operation touches the resolution, the limits, the
      thresholds, the generic goal or the transform libraries. */
  lemma {:induction false} RunKeepsConfiguration(c: Config, ops: seq<Op>)
    ensures Run(c, ops).resolution == c.resolution
    ensures Run(c, ops).maxSuccessorDistance == c.maxSuccessorDistance
    ensures Run(c, ops).maxSuccessorRotation == c.maxSuccessorRotation
    ensures Run(c, ops).posGoalThr == c.posGoalThr
    ensures Run(c, ops).rotGoalThr == c.rotGoalThr
    ensures Run(c, ops).genericGoal == c.genericGoal
    ensures Run(c, ops).leftToRightSuccessors == c.leftToRightSuccessors
    ensures Run(c, ops).rightToLeftSuccessors == c.rightToLeftSuccessors
    decreases |ops|
  {
    if ops != [] {
      RunKeepsConfiguration(c, ops[..|ops| - 1]);
    }
  }

  /** Progress publishing is on after a sequence of calls exactly when it
      was on before or one of the calls switched it on; nothing switches it off. */
  lemma {:induction false} RunProgressFlag(c: Config, ops: seq<Op>)
    ensures Run(c, ops).publishProgress <==>
      c.publishProgress || exists i :: 0 <= i < |ops| && ops[i].SetProgressPublisher?
    decreases |ops|
  {
    if ops != [] {
      var prefix := ops[..|ops| - 1];
      RunProgressFlag(c, prefix);
      assert forall i :: 0 <= i < |prefix| ==> prefix[i] == ops[i];
      if ops[|ops| - 1].SetProgressPublisher? {
        assert Run(c, ops).publishProgress;
      } else {
        assert Run(c, ops).publishProgress == Run(c, prefix).publishProgress;
        assert (exists i :: 0 <= i < |ops| && ops[i].SetProgressPublisher?) ==>
               (exists i :: 0 <= i < |prefix| && prefix[i].SetProgressPublisher?);
      }
    }
  }

  /** Some call at an index sets goals. */
  ghost predicate WritesGoals(ops: seq<Op>, i: int)
  {
    0 <= i < |ops| && ops[i].SetGoalState?
  }

  /** With no goal-setting call, the goals are what they were before. */
  lemma {:induction false} RunWithoutGoalWrite(c: Config, ops: seq<Op>)
    requires forall i :: !WritesGoals(ops, i)
    ensures Run(c, ops).leftGoal == c.leftGoal && Run(c, ops).rightGoal == c.rightGoal
    decreases |ops|
  {
    if ops != [] {
      var n := |ops| - 1;
      var prefix := ops[..n];
      forall i ensures !WritesGoals(prefix, i) {
        assert WritesGoals(prefix, i) ==> WritesGoals(ops, i);
      }
      RunWithoutGoalWrite(c, prefix);
      assert !WritesGoals(ops, n);
    }
  }

  /** The goals are those of the last goal-setting call. */
  lemma {:induction false} RunGoalsLastWriteWins(c: Config, ops: seq<Op>, i: int)
    requires WritesGoals(ops, i)
    requires forall j :: i < j ==> !WritesGoals(ops, j)
    ensures Run(c, ops).leftGoal == ops[i].left && Run(c, ops).rightGoal == ops[i].right
    decreases |ops|
  {
    var n := |ops| - 1;
    var prefix := ops[..n];
    if i == n {
      assert Run(c, ops) == Step(Run(c, prefix), ops[n]);
    } else {
      assert !WritesGoals(ops, n);
      assert WritesGoals(prefix, i);
      forall j | i < j ensures !WritesGoals(prefix, j) {
        assert WritesGoals(prefix, j) ==> WritesGoals(ops, j);
      }
      RunGoalsLastWriteWins(c, prefix, i);
    }
  }

  /** A lookup with a leg identifier that is neither LEFT nor RIGHT finds the
      generic goal, whatever calls came before. */
  lemma {:induction false} GenericGoalFallback(c: Config, ops: seq<Op>, leg: int)
    requires leg != LEFT && leg != RIGHT
    ensures GoalOf(Run(c, ops), leg) == c.genericGoal
  {
    RunKeepsConfiguration(c, ops);
  }

  /** Lookups by LEFT and RIGHT after a sequence of calls that sets the goals
      last with the given stances. */
  lemma GoalsAfterFinalSetGoalState(c: Config, ops: seq<Op>, left: Option<Pose>, right: Option<Pose>)
    ensures GoalOf(Run(c, ops + [Op.SetGoalState(left, right)]), LEFT) == left
    ensures GoalOf(Run(c, ops + [Op.SetGoalState(left, right)]), RIGHT) == right
  {
    var all := ops + [Op.SetGoalState(left, right)];
    assert all[..|all| - 1] == ops;
  }

  /** From construction on, every sequence of setGoalState and
      setProgressPublisher calls leaves the limits at 0.0,
      the thresholds at 0.1 and 0.17 and the resolution as constructed. */
  lemma {:induction false} ConstructedDefaultsPersist(resolution: Resolution, ops: seq<Op>)
    ensures Run(Initial(resolution), ops).resolution == resolution
    ensures Run(Initial(resolution), ops).maxSuccessorDistance == 0.0
    ensures Run(Initial(resolution), ops).maxSuccessorRotation == 0.0
    ensures Run(Initial(resolution), ops).posGoalThr == 0.1
    ensures Run(Initial(resolution), ops).rotGoalThr == 0.17
  {
    RunKeepsConfiguration(Initial(resolution), ops);
  }

  /** What the accessors of a freshly constructed graph report. */
  method QueryConstructedGraph(resolution: Resolution)
    returns (distance: real, rotation: real, leftGoal: Option<Pose>, rightGoal: Option<Pose>)
    ensures distance == 0.0 && rotation == 0.0
    ensures leftGoal == None && rightGoal == None
  {
    var g := new FootstepGraph(resolution);
    distance := g.MaxSuccessorDistance();
    rotation := g.MaxSuccessorRotation();
    leftGoal := g.GetGoal(LEFT);
    rightGoal := g.GetGoal(RIGHT);
  }

  /** Two goal-setting calls in a row: the lookups see only the second,
      and the accessors and the fallback goal are as before. */
  method SetGoalStateTwice(g: FootstepGraph, left1: Option<Pose>, right1: Option<Pose>,
                           left2: Option<Pose>, right2: Option<Pose>, other: int)
    returns (leftGoal: Option<Pose>, rightGoal: Option<Pose>, otherGoal: Option<Pose>, distance: real)
    requires other != LEFT && other != RIGHT
    modifies g
    ensures leftGoal == left2 && rightGoal == right2
    ensures otherGoal == old(g.genericGoal)
    ensures distance == old(g.maxSuccessorDistance)
  {
    g.SetGoalState(left1, right1);
    g.SetGoalState(left2, right2);
    leftGoal := g.GetGoal(LEFT);
    rightGoal := g.GetGoal(RIGHT);
    otherGoal := g.GetGoal(other);
    distance := g.MaxSuccessorDistance();
  }

  /** Switching progress publishing on leaves every lookup and accessor as it was. */
  method EnableProgress(g: FootstepGraph, leg: int)
    returns (goalBefore: Option<Pose>, goalAfter: Option<Pose>,
             distanceBefore: real, distanceAfter: real,
             rotationBefore: real, rotationAfter: real)
    modifies g
    ensures g.publishProgress
    ensures goalAfter == goalBefore
    ensures distanceAfter == distanceBefore && rotationAfter == rotationBefore
  {
    goalBefore := g.GetGoal(leg);
    distanceBefore := g.MaxSuccessorDistance();
    rotationBefore := g.MaxSuccessorRotation();
    g.SetProgressPublisher();
    goalAfter := g.GetGoal(leg);
    distanceAfter := g.MaxSuccessorDistance();
    rotationAfter := g.MaxSuccessorRotation();
  }
}
