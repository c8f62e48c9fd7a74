# Footstep graph configuration and goal lookup

A model of the configuration state of `FootstepGraph`, the footstep-specific
search graph of the JSK footstep planner. A graph is built with a
discretisation resolution that it never changes. It starts with default
kinematic limits (maximum successor distance and rotation, both 0.0) and
default goal thresholds (0.1 for position, 0.17 for rotation). Progress
publishing starts off. `setGoalState` installs one goal stance per leg.
`getGoal` picks the goal by leg identifier: LEFT gives the left goal, RIGHT
the right goal, and any other identifier the generic goal. The two limit
accessors return the stored limits, and `setProgressPublisher` switches the
progress flag on.

The model has two parts:

- `footstep_graph.dfy`, module `FootstepPlanner`. The class `FootstepGraph`
  has one field per member variable of the C++ class except the ROS
  publisher `pub_progress_`, plus `genericGoal` for the `goal_state_` that
  the generic `Graph` base class holds. The resolution is a
  `const` field, so only the constructor can set it. `Config` is the same
  state as a value, and `Step`/`Run` say what each state-changing call (and
  a sequence of calls) does to it. Every state-changing method ties its new
  `Snapshot()` to `Step` of the old one and also lists each field it keeps.
  Its `modifies` clause names only the fields it writes.
- `footstep_graph_properties.dfy`, module `FootstepGraphProperties`. Lemmas
  about any sequence of calls: last write wins for the goals, the progress
  flag only ever goes on, and the rest of the configuration is never touched.
  It also has three client methods that state the same facts through the
  class's own methods.

Poses and transforms are abstract types (`Pose`, `Transform`). A goal is an
`Option<Pose>`, with `None` standing for a null shared pointer. The leg
identifiers are `LEFT = 1` and `RIGHT = 2`, the values of the footstep
message definition (which is not part of this model). No proof uses those
values; the proofs only need LEFT and RIGHT to differ.

Two points where the code is looser than one might expect, and the model
keeps the code's behaviour:

- `getGoal` with a leg that is neither LEFT nor RIGHT returns the generic
  goal without any error signal; the source marks that branch with a
  "TODO: error" comment (footstep_graph.h:76). `GetGoal` does the same.
- Both successor limits default to a bare `0.0` (footstep_graph.h:53). The
  header does not say whether 0.0 means "unlimited" or "zero tolerance"; the
  code only stores the value, and so does the model.

## Model

| member | source | states |
|---|---|---|
| FootstepPlanner.FootstepGraph.constructor | jsk_footstep_planner/include/jsk_footstep_planner/footstep_graph.h:52-55 | a new graph has both successor limits 0.0, position threshold 0.1, rotation threshold 0.17, progress publishing off, no goals, empty transform libraries and the given resolution |
| FootstepPlanner.FootstepGraph.SetGoalState | jsk_footstep_planner/include/jsk_footstep_planner/footstep_graph.h:61-66 | the left and right goals become the given stances; the generic goal, limits, thresholds, flag, libraries and resolution keep their values |
| FootstepPlanner.FootstepGraph.GetGoal | jsk_footstep_planner/include/jsk_footstep_planner/footstep_graph.h:68-79 | LEFT yields the left goal, RIGHT the right goal, any other identifier the generic goal; no state changes |
| FootstepPlanner.FootstepGraph.MaxSuccessorDistance | jsk_footstep_planner/include/jsk_footstep_planner/footstep_graph.h:81-84 | returns exactly the stored maximum successor distance; no state changes |
| FootstepPlanner.FootstepGraph.MaxSuccessorRotation | jsk_footstep_planner/include/jsk_footstep_planner/footstep_graph.h:85-88 | returns exactly the stored maximum successor rotation; no state changes |
| FootstepPlanner.FootstepGraph.SetProgressPublisher | jsk_footstep_planner/include/jsk_footstep_planner/footstep_graph.h:90-94 | the progress flag is on afterwards; goals, limits, thresholds and libraries keep their values |
| FootstepGraphProperties.RunKeepsConfiguration | jsk_footstep_planner/include/jsk_footstep_planner/footstep_graph.h:61-107 | no sequence of goal-setting and progress calls changes the resolution, the limits, the thresholds, the generic goal or the transform libraries |
| FootstepGraphProperties.RunProgressFlag | jsk_footstep_planner/include/jsk_footstep_planner/footstep_graph.h:90-92 | after a sequence of calls the flag is on if and only if it was on before or some call was a progress-publisher call |
| FootstepGraphProperties.RunWithoutGoalWrite | jsk_footstep_planner/include/jsk_footstep_planner/footstep_graph.h:61-66 | a sequence with no goal-setting call leaves both leg goals as they were |
| FootstepGraphProperties.RunGoalsLastWriteWins | jsk_footstep_planner/include/jsk_footstep_planner/footstep_graph.h:64-65 | after a sequence of calls the leg goals are those of the last goal-setting call; earlier calls leave no trace |
| FootstepGraphProperties.GenericGoalFallback | jsk_footstep_planner/include/jsk_footstep_planner/footstep_graph.h:76-78 | a lookup with a leg that is neither LEFT nor RIGHT finds the generic goal, which no call in any sequence has written |
| FootstepGraphProperties.GoalsAfterFinalSetGoalState | jsk_footstep_planner/include/jsk_footstep_planner/footstep_graph.h:61-75 | after any calls ending with setting goals to (l, r), the LEFT lookup finds l and the RIGHT lookup finds r |
| FootstepGraphProperties.ConstructedDefaultsPersist | jsk_footstep_planner/include/jsk_footstep_planner/footstep_graph.h:52-55 | from construction on, every sequence of setGoalState and setProgressPublisher calls keeps the limits at 0.0, the thresholds at 0.1 and 0.17, and the constructed resolution |
| FootstepGraphProperties.QueryConstructedGraph | jsk_footstep_planner/include/jsk_footstep_planner/footstep_graph.h:52-88 | on a freshly constructed graph the distance and rotation accessors yield 0.0 and both leg lookups find no goal |
| FootstepGraphProperties.SetGoalStateTwice | jsk_footstep_planner/include/jsk_footstep_planner/footstep_graph.h:61-84 | after two goal-setting calls the leg lookups see only the second pair; the fallback lookup and the distance limit are as before |
| FootstepGraphProperties.EnableProgress | jsk_footstep_planner/include/jsk_footstep_planner/footstep_graph.h:90-94 | switching progress publishing on turns the flag on and changes neither the goal lookup nor the distance and rotation accessor results |

## Left out

- `successors`, `isGoal` and `setBasicSuccessors` (footstep_graph.h:56-59) are only declared in the header and their bodies are not part of this model. The model therefore leaves out leg alternation, limit enforcement and goal testing. The transform libraries appear only as fields that start empty.
- The four heuristic functions (footstep_graph.h:113-120) are declarations only, and they are floating-point distance computations.
- The ROS publisher created by `setProgressPublisher` (footstep_graph.h:93) is message-bus I/O. Only the boolean flag is modelled, and the `NodeHandle` and topic arguments are dropped. The source sets the flag (h:92) before it calls `advertise` (h:93), so if `advertise` throws the flag stays on with no publisher; the model has no such failure path.
- The generic goal `goal_state_` belongs to the generic `Graph` base class, which is not part of this model. The constructor takes it to be a null pointer, as a default-constructed shared pointer is. Any setter the base class has for it is not modelled.
- Shared-pointer ownership and aliasing of states: goals are plain values of the abstract `Pose` type.
- Limits, thresholds and the resolution are `double`/`float` in the source and `real` here. Binary rounding of 0.1 and 0.17 is not modelled. Nothing in the modelled code does arithmetic on these values.
- `pointcloud_model_generator.h` is a sample point-cloud generator for demos, built on a foreign geometry library, and is not part of this model.
- ConstructedDefaultsPersist, RunKeepsConfiguration: these cover only sequences of `setGoalState` and `setProgressPublisher` calls. They say nothing about the transform libraries or the limits once `setBasicSuccessors` (footstep_graph.h:58-59) is called, because its body is not part of this model and could write them.
