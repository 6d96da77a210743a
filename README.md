# AnimatedRobotCG — a Dafny model of the robot's state machine and pose

AnimatedRobotCG draws a small humanoid robot made of six textured cubes. The
user steers it with the keyboard and turns it with the mouse. This project
models the program's core: the global robot state, what one keyboard sample,
one cursor event and one pass of the main loop do to that state, and the pose
each pass draws. It then proves what these promise.

- `vectors.dfy` (`Vectors`): `glm::vec3` as a record of three reals, with the
  cross product the strafe directions come from.
- `trig.dfy` (`Trig`): `sin` and `cos` are an uninterpreted pair of real
  functions (a `Trig`), passed to every operation that needs them. A lemma
  that relies on `sin 0 = 0`, `cos 0 = 1` or `sin² + cos² = 1` says so in its
  `requires`. `glm::radians` is multiplication by π/180.
- `robot_state.dfy` (`RobotState`): the eleven globals as one `State` record,
  plus the invariant `Valid` every reachable state keeps. It defines the pure
  transitions: `InputStep` (`processInput`), `MouseStep` (`mouseCallback`),
  `TickStep` (the timer block of the main loop), `Drawn`/`FrameStep` (one pass)
  and `Run` (a sequence of passes). The lemmas relate several of them.
- `skeleton.dfy` (`Skeleton`): the pose drawn from a state. Each of the six
  `drawCube` calls is described by the chain of `glm::translate` and
  `glm::rotate` steps that builds its model matrix, the cube's offset and
  scale, and its texture. The matrices are not multiplied out.
- `robot.dfy` (`RobotLoop`): the globals as the fields of a class `Robot`.
  Its methods update them in place in the source's order: `ProcessInput`,
  `MouseCallback`, `Tick`, `PollEvents`, `Frame`. Each is proved to leave
  the fields exactly as the matching pure transition says. `RunWindow` is the
  main loop.

Three behaviours of the code that are easy to misread:

- **Greeting.** The greeting does not switch itself off when its clock
  passes 2.0, and the clock can exceed 2.0. main.cpp:319-326 set
  `isGreeting` from the H key on every pass, after the reset test. Holding
  H therefore keeps the greeting on. The clock reaches 2.0008 after 1819
  passes (`GreetingClockPassesLimit`). The next pass resets it to 0 and then
  adds the step, giving 0.001 with the greeting still on
  (`GreetingClockWraps`). The clock is bounded by 2.001 (`Valid`).
- **Initial direction.** The globals start facing `(0, 0, -1)`. The first pass
  of the loop recomputes the direction from heading 0 as `(sin 0, 0, cos 0)`,
  which is `(0, 0, 1)` (`HeadingZeroMovesAlongZ`). On later passes S moves the
  robot along that recomputed direction and W moves it back.
- **Tilt.** The tilt is clamped and kept in the state, but no part of the
  drawing uses it.

## Model

| member | source | states |
|---|---|---|
| Trig.Radians | main.cpp:342 | converting degrees to radians keeps zero and the sign |
| Vectors.CrossWithUp | main.cpp:170-179 | the two strafe directions are the facing direction turned a quarter turn each way in the horizontal plane; they are opposite |
| RobotState.InitialIsValid | main.cpp:12-28 | the initial globals satisfy the invariant, and the robot starts at height 0 |
| RobotState.InputStep | main.cpp:157-181 | the walking flag is set iff a movement key is held; only position and walking flag change; the invariant is kept |
| RobotState.OppositeKeysCancel | main.cpp:162-179 | S with W, and D with A, cancel exactly; with no key held the robot does not move |
| RobotState.InputKeepsHeight | main.cpp:162-179 | with a horizontal facing direction, no key combination changes the robot's height |
| RobotState.SKeyFollowsDirection | main.cpp:162-165 | S alone moves the robot one stride (speed 0.0005) along its facing direction |
| RobotState.Clamp | main.cpp:201-202 | the tilt ends in [-45, 45], an in-range tilt is kept, otherwise it becomes the nearer bound |
| RobotState.MouseStep | main.cpp:184-203 | the first event and an event at the previous cursor position change neither heading nor tilt; otherwise the heading drops by 0.2 times the x offset and the tilt rises by 0.2 times the y offset, clamped; the event becomes the new baseline; position, direction, clocks and flags are untouched |
| RobotState.TickStep | main.cpp:303-344 | the walk clock is zeroed when not walking and otherwise grows by exactly 0.0015; the greeting flag equals H; releasing H zeroes the greeting clock; holding H advances it by 0.001, after the 0.0001 drift unless the drift passes 2.0, when it resets to 0.001; the direction becomes (sin, y, cos) of the heading; nothing else changes; the invariant is kept |
| RobotState.MouseMoves | main.cpp:184-203 | a run of cursor events leaves the tilt in range and the last event as baseline; it never touches position, direction, walking or greeting state |
| RobotState.Drawn | main.cpp:300-339 | the state drawn in a pass walks iff a movement key is held and greets iff H is held; with no movement key its walk clock is 0 |
| RobotState.FrameStep | main.cpp:299-403 | one pass keeps the invariant and the robot's height |
| RobotState.Run | main.cpp:299-403 | every sequence of passes keeps the invariant and the height; afterwards the greeting flag is that of the last pass's H key |
| RobotState.ReachableStatesAreValid | main.cpp:12-28 | every state reached from the initial globals is valid, stays at height 0 and has its tilt in [-45, 45] |
| RobotState.GreetingClockWhileHeld | main.cpp:310-326 | holding H for n passes from no greeting (n up to 1819) keeps the greeting on with clock 0.001 + 0.0011 (n - 1) |
| RobotState.GreetingClockPassesLimit | main.cpp:310-326 | after 1819 passes holding H the greeting clock is 2.0008, above 2.0 |
| RobotState.GreetingClockWraps | main.cpp:310-326 | the 1820th pass holding H resets the clock to 0.001 and the greeting stays on |
| RobotState.HeadingZeroMovesAlongZ | main.cpp:342-344 | at heading 0 the pass faces the robot along +z, and the next S moves it by exactly the speed along +z |
| RobotState.DirectionIsUnit | main.cpp:342-344 | the recomputed direction is a horizontal unit vector |
| Skeleton.Angles | main.cpp:338-339 | arm and leg angles are opposite; both 0 when sin is 0; 30 and -30 when sin is 1 |
| Skeleton.Wave | main.cpp:382 | the wave is 0 when sin(2 greetingTime) is 0 and 15 when it is 1 |
| Skeleton.RightArmSwing | main.cpp:379-388 | while greeting, a -160 degree raise about x followed by a rotation about z by the wave of the greeting clock; otherwise the negated arm angle about x |
| Skeleton.PoseOf | main.cpp:366-398 | left and right joints are mirror images with equal boxes; the left arm swings with the left leg; without a greeting the right arm swings with the right leg; every joint only rotates |
| Skeleton.LimbCube | main.cpp:367-370 | a limb's cube is the root, the move to the limb's joint, exactly the limb's swing, then the drop, with the limb's box and the body texture |
| Skeleton.DrawList | main.cpp:351-398 | six cubes in the program's order; only the head has the face texture; head and torso are placed by the root alone; each limb cube carries its own limb's joint, swing and box under the root |
| Skeleton.RestingPose | main.cpp:366-398 | at walk-clock rest with no greeting all four limbs hang straight down |
| Skeleton.IdleFrameStandsStill | main.cpp:303-339 | a pass with no movement key and no H draws every limb with zero swing |
| Skeleton.WalkAntiPhase | main.cpp:366-398 | in the picture drawn, the left arm and left leg cubes turn by the walk angle, the right leg cube by its opposite, and the right arm cube like the right leg except when greeting |
| Skeleton.GreetingStartsRaised | main.cpp:381-384 | at greeting time 0 the right arm is raised by -160 degrees with a level wave |
| Skeleton.JointsIgnoreAnimation | main.cpp:366-398 | in the picture drawn, each limb cube's chain up to its joint depends only on position and heading, never on clocks, walking or greeting |
| RobotLoop.ForwardBackMoves | main.cpp:162-169 | the S and W checks in sequence add one stride of their net contribution |
| RobotLoop.StrafeMoves | main.cpp:170-179 | the D and A checks in sequence add one stride of their net contribution |
| RobotLoop.Robot.constructor | main.cpp:12-28 | the fields start at the globals' initial values |
| RobotLoop.Robot.ProcessInput | main.cpp:157-181 | the fields change exactly as `InputStep` says |
| RobotLoop.Robot.MouseCallback | main.cpp:184-203 | the fields change exactly as `MouseStep` says |
| RobotLoop.Robot.Tick | main.cpp:303-344 | the fields change exactly as `TickStep` says |
| RobotLoop.Robot.PollEvents | main.cpp:402 | dispatching queued cursor events in order changes the fields as `MouseMoves` says |
| RobotLoop.Robot.Frame | main.cpp:300-402 | the picture drawn is the scene of the state after input and timers; the fields change as `FrameStep` says |
| RobotLoop.RunWindow | main.cpp:299-403 | from the initial globals, the main loop leaves the fields as `Run` says |

## Left out

- Window and context creation, shader compilation, texture loading, vertex buffers and `createCube`: graphics plumbing with no state of the robot.
- `drawCube`'s GL calls and the projection and view matrices: the model records only the model-matrix chain, offset, scale and texture of each cube.
- Matrix products: model matrices are kept as their chains of translate and rotate steps, not multiplied out.
- The numeric values of `sin` and `cos`: they come from the C library and are parameters; lemmas name the identities they use.
- Single-precision rounding: `float` and `double` are modelled as exact reals.
- RobotState.MouseStep: does not model the narrowing of the `double` cursor offsets to `float` at main.cpp:193-194, since all arithmetic is exact.
- `framebuffer_size_callback`: it only resizes the viewport.
- Closing the window: the main loop's end is the end of the `frames` sequence given to `RunWindow`.
- The keyboard and the event queue: `glfwGetKey` becomes the `Keys` and `greet` of a `FrameInput`. `glfwPollEvents` becomes the pass's list of cursor events, delivered in order; other events are not modelled.
- RobotLoop.Robot.ProcessInput: collects the walking flag and the moved position in locals and stores them once at the end, not after each key as the source does; nothing reads either field in between.
