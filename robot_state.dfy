/** The robot's per-frame state machine, as values: the global variables of
    the program collected into one record, and what one keyboard sample, one
    cursor event and one pass of the main loop's timer block do to it
    (main.cpp:12-28, 157-203, 299-344). The class in robot.dfy updates the
    same fields in place and is proved against these functions. */
module RobotState {
  import opened Vectors
  import opened Trig

  /** Which movement keys are held down when the keyboard is sampled. */
  datatype Keys = Keys(s: bool, w: bool, d: bool, a: bool) {
    predicate Any() {
      s || w || d || a
    }
  }

  /** One absolute cursor position delivered to the cursor callback. */
  datatype Cursor = Cursor(x: real, y: real)

  /** What the outside world supplies to one pass of the main loop: the
      movement keys, whether H is held, and the cursor events that the
      event poll at the end of the pass dispatches. */
  datatype FrameInput = FrameInput(keys: Keys, greet: bool, cursor: seq<Cursor>)

  /** The program's global robot state. `rotation` is the heading and
      `tilt` the pitch, both in degrees. */
  datatype State = State(
    position: Vec3,
    direction: Vec3,
    rotation: real,
    tilt: real,
    lastMouseX: real,
    lastMouseY: real,
    firstMouse: bool,
    isWalking: bool,
    animationTime: real,
    isGreeting: bool,
    greetingTime: real)

  /** The initial values of the globals. */
  const Initial: State := State(
    Zero, Vec3(0.0, 0.0, -1.0), 0.0, 0.0, 500.0, 400.0, true, false, 0.0, false, 0.0)

  /** Distance moved per key per frame. */
  const Speed: real := 0.0005
  /** Degrees of heading or tilt per unit of cursor movement. */
  const Sensitivity: real := 0.2
  /** The tilt is clamped to [-TiltLimit, TiltLimit] degrees. */
  const TiltLimit: real := 45.0
  /** The two walk-clock increments of one pass of the main loop. */
  const WalkStepEarly: real := 0.001
  const WalkStepLate: real := 0.0005
  /** The greeting clock's drift while greeting, the value above which it
      is reset, and the step added while H is held. */
  const GreetingDrift: real := 0.0001
  const GreetingLimit: real := 2.0
  const GreetingStep: real := 0.001
  /** The largest value the greeting clock can hold after a pass: the step
      is added after the reset test, so the limit can be passed by it. */
  const GreetingBound: real := GreetingLimit + GreetingStep

  /** The invariant every reachable state keeps: the facing direction is
      horizontal, the tilt is clamped, both clocks are non-negative, the
      greeting clock is bounded and is zero whenever no greeting is on. */
  predicate Valid(st: State) {
    && st.direction.y == 0.0
    && -TiltLimit <= st.tilt <= TiltLimit
    && 0.0 <= st.animationTime
    && 0.0 <= st.greetingTime <= GreetingBound
    && (!st.isGreeting ==> st.greetingTime == 0.0)
  }

  lemma InitialIsValid()
    ensures Valid(Initial)
    ensures Initial.position.y == 0.0
  {
  }

  /** One frame's worth of movement along `v`: `v * speed`. */
  function Stride(v: Vec3): Vec3 {
    Vec3(v.x * Speed, v.y * Speed, v.z * Speed)
  }

  /** The contribution of a pair of opposite keys: `v` for the first, its
      opposite for the second, nothing for neither or both. */
  function Toward(first: bool, second: bool, v: Vec3): Vec3 {
    if first == second then Zero else if first then v else Neg(v)
  }

  /** Net displacement of one keyboard sample, in strides: S adds the
      facing direction and W subtracts it; D adds `cross(up, d)`, written
      out, and A its opposite `cross(d, up)`. */
  function Displacement(k: Keys, d: Vec3): Vec3 {
    Add(Toward(k.s, k.w, d), Toward(k.d, k.a, Vec3(d.z, 0.0, -d.x)))
  }

  /** `processInput` (main.cpp:157-181): the walking flag is set exactly when
      a movement key is held, the position moves by one stride of the net
      displacement, and nothing else changes. */
  function InputStep(st: State, k: Keys): (r: State)
    ensures r.isWalking <==> k.Any()
    ensures r == st.(position := r.position, isWalking := r.isWalking)
    ensures Valid(st) ==> Valid(r)
  {
    st.(position := Add(st.position, Stride(Displacement(k, st.direction))),
        isWalking := k.Any())
  }

  /** Opposite keys cancel exactly: with neither or both of S and W, and
      neither or both of D and A (in particular with no key at all), the
      keyboard sample leaves the position where it was. */
  lemma OppositeKeysCancel(st: State, k: Keys)
    requires k.s == k.w && k.d == k.a
    ensures InputStep(st, k).position == st.position
  {
    assert Toward(k.s, k.w, st.direction) == Zero;
    assert Toward(k.d, k.a, Vec3(st.direction.z, 0.0, -st.direction.x)) == Zero;
  }

  lemma TowardIsLevel(first: bool, second: bool, v: Vec3)
    requires v.y == 0.0
    ensures Toward(first, second, v).y == 0.0
  {
  }

  lemma StrideIsLevel(p: Vec3, v: Vec3)
    requires v.y == 0.0
    ensures Add(p, Stride(v)).y == p.y
  {
  }

  /** With a horizontal facing direction, the keyboard sample never changes
      the robot's height. */
  lemma InputKeepsHeight(st: State, k: Keys)
    ensures st.direction.y == 0.0 ==> InputStep(st, k).position.y == st.position.y
  {
    var d := st.direction;
    if d.y == 0.0 {
      TowardIsLevel(k.s, k.w, d);
      TowardIsLevel(k.d, k.a, Vec3(d.z, 0.0, -d.x));
      StrideIsLevel(st.position, Displacement(k, d));
    }
  }

  /** S alone moves the robot one stride along its facing direction. */
  lemma SKeyFollowsDirection(st: State)
    ensures InputStep(st, Keys(true, false, false, false)).position
              == Add(st.position, Stride(st.direction))
  {
  }

  /** The tilt clamp of main.cpp:201-202: the result is in range, a value
      already in range is kept, and one out of range becomes the nearer
      bound. */
  function Clamp(t: real): (r: real)
    ensures -TiltLimit <= r <= TiltLimit
    ensures -TiltLimit <= t <= TiltLimit ==> r == t
    ensures t > TiltLimit ==> r == TiltLimit
    ensures t < -TiltLimit ==> r == -TiltLimit
  {
    if t > TiltLimit then TiltLimit else if t < -TiltLimit then -TiltLimit else t
  }

  /** `mouseCallback` (main.cpp:184-203). The first event only sets the
      baseline, so it moves neither heading nor tilt; an event at the
      previous cursor position does not either. Otherwise moving the
      cursor right turns the heading down and moving it up raises the tilt,
      0.2 degrees per unit. Position, direction and clocks are untouched. */
  function MouseStep(st: State, x: real, y: real): (r: State)
    ensures -TiltLimit <= r.tilt <= TiltLimit
    ensures !r.firstMouse && r.lastMouseX == x && r.lastMouseY == y
    ensures st.firstMouse || (x == st.lastMouseX && y == st.lastMouseY) ==>
              r.rotation == st.rotation && r.tilt == Clamp(st.tilt)
    ensures !st.firstMouse ==> r.rotation == st.rotation - (x - st.lastMouseX) * Sensitivity
    ensures !st.firstMouse ==> r.tilt == Clamp(st.tilt + (st.lastMouseY - y) * Sensitivity)
    ensures r == st.(rotation := r.rotation, tilt := r.tilt, lastMouseX := x, lastMouseY := y,
                     firstMouse := false)
    ensures Valid(st) ==> Valid(r)
  {
    var baseX := if st.firstMouse then x else st.lastMouseX;
    var baseY := if st.firstMouse then y else st.lastMouseY;
    st.(rotation := st.rotation - (x - baseX) * Sensitivity,
        tilt := Clamp(st.tilt + (baseY - y) * Sensitivity),
        lastMouseX := x, lastMouseY := y, firstMouse := false)
  }

  /** The greeting clock after main.cpp:310-317: while greeting it drifts,
      and once past the limit it is reset (the flag is cleared there too,
      but main.cpp:319-326 overwrite the flag unconditionally). */
  function DriftedGreetingTime(st: State): real {
    if st.isGreeting then
      if st.greetingTime + GreetingDrift > GreetingLimit then 0.0
      else st.greetingTime + GreetingDrift
    else st.greetingTime
  }

  /** The timer block of one pass of the main loop (main.cpp:303-344): the
      walk clock is zeroed when not walking and otherwise grows by the two
      increments 0.001 and 0.0005; the greeting flag follows the H key
      exactly; releasing H zeroes the greeting clock and holding it advances
      or wraps it; the facing direction is recomputed from the heading. */
  function TickStep(st: State, h: bool, t: Trig): (r: State)
    ensures r.animationTime == if st.isWalking then st.animationTime + 0.0015 else 0.0
    ensures r.isGreeting == h
    ensures !h ==> r.greetingTime == 0.0
    ensures h && !st.isGreeting ==> r.greetingTime == st.greetingTime + GreetingStep
    ensures h && st.isGreeting && st.greetingTime + GreetingDrift <= GreetingLimit ==>
              r.greetingTime == st.greetingTime + GreetingDrift + GreetingStep
    ensures h && st.isGreeting && st.greetingTime + GreetingDrift > GreetingLimit ==>
              r.greetingTime == GreetingStep
    ensures r.direction == Vec3(t.sin(Radians(st.rotation)), st.direction.y, t.cos(Radians(st.rotation)))
    ensures r == st.(animationTime := r.animationTime, isGreeting := r.isGreeting,
                     greetingTime := r.greetingTime, direction := r.direction)
    ensures Valid(st) ==> Valid(r)
    ensures Valid(st) && r.isWalking ==> r.animationTime >= WalkStepEarly + WalkStepLate
  {
    var walkClock := if st.isWalking then st.animationTime + WalkStepEarly else 0.0;
    var greetClock := DriftedGreetingTime(st);
    var greetClock' := if h then greetClock + GreetingStep else 0.0;
    var walkClock' := if st.isWalking then walkClock + WalkStepLate else 0.0;
    var angle := Radians(st.rotation);
    st.(animationTime := walkClock', isGreeting := h, greetingTime := greetClock',
        direction := st.direction.(x := t.sin(angle), z := t.cos(angle)))
  }

  /** A run of cursor events, dispatched in order to `mouseCallback`. After
      at least one event the tilt is in range and the last event is the new
      baseline; position, direction, walking and greeting state are as
      before. */
  function MouseMoves(st: State, events: seq<Cursor>): (r: State)
    ensures events != [] ==> -TiltLimit <= r.tilt <= TiltLimit
    ensures events != [] ==> !r.firstMouse && r.lastMouseX == events[|events| - 1].x
                             && r.lastMouseY == events[|events| - 1].y
    ensures events == [] ==> r == st
    ensures r.position == st.position && r.direction == st.direction
    ensures r.isWalking == st.isWalking && r.animationTime == st.animationTime
    ensures r.isGreeting == st.isGreeting && r.greetingTime == st.greetingTime
    ensures Valid(st) ==> Valid(r)
    decreases |events|
  {
    if events == [] then st
    else
      var last := events[|events| - 1];
      MouseStep(MouseMoves(st, events[..|events| - 1]), last.x, last.y)
  }

  /** The state from which a pass of the main loop draws the robot: after
      the keyboard sample and the timer block. */
  function Drawn(st: State, f: FrameInput, t: Trig): (r: State)
    ensures r.isWalking == f.keys.Any() && r.isGreeting == f.greet
    ensures !f.keys.Any() ==> r.animationTime == 0.0
    ensures Valid(st) ==> Valid(r)
  {
    TickStep(InputStep(st, f.keys), f.greet, t)
  }

  /** One whole pass of the main loop: keyboard, timers, then the cursor
      events polled at its end. */
  function FrameStep(st: State, f: FrameInput, t: Trig): (r: State)
    ensures r.isWalking == f.keys.Any() && r.isGreeting == f.greet
    ensures Valid(st) ==> Valid(r)
    ensures Valid(st) ==> r.position.y == st.position.y
  {
    InputKeepsHeight(st, f.keys);
    MouseMoves(Drawn(st, f, t), f.cursor)
  }

  /** A sequence of passes of the main loop. Every state reached from a
      valid one is valid, and the robot never leaves its height. */
  function Run(st: State, frames: seq<FrameInput>, t: Trig): (r: State)
    ensures Valid(st) ==> Valid(r)
    ensures Valid(st) ==> r.position.y == st.position.y
    ensures frames != [] ==> r.isGreeting == frames[|frames| - 1].greet
    decreases |frames|
  {
    if frames == [] then st
    else FrameStep(Run(st, frames[..|frames| - 1], t), frames[|frames| - 1], t)
  }

  /** Every state the program reaches is valid, and stays on the ground
      plane y = 0: in particular the tilt is always within [-45, 45]. */
  lemma ReachableStatesAreValid(frames: seq<FrameInput>, t: Trig)
    ensures Valid(Run(Initial, frames, t))
    ensures Run(Initial, frames, t).position.y == 0.0
    ensures -TiltLimit <= Run(Initial, frames, t).tilt <= TiltLimit
  {
  }

  /** Holding H from a state without a greeting: after n passes the clock
      is 0.001 + 0.0011 * (n - 1), for as long as the reset test at
      main.cpp:313 has not fired, that is for n up to 1819. */
  lemma {:induction false} GreetingClockWhileHeld(st: State, frames: seq<FrameInput>, t: Trig)
    requires Valid(st) && !st.isGreeting
    requires 1 <= |frames| <= 1819
    requires forall i :: 0 <= i < |frames| ==> frames[i].greet
    ensures Run(st, frames, t).isGreeting
    ensures Run(st, frames, t).greetingTime == 0.001 + 0.0011 * (|frames| - 1) as real
    decreases |frames|
  {
    var n := |frames|;
    var prefix := frames[..n - 1];
    var before := Run(st, prefix, t);
    if n == 1 {
      assert before == st;
    } else {
      GreetingClockWhileHeld(st, prefix, t);
      assert before.greetingTime + GreetingDrift <= GreetingLimit;
    }
  }

  /** The greeting clock is not capped at 2.0: 1819 passes holding H leave
      it at 2.0008, because the reset test runs before the step is added. */
  lemma GreetingClockPassesLimit(st: State, frames: seq<FrameInput>, t: Trig)
    requires Valid(st) && !st.isGreeting
    requires |frames| == 1819
    requires forall i :: 0 <= i < |frames| ==> frames[i].greet
    ensures Run(st, frames, t).greetingTime == 2.0008
    ensures Run(st, frames, t).greetingTime > GreetingLimit
  {
    GreetingClockWhileHeld(st, frames, t);
  }

  /** ... and the next pass holding H wraps it round to one step, while the
      greeting flag stays on: the greeting never switches itself off while
      H is held. */
  lemma GreetingClockWraps(st: State, frames: seq<FrameInput>, t: Trig)
    requires Valid(st) && !st.isGreeting
    requires |frames| == 1820
    requires forall i :: 0 <= i < |frames| ==> frames[i].greet
    ensures Run(st, frames, t).isGreeting
    ensures Run(st, frames, t).greetingTime == GreetingStep
  {
    var prefix := frames[..1819];
    GreetingClockWhileHeld(st, prefix, t);
    assert frames[..|frames| - 1] == prefix;
  }

  /** With heading 0 and the usual values of sin and cos at 0, a pass of the
      main loop faces the robot along +z, and on the next pass S alone moves
      it by exactly `Speed` along +z. */
  lemma HeadingZeroMovesAlongZ(st: State, f: FrameInput, t: Trig, k: Keys)
    requires Valid(st) && st.rotation == 0.0
    requires SinZero(t) && CosZero(t)
    requires k == Keys(true, false, false, false)
    ensures Drawn(st, f, t).direction == Vec3(0.0, 0.0, 1.0)
    ensures InputStep(Drawn(st, f, t), k).position
              == Add(Drawn(st, f, t).position, Vec3(0.0, 0.0, Speed))
  {
    var drawn := Drawn(st, f, t);
    assert Radians(st.rotation) == 0.0;
    assert drawn.direction == Vec3(0.0, 0.0, 1.0);
    SKeyFollowsDirection(drawn);
    assert Stride(Vec3(0.0, 0.0, 1.0)) == Vec3(0.0, 0.0, Speed);
  }

  /** The recomputed facing direction has unit length in the horizontal
      plane when sin and cos satisfy the Pythagorean identity. */
  lemma DirectionIsUnit(st: State, h: bool, t: Trig)
    requires Valid(st) && Pythagorean(t)
    ensures var d := TickStep(st, h, t).direction;
            d.y == 0.0 && d.x * d.x + d.z * d.z == 1.0
  {
  }
}
