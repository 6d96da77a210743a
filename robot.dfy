/** The program's global robot state as an object whose fields the input
    handlers and the main loop update in place (main.cpp:12-28, 157-203,
    299-403). Each method is proved to leave the fields as the matching
    function of robot_state.dfy says; the properties of those functions are
    proved there and in skeleton.dfy. */
module RobotLoop {
  import opened Vectors
  import opened Trig
  import opened RobotState
  import opened Skeleton

  class Robot {
    var position: Vec3
    var direction: Vec3
    var rotation: real
    var tilt: real
    var lastMouseX: real
    var lastMouseY: real
    var firstMouse: bool
    var isWalking: bool
    var animationTime: real
    var isGreeting: bool
    var greetingTime: real

    /** The current values of all fields, as one record. */
    function Snapshot(): State
      reads this
    {
      State(position, direction, rotation, tilt, lastMouseX, lastMouseY, firstMouse,
            isWalking, animationTime, isGreeting, greetingTime)
    }

    /** The globals' initial values (main.cpp:12-28). */
    constructor ()
      ensures Snapshot() == Initial
    {
      position := Vec3(0.0, 0.0, 0.0);
      direction := Vec3(0.0, 0.0, -1.0);
      animationTime := 0.0;
      isWalking := false;
      rotation := 0.0;
      tilt := 0.0;
      lastMouseY := 400.0;
      lastMouseX := 500.0;
      firstMouse := true;
      isGreeting := false;
      greetingTime := 0.0;
    }

    /** `processInput` (main.cpp:157-181): the four keys are checked in
        turn, each moving the position by one stride. The walking flag and
        the moved position are collected in locals and stored at the end;
        nothing reads either field in between. */
    method ProcessInput(keys: Keys)
      modifies this
      ensures Snapshot() == InputStep(old(Snapshot()), keys)
    {
      var walking := false;
      var moved := position;
      if keys.s {
        moved := Add(moved, Stride(direction));
        walking := true;
      }
      if keys.w {
        moved := Sub(moved, Stride(direction));
        walking := true;
      }
      ghost var afterForward := moved;
      assert afterForward == Add(position, Stride(Toward(keys.s, keys.w, direction))) by {
        ForwardBackMoves(position, direction, keys.s, keys.w);
      }
      if keys.d {
        var leftDirection := Cross(Up, direction);
        moved := Add(moved, Stride(leftDirection));
        walking := true;
      }
      if keys.a {
        var rightDirection := Cross(direction, Up);
        moved := Add(moved, Stride(rightDirection));
        walking := true;
      }
      assert moved == Add(afterForward, Stride(Toward(keys.d, keys.a, Cross(Up, direction)))) by {
        CrossWithUp(direction);
        StrafeMoves(afterForward, Cross(Up, direction), Cross(direction, Up), keys.d, keys.a);
      }
      assert moved == Add(position, Stride(Displacement(keys, direction))) by {
        CrossWithUp(direction);
        StridesAdd(position, Toward(keys.s, keys.w, direction),
                   Toward(keys.d, keys.a, Cross(Up, direction)));
      }
      isWalking := walking;
      position := moved;
    }

    /** `mouseCallback` (main.cpp:184-203). */
    method MouseCallback(xpos: real, ypos: real)
      modifies this
      ensures Snapshot() == MouseStep(old(Snapshot()), xpos, ypos)
    {
      if firstMouse {
        lastMouseX := xpos;
        lastMouseY := ypos;
        firstMouse := false;
      }
      var xOffset := xpos - lastMouseX;
      var yOffset := lastMouseY - ypos;
      lastMouseX := xpos;
      lastMouseY := ypos;

      rotation := rotation - xOffset * Sensitivity;
      tilt := tilt + yOffset * Sensitivity;

      if tilt > TiltLimit {
        tilt := TiltLimit;
      }
      if tilt < -TiltLimit {
        tilt := -TiltLimit;
      }
    }

    /** The timer block of the main loop (main.cpp:303-344), in source
        order; `h` says whether H is held. */
    method Tick(h: bool, t: Trig)
      modifies this
      ensures Snapshot() == TickStep(old(Snapshot()), h, t)
    {
      if isWalking {
        animationTime := animationTime + WalkStepEarly;
      } else {
        animationTime := 0.0;
      }

      if isGreeting {
        greetingTime := greetingTime + GreetingDrift;
        if greetingTime > GreetingLimit {
          isGreeting := false;
          greetingTime := 0.0;
        }
      }

      if h {
        isGreeting := true;
        greetingTime := greetingTime + GreetingStep;
      } else {
        isGreeting := false;
        greetingTime := 0.0;
      }

      if isWalking {
        animationTime := animationTime + WalkStepLate;
      } else {
        animationTime := 0.0;
      }

      var angle := Radians(rotation);
      direction := direction.(x := t.sin(angle), z := t.cos(angle));
    }

    /** The event poll at the end of a pass: each queued cursor event is
        handed to the cursor callback in turn. */
    method PollEvents(events: seq<Cursor>)
      modifies this
      ensures Snapshot() == MouseMoves(old(Snapshot()), events)
    {
      for i := 0 to |events|
        invariant Snapshot() == MouseMoves(old(Snapshot()), events[..i])
      {
        PrefixOfPrefix(events, i, i + 1);
        MouseCallback(events[i].x, events[i].y);
      }
      assert events[..|events|] == events;
    }

    /** One pass of the main loop (main.cpp:300-402): keyboard, timers, the
        picture drawn, then the event poll. */
    method Frame(f: FrameInput, t: Trig) returns (cubes: seq<Cube>)
      modifies this
      ensures cubes == Scene(Drawn(old(Snapshot()), f, t), t)
      ensures Snapshot() == FrameStep(old(Snapshot()), f, t)
    {
      ProcessInput(f.keys);
      Tick(f.greet, t);
      cubes := Scene(Snapshot(), t);
      PollEvents(f.cursor);
    }
  }

  /** S then W: one stride of their net contribution along `v`. */
  lemma ForwardBackMoves(p: Vec3, v: Vec3, first: bool, second: bool)
    ensures (var p1 := if first then Add(p, Stride(v)) else p;
             if second then Sub(p1, Stride(v)) else p1)
            == Add(p, Stride(Toward(first, second, v)))
  {
  }

  /** D then A: `u` is the opposite of `v`, so one stride of their net
      contribution along `v`. */
  lemma StrafeMoves(p: Vec3, v: Vec3, u: Vec3, first: bool, second: bool)
    requires u == Neg(v)
    ensures (var p1 := if first then Add(p, Stride(v)) else p;
             if second then Add(p1, Stride(u)) else p1)
            == Add(p, Stride(Toward(first, second, v)))
  {
  }

  /** Two strides in a row are one stride of the sum. */
  lemma StridesAdd(p: Vec3, a: Vec3, b: Vec3)
    ensures Add(Add(p, Stride(a)), Stride(b)) == Add(p, Stride(Add(a, b)))
  {
  }

  /** A prefix of a prefix is a prefix. */
  lemma PrefixOfPrefix<T>(s: seq<T>, i: nat, j: nat)
    requires i <= j <= |s|
    ensures s[..j][..i] == s[..i]
  {
  }

  /** The program from window creation to close: the state starts at the
      globals' initial values and each element of `frames` is one pass of
      the main loop; the picture of each pass is the one `Frame` states. */
  method RunWindow(frames: seq<FrameInput>, t: Trig) returns (robot: Robot)
    ensures fresh(robot)
    ensures robot.Snapshot() == Run(Initial, frames, t)
  {
    robot := new Robot();
    var i := 0;
    while i < |frames|
      invariant 0 <= i <= |frames|
      invariant robot.Snapshot() == Run(Initial, frames[..i], t)
    {
      PrefixOfPrefix(frames, i, i + 1);
      var _ := robot.Frame(frames[i], t);
      i := i + 1;
    }
    assert frames[..|frames|] == frames;
  }
}
