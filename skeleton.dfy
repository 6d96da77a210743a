/** The robot's pose for one frame (main.cpp:338-339, 351-398), described
    rather than multiplied out: each of the six cubes drawn is given by the
    chain of translations and rotations that builds its model matrix, the
    cube's own offset and scale, and its texture. Angles are in degrees, as
    the program writes them before converting with `glm::radians`. */
module Skeleton {
  import opened Vectors
  import opened Trig
  import opened RobotState

  datatype Axis = XAxis | YAxis | ZAxis

  /** One factor of a model matrix: `glm::translate` or `glm::rotate`. */
  datatype Step = Translate(delta: Vec3) | Rotate(degrees: real, axis: Axis)

  datatype Texture = FaceTexture | BodyTexture

  /** One `drawCube` call: the model matrix as the chain of steps that
      built it, then the unit cube's local offset and scale. */
  datatype Cube = Cube(model: seq<Step>, offset: Vec3, size: Vec3, texture: Texture)

  /** A limb: where it attaches to the body, the rotations applied at that
      joint, and the size of its box. */
  datatype Limb = Limb(joint: Vec3, swing: seq<Step>, size: Vec3)

  /** Everything in one frame's picture that depends on the state. */
  datatype Pose = Pose(
    position: Vec3,
    heading: real,
    leftArm: Limb,
    rightLeg: Limb,
    rightArm: Limb,
    leftLeg: Limb)

  /** The walk-cycle joint angles of main.cpp:338-339. */
  datatype JointAngles = JointAngles(arm: real, leg: real)

  const SwingAmplitude: real := 30.0
  const RaisedArm: real := -160.0
  const WaveAmplitude: real := 15.0
  const WaveRate: real := 2.0

  const HeadOffset: Vec3 := Vec3(0.0, 1.0, 0.0)
  const HeadSize: Vec3 := Vec3(0.5, 0.5, 0.5)
  const TorsoSize: Vec3 := Vec3(1.0, 1.5, 0.5)
  const LeftShoulder: Vec3 := Vec3(-0.6, 0.5, 0.0)
  const RightShoulder: Vec3 := Vec3(0.6, 0.5, 0.0)
  const LeftHip: Vec3 := Vec3(-0.3, -0.5, 0.0)
  const RightHip: Vec3 := Vec3(0.3, -0.5, 0.0)
  const ArmSize: Vec3 := Vec3(0.2, 1.0, 0.2)
  const LegSize: Vec3 := Vec3(0.3, 1.0, 0.3)
  /** After rotating at the joint, a limb's box is moved down by half its
      length so that it hangs from the joint. */
  const LimbDrop: Vec3 := Vec3(0.0, -0.5, 0.0)

  /** Arms and legs swing in anti-phase with amplitude 30 degrees; at the
      rest phase (sin = 0) both are level, at a quarter cycle (sin = 1)
      the arm is at 30 and the leg at -30. */
  function Angles(t: Trig, animationTime: real): (r: JointAngles)
    ensures r.arm == -r.leg
    ensures t.sin(animationTime) == 0.0 ==> r == JointAngles(0.0, 0.0)
    ensures t.sin(animationTime) == 1.0 ==> r == JointAngles(30.0, -30.0)
  {
    JointAngles(t.sin(animationTime) * SwingAmplitude, -t.sin(animationTime) * SwingAmplitude)
  }

  /** The greeting wave of main.cpp:382: zero at phase 0, 15 degrees when
      sin(2 * greetingTime) = 1. */
  function Wave(t: Trig, greetingTime: real): (r: real)
    ensures t.sin(greetingTime * WaveRate) == 0.0 ==> r == 0.0
    ensures t.sin(greetingTime * WaveRate) == 1.0 ==> r == WaveAmplitude
  {
    t.sin(greetingTime * WaveRate) * WaveAmplitude
  }

  /** The joint rotations of the right arm (main.cpp:381-388): raised by
      -160 degrees about x and waved about z while greeting, otherwise the
      mirror of the left arm's swing. */
  function RightArmSwing(st: State, t: Trig): (r: seq<Step>)
    ensures st.isGreeting ==> r == [Rotate(RaisedArm, XAxis), Rotate(Wave(t, st.greetingTime), ZAxis)]
    ensures !st.isGreeting ==> r == [Rotate(-Angles(t, st.animationTime).arm, XAxis)]
  {
    if st.isGreeting then
      [Rotate(RaisedArm, XAxis), Rotate(Wave(t, st.greetingTime), ZAxis)]
    else
      [Rotate(-Angles(t, st.animationTime).arm, XAxis)]
  }

  predicate RotationsOnly(steps: seq<Step>) {
    forall i :: 0 <= i < |steps| ==> steps[i].Rotate?
  }

  /** Every joint of the pose only rotates. */
  predicate Jointed(p: Pose) {
    && RotationsOnly(p.leftArm.swing) && RotationsOnly(p.rightLeg.swing)
    && RotationsOnly(p.rightArm.swing) && RotationsOnly(p.leftLeg.swing)
  }

  /** The pose drawn from a state. The root follows the position and the
      heading; joints and boxes are mirror images left to right; the left
      arm and the left leg always share their swing, and so do the right arm
      and the right leg unless a greeting is on. */
  function PoseOf(st: State, t: Trig): (p: Pose)
    ensures p.position == st.position && p.heading == st.rotation
    ensures p.leftArm.joint == MirrorX(p.rightArm.joint) && p.leftLeg.joint == MirrorX(p.rightLeg.joint)
    ensures p.leftArm.size == p.rightArm.size && p.leftLeg.size == p.rightLeg.size
    ensures p.leftArm.swing == p.leftLeg.swing
    ensures !st.isGreeting ==> p.rightArm.swing == p.rightLeg.swing
    ensures p.leftArm.swing == [Rotate(Angles(t, st.animationTime).arm, XAxis)]
    ensures p.rightLeg.swing == [Rotate(Angles(t, st.animationTime).leg, XAxis)]
    ensures p.rightArm.swing == RightArmSwing(st, t)
    ensures Jointed(p)
  {
    var angles := Angles(t, st.animationTime);
    Pose(
      st.position,
      st.rotation,
      Limb(LeftShoulder, [Rotate(angles.arm, XAxis)], ArmSize),
      Limb(RightHip, [Rotate(angles.leg, XAxis)], LegSize),
      Limb(RightShoulder, RightArmSwing(st, t), ArmSize),
      Limb(LeftHip, [Rotate(-angles.leg, XAxis)], LegSize))
  }

  /** The root transform every part hangs from (main.cpp:351-352). */
  function Root(p: Pose): seq<Step> {
    [Translate(p.position), Rotate(p.heading, YAxis)]
  }

  /** The translate-rotate-translate chain of a limb: to the joint, the
      joint's rotations, then down so that the box hangs from the joint. */
  function LimbModel(p: Pose, l: Limb): seq<Step> {
    Root(p) + [Translate(l.joint)] + l.swing + [Translate(LimbDrop)]
  }

  /** The body-textured cube of a limb, hinged at the limb's joint. */
  function LimbCube(p: Pose, l: Limb): (c: Cube)
    ensures HingedAt(c, Root(p), l) && c.texture == BodyTexture
  {
    Cube(LimbModel(p, l), Zero, l.size, BodyTexture)
  }

  /** A cube drawn for limb `l`: its model chain is the root, a move to the
      limb's joint, the limb's own swing, then the drop that hangs the box
      from the joint; its box is the limb's. */
  predicate HingedAt(c: Cube, root: seq<Step>, l: Limb) {
    && |c.model| >= |root| + 2
    && c.model[..|root|] == root
    && c.model[|root|] == Translate(l.joint)
    && c.model[|root| + 1..|c.model| - 1] == l.swing
    && c.model[|c.model| - 1] == Translate(LimbDrop)
    && c.offset == Zero
    && c.size == l.size
  }

  /** The rotations between a limb cube's joint and its drop, for a root of
      two steps. */
  function Swing(c: Cube): seq<Step> {
    if |c.model| < 4 then [] else c.model[3..|c.model| - 1]
  }

  /** The cubes drawn for a pose, in the program's order: head, torso,
      left arm, right leg, right arm, left leg. The head alone carries the
      face texture; head and torso are placed by the root alone; every limb
      is drawn with its own joint, swing and box under the root. */
  function DrawList(p: Pose): (cubes: seq<Cube>)
    ensures |cubes| == 6
    ensures cubes[0] == Cube(Root(p), HeadOffset, HeadSize, FaceTexture)
    ensures cubes[1] == Cube(Root(p), Zero, TorsoSize, BodyTexture)
    ensures forall i :: 1 <= i < 6 ==> cubes[i].texture == BodyTexture
    ensures forall i :: 0 <= i < 6 ==> |cubes[i].model| >= 2 && cubes[i].model[..2] == Root(p)
    ensures HingedAt(cubes[2], Root(p), p.leftArm)
    ensures HingedAt(cubes[3], Root(p), p.rightLeg)
    ensures HingedAt(cubes[4], Root(p), p.rightArm)
    ensures HingedAt(cubes[5], Root(p), p.leftLeg)
  {
    [ Cube(Root(p), HeadOffset, HeadSize, FaceTexture),
      Cube(Root(p), Zero, TorsoSize, BodyTexture),
      LimbCube(p, p.leftArm),
      LimbCube(p, p.rightLeg),
      LimbCube(p, p.rightArm),
      LimbCube(p, p.leftLeg) ]
  }

  /** The picture drawn from a state. */
  function Scene(st: State, t: Trig): seq<Cube> {
    DrawList(PoseOf(st, t))
  }

  /** At the rest phase of the walk clock, with no greeting on, all four
      limbs hang straight down. */
  lemma RestingPose(st: State, t: Trig)
    requires SinZero(t) && st.animationTime == 0.0 && !st.isGreeting
    ensures var p := PoseOf(st, t);
            && p.leftArm.swing == [Rotate(0.0, XAxis)] && p.rightLeg.swing == [Rotate(0.0, XAxis)]
            && p.rightArm.swing == [Rotate(0.0, XAxis)] && p.leftLeg.swing == [Rotate(0.0, XAxis)]
  {
  }

  /** A pass of the main loop without movement keys and without H draws
      the robot standing still: the walk clock has been reset, so every
      limb's swing is zero. */
  lemma IdleFrameStandsStill(st: State, f: FrameInput, t: Trig)
    requires SinZero(t) && !f.keys.Any() && !f.greet
    ensures var p := PoseOf(Drawn(st, f, t), t);
            && p.leftArm.swing == [Rotate(0.0, XAxis)] && p.rightLeg.swing == [Rotate(0.0, XAxis)]
            && p.rightArm.swing == [Rotate(0.0, XAxis)] && p.leftLeg.swing == [Rotate(0.0, XAxis)]
  {
  }

  /** In the picture drawn, the left arm and the left leg turn by the same
      walk angle, the right leg by its opposite, and the right arm like the
      right leg unless greeting. */
  lemma WalkAntiPhase(st: State, t: Trig)
    ensures var c := Scene(st, t);
            var a := Angles(t, st.animationTime);
            && Swing(c[2]) == Swing(c[5]) == [Rotate(a.arm, XAxis)]
            && Swing(c[3]) == [Rotate(-a.arm, XAxis)]
            && (!st.isGreeting ==> Swing(c[4]) == Swing(c[3]))
  {
    var p := PoseOf(st, t);
    var c := DrawList(p);
    SwingOfHinged(c[2], Root(p), p.leftArm);
    SwingOfHinged(c[3], Root(p), p.rightLeg);
    SwingOfHinged(c[4], Root(p), p.rightArm);
    SwingOfHinged(c[5], Root(p), p.leftLeg);
  }

  /** The greeting raises the right arm to -160 degrees at once: at
      greeting time 0 the wave is still level. */
  lemma GreetingStartsRaised(st: State, t: Trig)
    requires SinZero(t) && st.isGreeting && st.greetingTime == 0.0
    ensures RightArmSwing(st, t) == [Rotate(RaisedArm, XAxis), Rotate(0.0, ZAxis)]
  {
  }

  /** The part of a limb cube's chain that places its joint: the two root
      steps and the move to the joint. */
  function Mount(c: Cube): seq<Step> {
    if |c.model| < 3 then c.model else c.model[..3]
  }

  /** A limb cube under a two-step root is placed by the root and the move
      to its joint. */
  lemma MountOfHinged(c: Cube, root: seq<Step>, l: Limb)
    requires HingedAt(c, root, l) && |root| == 2
    ensures Mount(c) == root + [Translate(l.joint)]
  {
    assert c.model[..3] == c.model[..2] + [c.model[2]];
  }

  /** A limb cube under a two-step root turns by the limb's swing. */
  lemma SwingOfHinged(c: Cube, root: seq<Step>, l: Limb)
    requires HingedAt(c, root, l) && |root| == 2
    ensures Swing(c) == l.swing
  {
  }

  /** Limbs turn about their joints: the part of each limb's chain up to
      its joint depends only on position and heading, never on the clocks,
      the walking or the greeting state. */
  lemma JointsIgnoreAnimation(s1: State, s2: State, t: Trig)
    requires s1.position == s2.position && s1.rotation == s2.rotation
    ensures forall i :: 2 <= i < 6 ==> Mount(Scene(s1, t)[i]) == Mount(Scene(s2, t)[i])
  {
    var p1, p2 := PoseOf(s1, t), PoseOf(s2, t);
    var c1, c2 := DrawList(p1), DrawList(p2);
    MountOfHinged(c1[2], Root(p1), p1.leftArm);
    MountOfHinged(c2[2], Root(p2), p2.leftArm);
    MountOfHinged(c1[3], Root(p1), p1.rightLeg);
    MountOfHinged(c2[3], Root(p2), p2.rightLeg);
    MountOfHinged(c1[4], Root(p1), p1.rightArm);
    MountOfHinged(c2[4], Root(p2), p2.rightArm);
    MountOfHinged(c1[5], Root(p1), p1.leftLeg);
    MountOfHinged(c2[5], Root(p2), p2.leftLeg);
  }
}
