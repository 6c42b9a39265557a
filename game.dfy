// The input and camera state machine of the viewer (src/main.c): the event
// callback that turns key, mouse and capture events into movement intents
// and camera orientation, the movement step of the frame callback, and the
// start pose set at initialisation. GL and GLFW calls are not modelled;
// scalars are reals.
module Game {
  import Common

  datatype Option<T> = None | Some(value: T)

  /** Vec_3: a point or direction in space. */
  datatype Vec3 = Vec3(x: real, y: real, z: real)

  const Zero: Vec3 := Vec3(0.0, 0.0, 0.0)

  /** The world's up axis, the `up` basis vector of the frame callback. */
  const WorldUp: Vec3 := Vec3(0.0, 1.0, 0.0)

  // vec3_add, vec3_sub and vec3_scale act component by component.

  function Add(a: Vec3, b: Vec3): Vec3
  {
    Vec3(a.x + b.x, a.y + b.y, a.z + b.z)
  }

  function Sub(a: Vec3, b: Vec3): Vec3
  {
    Vec3(a.x - b.x, a.y - b.y, a.z - b.z)
  }

  function Vec3Scale(v: Vec3, s: real): Vec3
  {
    Vec3(v.x * s, v.y * s, v.z * s)
  }

  function Neg(v: Vec3): Vec3
  {
    Vec3(-v.x, -v.y, -v.z)
  }

  /** The PI of main.c, as written there. */
  const Pi: real := 3.1415926535

  /** Radians of turn per unit of mouse motion. */
  const Sensitivity: real := 0.01

  /** Units of distance per second of movement. */
  const MoveSpeed: real := 3.0

  /** Where on_init places the camera, and which way it faces. */
  const StartPos: Vec3 := Vec3(0.0, 0.0, -5.0)
  const StartYaw: real := Pi * 1.5

  // GLFW key codes and key actions, as GLFW's public header defines them.
  const KeyW: int := 87
  const KeyS: int := 83
  const KeyA: int := 65
  const KeyD: int := 68
  const KeySpace: int := 32
  const KeyLeftControl: int := 341
  const Release: int := 0
  const Press: int := 1
  const Repeat: int := 2

  /** Camera: position and orientation. */
  datatype Camera = Camera(pos: Vec3, pitch: real, yaw: real)

  /** An input event from the host: a key with its action, a mouse movement,
      a change of input capture, or any other kind. */
  datatype Event =
    | Key(key: int, action: int)
    | MouseMotion(delta: Common.Vec2)
    | InputCaptured(captured: bool)
    | Other

  /** The six movement intents. */
  datatype Direction = Forward | Back | Left | Right | Up | Down

  /** The key bound to each movement intent. */
  function KeyOf(d: Direction): int
  {
    match d
    case Forward => KeyW
    case Back => KeyS
    case Left => KeyA
    case Right => KeyD
    case Up => KeySpace
    case Down => KeyLeftControl
  }

  /** The movement intent a key is bound to, if any: the cases of the inner
      switch of on_platform_event, which has no default. */
  function KeyDirection(key: int): (d: Option<Direction>)
    ensures d.Some? <==> key in {KeyW, KeyS, KeyA, KeyD, KeySpace, KeyLeftControl}
    ensures d.Some? ==> KeyOf(d.value) == key
  {
    if key == KeyW then Some(Forward)
    else if key == KeyS then Some(Back)
    else if key == KeyA then Some(Left)
    else if key == KeyD then Some(Right)
    else if key == KeySpace then Some(Up)
    else if key == KeyLeftControl then Some(Down)
    else None
  }

  /** The part of Game_State that input and movement touch, as a value. */
  datatype GameView = GameView(
    moveF: bool, moveB: bool, moveL: bool, moveR: bool, moveU: bool, moveD: bool,
    isCaptured: bool,
    camera: Camera)
  {
    /** The flag that holds intent d. */
    function Intent(d: Direction): bool
    {
      match d
      case Forward => moveF
      case Back => moveB
      case Left => moveL
      case Right => moveR
      case Up => moveU
      case Down => moveD
    }

    /** This view with the flag of intent d set to b. */
    function WithIntent(d: Direction, b: bool): GameView
    {
      match d
      case Forward => this.(moveF := b)
      case Back => this.(moveB := b)
      case Left => this.(moveL := b)
      case Right => this.(moveR := b)
      case Up => this.(moveU := b)
      case Down => this.(moveD := b)
    }

    /** This view with every intent exchanged for its opposite. */
    function Mirrored(): GameView
    {
      this.(moveF := moveB, moveB := moveF, moveL := moveR, moveR := moveL,
            moveU := moveD, moveD := moveU)
    }
  }

  // Specification of on_platform_event

  /** The state after event e: a press or release of a bound key sets or
      clears that key's intent, and any other action is ignored; mouse motion
      turns the camera only while input is captured; a capture event records
      whether input is captured. */
  function Step(s: GameView, e: Event): GameView
  {
    match e
    case Key(key, action) =>
      (match KeyDirection(key)
       case None => s
       case Some(d) =>
         if action == Press then s.WithIntent(d, true)
         else if action == Release then s.WithIntent(d, false)
         else s)
    case MouseMotion(delta) =>
      if s.isCaptured then
        s.(camera := s.camera.(yaw := s.camera.yaw - Sensitivity * delta.x,
                               pitch := s.camera.pitch - Sensitivity * delta.y))
      else s
    case InputCaptured(captured) => s.(isCaptured := captured)
    case Other => s
  }

  // Specification of the movement step of on_frame

  /** What one pair of opposed intents adds to the movement: v, -v, or nothing
      when both or neither are held. */
  function Axis(v: Vec3, plus: bool, minus: bool): Vec3
  {
    if plus == minus then Zero else if plus then v else Neg(v)
  }

  /** The summed, not yet normalised movement of a frame, given the camera's
      forward and right vectors. */
  function MoveVector(s: GameView, forward: Vec3, right: Vec3): Vec3
  {
    Add(Add(Axis(forward, s.moveF, s.moveB), Axis(right, s.moveR, s.moveL)),
        Axis(WorldUp, s.moveU, s.moveD))
  }

  /** The state after the movement step of a frame: if the summed movement is
      not zero, the camera moves along its direction, normalised, by
      MoveSpeed * dt. */
  function FrameStep(s: GameView, forward: Vec3, right: Vec3, normalize: Vec3 -> Vec3, dt: real): GameView
  {
    var move := MoveVector(s, forward, right);
    if move == Zero then s
    else s.(camera := s.camera.(pos := Add(s.camera.pos, Vec3Scale(normalize(move), MoveSpeed * dt))))
  }

  /** The state after on_init: the camera at StartPos, facing StartYaw. */
  function InitStep(s: GameView): GameView
  {
    s.(camera := s.camera.(pos := StartPos, yaw := StartYaw))
  }

  /** Game_State, restricted to the fields the input and movement code reads
      and writes. */
  class GameState {
    var camera: Camera
    var moveF: bool
    var moveB: bool
    var moveL: bool
    var moveR: bool
    var moveU: bool
    var moveD: bool
    var isCaptured: bool

    function View(): GameView
      reads this
    {
      GameView(moveF, moveB, moveL, moveR, moveU, moveD, isCaptured, camera)
    }

    /** The state as the host hands it over, whatever it holds. */
    constructor (v: GameView)
      ensures View() == v
    {
      camera := v.camera;
      moveF, moveB, moveL, moveR, moveU, moveD := v.moveF, v.moveB, v.moveL, v.moveR, v.moveU, v.moveD;
      isCaptured := v.isCaptured;
    }

    /** The start pose of on_init. */
    method Init()
      modifies this
      ensures camera.pos == StartPos && camera.yaw == StartYaw
      ensures View() == InitStep(old(View()))
    {
      camera := camera.(pos := Vec3(0.0, 0.0, -5.0));
      camera := camera.(yaw := Pi * 1.5);
    }

    /** on_platform_event. */
    method HandleEvent(e: Event)
      modifies this
      ensures View() == Step(old(View()), e)
    {
      match e {
        case Key(key, action) =>
          if key == KeyW {
            assert KeyDirection(key) == Some(Forward);
            if action == Press { moveF := true; }
            else if action == Release { moveF := false; }
          } else if key == KeyS {
            assert KeyDirection(key) == Some(Back);
            if action == Press { moveB := true; }
            else if action == Release { moveB := false; }
          } else if key == KeyA {
            assert KeyDirection(key) == Some(Left);
            if action == Press { moveL := true; }
            else if action == Release { moveL := false; }
          } else if key == KeyD {
            assert KeyDirection(key) == Some(Right);
            if action == Press { moveR := true; }
            else if action == Release { moveR := false; }
          } else if key == KeySpace {
            assert KeyDirection(key) == Some(Up);
            if action == Press { moveU := true; }
            else if action == Release { moveU := false; }
          } else if key == KeyLeftControl {
            assert KeyDirection(key) == Some(Down);
            if action == Press { moveD := true; }
            else if action == Release { moveD := false; }
          } else {
            // No case of the switch matches: nothing happens.
            assert KeyDirection(key) == None;
          }
        case MouseMotion(delta) =>
          if isCaptured {
            camera := camera.(yaw := camera.yaw - Sensitivity * delta.x);
            camera := camera.(pitch := camera.pitch - Sensitivity * delta.y);
          }
        case InputCaptured(captured) =>
          isCaptured := captured;
        case Other =>
      }
    }

    /** The movement step of on_frame: sum the contributions of the held
        intents, and if the sum is not zero move the camera along it. The
        camera's forward and right vectors and vec3_normalize come from
        outside this model and are parameters. */
    method Frame(forward: Vec3, right: Vec3, normalize: Vec3 -> Vec3, prevDeltaTime: real)
      modifies this
      ensures View() == FrameStep(old(View()), forward, right, normalize, prevDeltaTime)
    {
      ghost var s := View();
      var up := WorldUp;
      var move := Zero;
      if moveF { move := Add(move, forward); }
      if moveB { move := Sub(move, forward); }
      AddThenSub(Zero, forward, moveF, moveB);
      ghost var fb := move;
      if moveL { move := Sub(move, right); }
      if moveR { move := Add(move, right); }
      SubThenAdd(fb, right, moveR, moveL);
      ghost var lr := move;
      if moveU { move := Add(move, up); }
      if moveD { move := Sub(move, up); }
      AddThenSub(lr, up, moveU, moveD);
      AddZero(Axis(forward, moveF, moveB));
      assert move == MoveVector(s, forward, right);
      if move.x != 0.0 || move.y != 0.0 || move.z != 0.0 {
        assert move != Zero;
        move := normalize(move);
        move := Vec3Scale(move, MoveSpeed * prevDeltaTime);
        camera := camera.(pos := Add(camera.pos, move));
      }
    }
  }

  /** Adding v when `plus` is held and then subtracting it when `minus` is
      held adds that pair's contribution. */
  lemma AddThenSub(m: Vec3, v: Vec3, plus: bool, minus: bool)
    ensures (var m1 := if plus then Add(m, v) else m;
             if minus then Sub(m1, v) else m1) == Add(m, Axis(v, plus, minus))
  {
  }

  /** The same, subtracting first, as the left/right pair does. */
  lemma SubThenAdd(m: Vec3, v: Vec3, plus: bool, minus: bool)
    ensures (var m1 := if minus then Sub(m, v) else m;
             if plus then Add(m1, v) else m1) == Add(m, Axis(v, plus, minus))
  {
  }

  lemma AddZero(v: Vec3)
    ensures Add(Zero, v) == v
  {
  }

  // Properties of the event step

  /** Each bound key is bound to exactly one intent, and each intent to its
      key. */
  lemma KeyBindingRoundTrip(d: Direction, key: int)
    ensures KeyDirection(KeyOf(d)) == Some(d)
    ensures KeyDirection(key) == Some(d) <==> key == KeyOf(d)
  {
  }

  /** Pressing the key of intent d sets that intent and changes nothing
      else. */
  lemma {:induction false} PressSetsOnlyItsIntent(s: GameView, d: Direction)
    ensures var t := Step(s, Key(KeyOf(d), Press));
      && t.Intent(d)
      && (forall other :: other != d ==> t.Intent(other) == s.Intent(other))
      && t.isCaptured == s.isCaptured
      && t.camera == s.camera
  {
    KeyBindingRoundTrip(d, KeyOf(d));
  }

  /** Releasing the key of intent d clears that intent and changes nothing
      else. */
  lemma {:induction false} ReleaseClearsOnlyItsIntent(s: GameView, d: Direction)
    ensures var t := Step(s, Key(KeyOf(d), Release));
      && !t.Intent(d)
      && (forall other :: other != d ==> t.Intent(other) == s.Intent(other))
      && t.isCaptured == s.isCaptured
      && t.camera == s.camera
  {
    KeyBindingRoundTrip(d, KeyOf(d));
  }

  /** A key action other than press and release (a repeat, say) is
      ignored. */
  lemma OtherActionIgnored(s: GameView, key: int, action: int)
    requires action != Press && action != Release
    ensures Step(s, Key(key, action)) == s
  {
  }

  /** A held key's repeats leave the state as it is. */
  lemma RepeatIgnored(s: GameView, key: int)
    ensures Step(s, Key(key, Repeat)) == s
  {
    OtherActionIgnored(s, key, Repeat);
  }

  /** A key bound to no intent is ignored, whatever its action. */
  lemma UnboundKeyIgnored(s: GameView, key: int, action: int)
    requires key !in {KeyW, KeyS, KeyA, KeyD, KeySpace, KeyLeftControl}
    ensures Step(s, Key(key, action)) == s
  {
  }

  /** An event of another kind is ignored. */
  lemma OtherEventIgnored(s: GameView)
    ensures Step(s, Other) == s
  {
  }

  /** A press and a release of the same key leave the intent released, and
      a press held twice is one press. */
  lemma {:induction false} PressRelease(s: GameView, d: Direction)
    ensures Step(Step(s, Key(KeyOf(d), Press)), Key(KeyOf(d), Release)) == s.WithIntent(d, false)
    ensures Step(Step(s, Key(KeyOf(d), Press)), Key(KeyOf(d), Press)) == Step(s, Key(KeyOf(d), Press))
  {
    KeyBindingRoundTrip(d, KeyOf(d));
  }

  /** Mouse motion while input is not captured changes nothing. */
  lemma MouseMotionUncaptured(s: GameView, delta: Common.Vec2)
    requires !s.isCaptured
    ensures Step(s, MouseMotion(delta)) == s
  {
  }

  /** Mouse motion while input is captured turns the camera by Sensitivity
      per unit, against the motion, with no clamping or wrap-around, and
      changes nothing else. */
  lemma MouseMotionCaptured(s: GameView, delta: Common.Vec2)
    requires s.isCaptured
    ensures var t := Step(s, MouseMotion(delta));
      && t.camera.yaw == s.camera.yaw - 0.01 * delta.x
      && t.camera.pitch == s.camera.pitch - 0.01 * delta.y
      && t.camera.pos == s.camera.pos
      && t.isCaptured
      && (forall d :: t.Intent(d) == s.Intent(d))
  {
  }

  /** While input is captured, moving the mouse back by the same amount
      undoes the turn. */
  lemma {:induction false} MouseMotionUndone(s: GameView, delta: Common.Vec2)
    requires s.isCaptured
    ensures Step(Step(s, MouseMotion(delta)), MouseMotion(Common.Vec2(-delta.x, -delta.y))) == s
  {
  }

  /** A capture event records its value and changes nothing else; repeating
      it changes nothing more. */
  lemma InputCapturedSets(s: GameView, captured: bool)
    ensures var t := Step(s, InputCaptured(captured));
      && t.isCaptured == captured
      && t.camera == s.camera
      && (forall d :: t.Intent(d) == s.Intent(d))
    ensures Step(Step(s, InputCaptured(captured)), InputCaptured(captured)) == Step(s, InputCaptured(captured))
  {
  }

  // Properties of the movement step

  /** A frame moves the camera and nothing else: intents, capture and
      orientation are kept. */
  lemma FrameKeepsAllButPosition(s: GameView, forward: Vec3, right: Vec3, normalize: Vec3 -> Vec3, dt: real)
    ensures var t := FrameStep(s, forward, right, normalize, dt);
      && (forall d :: t.Intent(d) == s.Intent(d))
      && t.isCaptured == s.isCaptured
      && t.camera.yaw == s.camera.yaw
      && t.camera.pitch == s.camera.pitch
  {
  }

  /** With no intent held the camera stays where it is. */
  lemma IdleFrameStaysPut(s: GameView, forward: Vec3, right: Vec3, normalize: Vec3 -> Vec3, dt: real)
    requires forall d :: !s.Intent(d)
    ensures FrameStep(s, forward, right, normalize, dt) == s
  {
    assert !s.Intent(Forward) && !s.Intent(Back) && !s.Intent(Left) && !s.Intent(Right);
    assert !s.Intent(Up) && !s.Intent(Down);
  }

  /** When every held intent is paired with its opposite, the contributions
      cancel and the camera stays where it is. */
  lemma OpposedIntentsStayPut(s: GameView, forward: Vec3, right: Vec3, normalize: Vec3 -> Vec3, dt: real)
    requires s.moveF == s.moveB && s.moveL == s.moveR && s.moveU == s.moveD
    ensures FrameStep(s, forward, right, normalize, dt) == s
  {
  }

  /** When the summed movement is not zero, the camera moves by its
      normalised direction times MoveSpeed * dt. */
  lemma MovingFrame(s: GameView, forward: Vec3, right: Vec3, normalize: Vec3 -> Vec3, dt: real)
    requires MoveVector(s, forward, right) != Zero
    ensures FrameStep(s, forward, right, normalize, dt).camera.pos
         == Add(s.camera.pos, Vec3Scale(normalize(MoveVector(s, forward, right)), 3.0 * dt))
  {
  }

  /** Holding forward alone moves the camera along normalize(forward) at
      MoveSpeed, unless forward is zero. */
  lemma {:induction false} ForwardOnly(s: GameView, forward: Vec3, right: Vec3, normalize: Vec3 -> Vec3, dt: real)
    requires s.moveF && !s.moveB && !s.moveL && !s.moveR && !s.moveU && !s.moveD
    requires forward != Zero
    ensures FrameStep(s, forward, right, normalize, dt).camera.pos
         == Add(s.camera.pos, Vec3Scale(normalize(forward), MoveSpeed * dt))
  {
    var move := MoveVector(s, forward, right);
    assert move.x == forward.x && move.y == forward.y && move.z == forward.z;
    assert move == forward;
  }

  /** Exchanging the two intents of a pair reverses its contribution. */
  lemma AxisMirrored(v: Vec3, plus: bool, minus: bool)
    ensures Axis(v, minus, plus) == Neg(Axis(v, plus, minus))
  {
  }

  lemma NegAdd(a: Vec3, b: Vec3)
    ensures Neg(Add(a, b)) == Add(Neg(a), Neg(b))
  {
  }

  /** Exchanging every intent for its opposite reverses the summed
      movement. */
  lemma {:induction false} MirroredIntentsReverse(s: GameView, forward: Vec3, right: Vec3)
    ensures MoveVector(s.Mirrored(), forward, right) == Neg(MoveVector(s, forward, right))
  {
    AxisMirrored(forward, s.moveF, s.moveB);
    AxisMirrored(right, s.moveR, s.moveL);
    AxisMirrored(WorldUp, s.moveU, s.moveD);
    NegAdd(Add(Axis(forward, s.moveF, s.moveB), Axis(right, s.moveR, s.moveL)), Axis(WorldUp, s.moveU, s.moveD));
    NegAdd(Axis(forward, s.moveF, s.moveB), Axis(right, s.moveR, s.moveL));
  }

  /** on_init puts the camera at (0, 0, -5) facing yaw 1.5 PI, and keeps its
      pitch, the intents and the capture flag. */
  lemma InitPose(s: GameView)
    ensures var t := InitStep(s);
      && t.camera.pos == Vec3(0.0, 0.0, -5.0)
      && t.camera.yaw == 1.5 * 3.1415926535
      && t.camera.pitch == s.camera.pitch
      && t.isCaptured == s.isCaptured
      && (forall d :: t.Intent(d) == s.Intent(d))
  {
  }
}
