/** The movement block of the frame callback `animarEscena`: direction keys
    become a camera-relative displacement, the model turns toward it, and the
    position moves only when the collision test lets it. */
module Motion {
  import opened Geometry
  import opened Keyboard
  import opened Collision

  /** `velocidadMovimiento`: distance units per second. */
  const Speed: real := 250.0

  /** `distanciaMovimiento`: how far one frame of `delta` seconds may move. */
  function Distance(delta: real): real {
    Speed * delta
  }

  /** One axis of the displacement: the key tested later in the frame wins. */
  function Axis(negative: bool, positive: bool, d: real): real {
    if positive then d else if negative then -d else 0.0
  }

  /** The camera-local displacement (`moverX`, 0, `moverZ`): w/s drive z,
      a/d drive x, and the result is not normalised. */
  function Displacement(keys: KeyMap, d: real): Vec3 {
    Vec3(Axis(Pressed(keys, "a"), Pressed(keys, "d"), d), 0.0,
         Axis(Pressed(keys, "w"), Pressed(keys, "s"), d))
  }

  /** The frame moves at all (`moverX !== 0 || moverZ !== 0`). */
  predicate Moving(keys: KeyMap, d: real) {
    Displacement(keys, d) != Zero
  }

  predicate AnyDirectionKey(keys: KeyMap) {
    Pressed(keys, "w") || Pressed(keys, "s") || Pressed(keys, "a") || Pressed(keys, "d")
  }

  /** Reads the four direction keys in the order the frame callback tests
      them, each later key overwriting its axis. */
  method ReadDirectionKeys(keys: KeyMap, d: real) returns (moveX: real, moveZ: real)
    ensures Vec3(moveX, 0.0, moveZ) == Displacement(keys, d)
    ensures moveX != 0.0 || moveZ != 0.0 <==> Moving(keys, d)
  {
    moveX, moveZ := 0.0, 0.0;
    if Pressed(keys, "w") {
      moveZ := -d;
    }
    if Pressed(keys, "s") {
      moveZ := d;
    }
    if Pressed(keys, "a") {
      moveX := -d;
    }
    if Pressed(keys, "d") {
      moveX := d;
    }
  }

  /** Each axis is decided by its own two keys alone; when both are held the
      later one (s, d) wins. */
  lemma AxesIndependent(keys: KeyMap, other: KeyMap, d: real)
    ensures Pressed(keys, "a") == Pressed(other, "a") && Pressed(keys, "d") == Pressed(other, "d")
            ==> Displacement(keys, d).x == Displacement(other, d).x
    ensures Pressed(keys, "w") == Pressed(other, "w") && Pressed(keys, "s") == Pressed(other, "s")
            ==> Displacement(keys, d).z == Displacement(other, d).z
    ensures Pressed(keys, "s") ==> Displacement(keys, d).z == d
    ensures Pressed(keys, "w") && !Pressed(keys, "s") ==> Displacement(keys, d).z == -d
    ensures Pressed(keys, "d") ==> Displacement(keys, d).x == d
    ensures Pressed(keys, "a") && !Pressed(keys, "d") ==> Displacement(keys, d).x == -d
    ensures Displacement(keys, d).y == 0.0
  {
  }

  /** The frame moves exactly when some direction key is held and the frame
      distance is not zero. */
  lemma MovingIff(keys: KeyMap, d: real)
    ensures Moving(keys, d) <==> AnyDirectionKey(keys) && d != 0.0
  {
  }

  function Abs(r: real): real {
    if r < 0.0 then -r else r
  }

  /** Diagonal movement is not normalised: with a key held on each axis both
      components have the full frame distance as magnitude, so the squared
      length is twice that of a single-axis step; with keys on one axis only,
      the other component is zero and the step has the frame distance as
      length. */
  lemma DiagonalNotNormalised(keys: KeyMap, d: real)
    ensures (Pressed(keys, "w") || Pressed(keys, "s")) && (Pressed(keys, "a") || Pressed(keys, "d"))
            ==> Abs(Displacement(keys, d).x) == Abs(d) && Abs(Displacement(keys, d).z) == Abs(d)
    ensures (Pressed(keys, "w") || Pressed(keys, "s")) && !Pressed(keys, "a") && !Pressed(keys, "d")
            ==> Displacement(keys, d).x == 0.0 && Abs(Displacement(keys, d).z) == Abs(d)
    ensures (Pressed(keys, "a") || Pressed(keys, "d")) && !Pressed(keys, "w") && !Pressed(keys, "s")
            ==> Displacement(keys, d).z == 0.0 && Abs(Displacement(keys, d).x) == Abs(d)
  {
  }

  /** The diagonal step is strictly longer than a single-axis step of the same
      frame: its squared length is 2·d², against d². */
  lemma DiagonalLonger(keys: KeyMap, d: real)
    requires d != 0.0
    requires Pressed(keys, "w") || Pressed(keys, "s")
    requires Pressed(keys, "a") || Pressed(keys, "d")
    ensures var v := Displacement(keys, d); v.x * v.x + v.z * v.z == 2.0 * d * d > d * d
  {
    var v := Displacement(keys, d);
    assert v.x == d || v.x == -d;
    assert v.z == d || v.z == -d;
    assert v.x * v.x == d * d;
    assert v.z * v.z == d * d;
  }

  /** The examples: w alone moves forward by `Speed * delta`; w with a moves
      forward and left by that much on each axis; q held with no direction key
      does not move. */
  lemma Scenarios(delta: real)
    ensures Displacement(map["w" := true], Distance(delta)) == Vec3(0.0, 0.0, -Speed * delta)
    ensures Displacement(map["w" := true, "a" := true], Distance(delta))
            == Vec3(-Speed * delta, 0.0, -Speed * delta)
    ensures !Moving(map["q" := true], Distance(delta))
  {
  }

  /** The world-space step: the local displacement turned by the camera's
      orientation (`toWorld`), with its vertical component dropped. */
  function Direction(keys: KeyMap, d: real, toWorld: Vec3 -> Vec3): (r: Vec3)
    ensures r.y == 0.0
  {
    var w := toWorld(Displacement(keys, d));
    Vec3(w.x, 0.0, w.z)
  }

  /** The model's pose: where it stands and the direction it was last turned
      toward (`lookAt(position + heading)`). */
  datatype Pose = Pose(position: Vec3, heading: Vec3)

  /** The pose after one frame's movement block. `modelBox` is the model's
      bounding box as the scene graph reports it after the model has turned
      toward the step; `obstacles` are the
      obstacles' boxes. */
  function Advance(p: Pose, keys: KeyMap, d: real, toWorld: Vec3 -> Vec3,
                   modelBox: Box, obstacles: seq<Box>): Pose
  {
    if !Moving(keys, d) then p
    else
      var dir := Direction(keys, d, toWorld);
      var blocked := Blocked(Translate(modelBox, Sub(Add(p.position, dir), p.position)), obstacles);
      Pose(if blocked then p.position else Add(p.position, dir), dir)
  }

  /** With no direction key held nothing changes, whatever the obstacles. */
  lemma IdleFrameKeepsPose(p: Pose, keys: KeyMap, d: real, toWorld: Vec3 -> Vec3,
                           modelBox: Box, obstacles: seq<Box>)
    requires !AnyDirectionKey(keys)
    ensures Advance(p, keys, d, toWorld, modelBox, obstacles) == p
  {
  }

  /** A moving frame always turns the model toward its step, and commits the
      step exactly when the model's box moved by that step meets no obstacle. */
  lemma MovingFrame(p: Pose, keys: KeyMap, d: real, toWorld: Vec3 -> Vec3,
                                       modelBox: Box, obstacles: seq<Box>)
    requires Moving(keys, d)
    ensures var r := Advance(p, keys, d, toWorld, modelBox, obstacles);
            var dir := Direction(keys, d, toWorld);
            && r.heading == dir
            && (r.position == Add(p.position, dir) <==>
                !(exists i :: 0 <= i < |obstacles| && Intersects(Translate(modelBox, dir), obstacles[i]))
                || dir == Zero)
            && (r.position == p.position || r.position == Add(p.position, dir))
  {
    var dir := Direction(keys, d, toWorld);
    SubAddCancels(p.position, dir);
    BlockedIffSome(Translate(modelBox, dir), obstacles);
  }
}
