/** The character controller's module-level state: the key map, the clip
    slots with the active/previous references, and the model's pose, with the
    event handlers and the per-frame movement block as methods. */
module Controller {
  import opened Wrappers
  import opened Geometry
  import opened Keyboard
  import opened Collision
  import opened Motion
  import opened Animation

  class Character {
    var keys: KeyMap
    var loaded: set<Clip>
    var active: Option<Clip>
    var previous: Option<Clip>
    var log: seq<Command>
    var position: Vec3
    var heading: Vec3
    /** The obstacle boxes, fixed once the scene is built. */
    const obstacles: seq<Box>

    function Anim(): AnimState
      reads this
    {
      AnimState(loaded, active, previous, log)
    }

    function CurrentPose(): Pose
      reads this
    {
      Pose(position, heading)
    }

    ghost predicate Valid()
      reads this
    {
      Consistent(Anim())
    }

    /** The state once the model has loaded and the handlers are installed:
        no key seen, no clip loaded, nothing active. */
    constructor (start: Vec3, facing: Vec3, obstacles: seq<Box>)
      ensures Valid()
      ensures keys == map[] && Anim() == Initial
      ensures CurrentPose() == Pose(start, facing) && this.obstacles == obstacles
    {
      keys := map[];
      loaded, active, previous, log := {}, None, None, [];
      position, heading := start, facing;
      this.obstacles := obstacles;
    }

    /** A clip file finished loading: fill its slot (and bootstrap idle). */
    method LoadClip(c: Clip)
      requires Valid() && c !in loaded
      modifies this`loaded, this`active, this`log
      ensures Valid() && Anim() == Load(old(Anim()), c)
    {
      LoadPreserves(Anim(), c);
      loaded := loaded + {c};
      if c == Idle && active.None? {
        active := Some(Idle);
        log := log + [Play(Idle)];
      }
    }

    /** `cambiarAnimacion`. */
    method ChangeAnimation(target: Option<Clip>) returns (outcome: Outcome)
      requires Valid() && (target.Some? ==> target.value in loaded)
      modifies this`active, this`previous, this`log
      ensures Valid() && Step(Anim(), outcome) == SwitchTo(old(Anim()), target)
    {
      SwitchPreserves(Anim(), target);
      outcome := Completed;
      if active != target {
        previous := active;
        active := target;
        if previous.None? {
          return TypeError;
        }
        log := log + [FadeOut(previous.value, FadeSeconds)];
        if active.None? {
          return TypeError;
        }
        log := log + [Reset(active.value), FadeIn(active.value, FadeSeconds), Play(active.value)];
      }
    }

    /** `gestionarAnimacion`. */
    method ManageAnimation() returns (outcome: Outcome)
      requires Valid()
      modifies this`active, this`previous, this`log
      ensures Valid() && Step(Anim(), outcome) == Manage(old(Anim()), keys)
    {
      var slot := Slot(Anim(), Select(keys));
      outcome := Completed;
      if active != slot {
        outcome := ChangeAnimation(slot);
      }
    }

    /** `manejarTeclaPresionada`: record the key as pressed, then re-select. */
    method KeyDown(key: string) returns (outcome: Outcome)
      requires Valid()
      modifies this`keys, this`active, this`previous, this`log
      ensures keys == Record(old(keys), key, true)
      ensures Valid() && Step(Anim(), outcome) == Manage(old(Anim()), keys)
    {
      keys := keys[LowerKey(key) := true];
      outcome := ManageAnimation();
    }

    /** `manejarTeclaSoltada`: record the key as released, then re-select. */
    method KeyUp(key: string) returns (outcome: Outcome)
      requires Valid()
      modifies this`keys, this`active, this`previous, this`log
      ensures keys == Record(old(keys), key, false)
      ensures Valid() && Step(Anim(), outcome) == Manage(old(Anim()), keys)
    {
      keys := keys[LowerKey(key) := false];
      outcome := ManageAnimation();
    }

    /** The movement block of one frame of `delta` seconds. `toWorld` turns a
        camera-local vector by the camera's orientation; `modelBox` is the
        model's bounding box as the scene graph reports it once the model has
        turned toward this frame's step. */
    method Frame(delta: real, toWorld: Vec3 -> Vec3, modelBox: Box)
      modifies this`position, this`heading
      ensures CurrentPose() == Advance(old(CurrentPose()), keys, Distance(delta), toWorld, modelBox, obstacles)
    {
      var moveX, moveZ := ReadDirectionKeys(keys, Distance(delta));
      if moveX != 0.0 || moveZ != 0.0 {
        var turned := toWorld(Vec3(moveX, 0.0, moveZ));
        var direction := Vec3(turned.x, 0.0, turned.z);
        heading := direction;
        var blocked := CheckCollision(modelBox, obstacles, Add(position, direction), position);
        if !blocked {
          position := Add(position, direction);
        }
      }
    }
  }
}
