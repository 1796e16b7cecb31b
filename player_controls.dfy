/** The player controller: which of the w/a/s/d keys are held, the run toggle, the
    animation currently playing, and the positions of the model and of the camera that
    follows it. The animation mixer and the animation actions are outside the model;
    what the controller asks of them is recorded as a log of `Effect`s. */
module PlayerControls {
  import opened Geometry
  import opened JsOps

  /** Seconds an animation takes to fade in or out. */
  const FADE_DURATION: real := 0.2
  /** Units per second the model moves while running. */
  const VELOCITY: real := 5.0
  /** The movement keys, in the order `update` tests them. */
  const DIRECTIONS: seq<string> := ["w", "a", "s", "d"]

  const RUN: string := "Run"
  const IDLE: string := "Idle"

  /** A request made to an animation action or to the mixer. */
  datatype Effect =
    | Play(action: string)
    | Reset(action: string)
    | FadeIn(action: string, duration: real)
    | FadeOut(action: string, duration: real)
    | MixerUpdate(delta: real)

  /** `keyPressed.get(k)` as a condition: a key never seen reads `undefined`, which is
      falsy, so it counts as released. */
  predicate Pressed(keyPressed: map<string, bool>, k: string)
  {
    k in keyPressed && keyPressed[k]
  }

  /** `keys.some((key) => keyPressed.get(key))`, scanning from the front. */
  function AnyPressed(keyPressed: map<string, bool>, keys: seq<string>): (r: bool)
    ensures r <==> exists m :: 0 <= m < |keys| && Pressed(keyPressed, keys[m])
  {
    if keys == [] then false
    else Pressed(keyPressed, keys[0]) || AnyPressed(keyPressed, keys[1..])
  }

  /** Where the held keys ask the player to go, relative to the way the camera looks:
      `forward` is +1 (w), -1 (s) or 0, `left` is +1 (a), -1 (d) or 0. Of two opposite
      keys, w wins over s and a over d. */
  datatype Intent = Intent(forward: int, left: int)

  const AHEAD: Intent := Intent(1, 0)
  const STILL: Intent := Intent(0, 0)

  function IntentOf(keyPressed: map<string, bool>): (r: Intent)
    ensures -1 <= r.forward <= 1 && -1 <= r.left <= 1
    ensures r.forward == 1 <==> Pressed(keyPressed, "w")
    ensures r.forward == -1 <==> !Pressed(keyPressed, "w") && Pressed(keyPressed, "s")
    ensures r.left == 1 <==> Pressed(keyPressed, "a")
    ensures r.left == -1 <==> !Pressed(keyPressed, "a") && Pressed(keyPressed, "d")
  {
    Intent(if Pressed(keyPressed, "w") then 1 else if Pressed(keyPressed, "s") then -1 else 0,
           if Pressed(keyPressed, "a") then 1 else if Pressed(keyPressed, "d") then -1 else 0)
  }

  function Sign(x: int): int
  {
    if x > 0 then 1 else if x < 0 then -1 else 0
  }

  /** A turn by 45 degrees to the left on the eight compass neighbours of the origin. */
  function TurnLeft(v: Intent): Intent
  {
    Intent(Sign(v.forward - v.left), Sign(v.forward + v.left))
  }

  /** A turn by 45 degrees to the right; the inverse of `TurnLeft`. */
  function TurnRight(v: Intent): Intent
  {
    Intent(Sign(v.forward + v.left), Sign(v.left - v.forward))
  }

  /** `k` turns of 45 degrees, to the left when `k` is positive, to the right when it
      is negative. */
  function Turn(v: Intent, k: int): Intent
    decreases if k < 0 then -k else k
  {
    if k == 0 then v
    else if k > 0 then Turn(TurnLeft(v), k - 1)
    else Turn(TurnRight(v), k + 1)
  }

  /** `calculateDirectionOffset`, in units of pi/4: how far to turn from the camera's
      heading. Stated against the intent of the keys: with no direction the offset is 0,
      and otherwise turning straight ahead by the offset faces exactly where the keys
      point; the offset always lies in -3 .. 4, so it is the only such turn. */
  function DirectionOffset(keyPressed: map<string, bool>): (r: int)
    ensures -3 <= r <= 4
    ensures IntentOf(keyPressed) == STILL ==> r == 0
    ensures IntentOf(keyPressed) != STILL ==> Turn(AHEAD, r) == IntentOf(keyPressed)
  {
    if Pressed(keyPressed, "w") then
      if Pressed(keyPressed, "a") then 1
      else if Pressed(keyPressed, "d") then -1
      else 0
    else if Pressed(keyPressed, "s") then
      if Pressed(keyPressed, "a") then 3
      else if Pressed(keyPressed, "d") then -3
      else 4
    else if Pressed(keyPressed, "a") then 2
    else if Pressed(keyPressed, "d") then -2
    else 0
  }

  /** The eight turns -3 .. 4 from straight ahead face eight different ways, so the
      contract of `DirectionOffset` leaves only one possible offset. */
  lemma TurnsDistinct(k1: int, k2: int)
    requires -3 <= k1 <= 4 && -3 <= k2 <= 4
    requires Turn(AHEAD, k1) == Turn(AHEAD, k2)
    ensures k1 == k2
  {
    TurnTable();
  }

  /** The eight headings reached from straight ahead. */
  lemma TurnTable()
    ensures Turn(AHEAD, -3) == Intent(-1, -1) && Turn(AHEAD, -2) == Intent(0, -1)
    ensures Turn(AHEAD, -1) == Intent(1, -1) && Turn(AHEAD, 0) == Intent(1, 0)
    ensures Turn(AHEAD, 1) == Intent(1, 1) && Turn(AHEAD, 2) == Intent(0, 1)
    ensures Turn(AHEAD, 3) == Intent(-1, 1) && Turn(AHEAD, 4) == Intent(-1, 0)
  {
  }

  /** A held w makes s irrelevant, and a held a makes d irrelevant: whatever s (resp. d)
      reads, the offset is the same. */
  lemma DirectionPrecedence(keyPressed: map<string, bool>, state: bool)
    ensures Pressed(keyPressed, "w") ==> DirectionOffset(keyPressed["s" := state]) == DirectionOffset(keyPressed)
    ensures Pressed(keyPressed, "a") ==> DirectionOffset(keyPressed["d" := state]) == DirectionOffset(keyPressed)
  {
  }

  /** `update` runs exactly when the keys ask for a direction, which is exactly when the
      direction offset is taken from a real intent. */
  lemma RunIffIntent(keyPressed: map<string, bool>)
    ensures AnyPressed(keyPressed, DIRECTIONS) <==> IntentOf(keyPressed) != STILL
  {
    if IntentOf(keyPressed) != STILL {
      if Pressed(keyPressed, "w") {
        assert Pressed(keyPressed, DIRECTIONS[0]);
      } else if Pressed(keyPressed, "s") {
        assert Pressed(keyPressed, DIRECTIONS[2]);
      } else if Pressed(keyPressed, "a") {
        assert Pressed(keyPressed, DIRECTIONS[1]);
      } else {
        assert Pressed(keyPressed, DIRECTIONS[3]);
      }
    }
  }

  /** The displacement `move` applies to the model and the camera alike: the walk
      direction scaled by the velocity and the frame time, in the ground plane. */
  function Step(walkDirection: Vec3, delta: real): (r: Vec3)
    ensures r.y == 0.0
    ensures walkDirection.x == 0.0 && walkDirection.z == 0.0 ==> r == ORIGIN
  {
    Vec3(walkDirection.x * VELOCITY * delta, 0.0, walkDirection.z * VELOCITY * delta)
  }

  /** The animation `update` wants: "Run" while a direction key is held, else "Idle". */
  function WantedAction(keyPressed: map<string, bool>): (r: string)
    ensures r == RUN || r == IDLE
    ensures r == RUN <==> exists m :: 0 <= m < |DIRECTIONS| && Pressed(keyPressed, DIRECTIONS[m])
  {
    if AnyPressed(keyPressed, DIRECTIONS) then RUN else IDLE
  }

  class PlayerControls {
    var keyPressed: map<string, bool>
    var toggleRun: bool
    var currentAction: string
    /** The names `animationsMap` has an action for. */
    const animations: set<string>
    var modelPosition: Vec3
    var cameraPosition: Vec3
    /** Everything asked of the animation actions and the mixer so far, oldest first. */
    var effects: seq<Effect>

    /** Starts with no key seen, running toggled on, and the given action playing if
        `animationsMap` has it. */
    constructor (modelPosition: Vec3, cameraPosition: Vec3, animations: set<string>, currentAction: string)
      ensures keyPressed == map[] && toggleRun
      ensures this.animations == animations && this.currentAction == currentAction
      ensures this.modelPosition == modelPosition && this.cameraPosition == cameraPosition
      ensures effects == if currentAction in animations then [Play(currentAction)] else []
    {
      keyPressed := map[];
      toggleRun := true;
      this.animations := animations;
      this.currentAction := currentAction;
      this.modelPosition := modelPosition;
      this.cameraPosition := cameraPosition;
      effects := [];
      new;
      if currentAction in animations {
        effects := effects + [Play(currentAction)];
      }
    }

    method SwitchToggleRun()
      modifies this
      ensures toggleRun == !old(toggleRun)
      ensures keyPressed == old(keyPressed) && currentAction == old(currentAction)
      ensures modelPosition == old(modelPosition) && cameraPosition == old(cameraPosition)
      ensures effects == old(effects)
    {
      toggleRun := !toggleRun;
    }

    /** The `keydown` listener: marks the lower-cased key as held and touches no other
        key. */
    method KeyDown(key: string)
      modifies this
      ensures keyPressed == old(keyPressed)[ToLower(key) := true]
      ensures Pressed(keyPressed, ToLower(key))
      ensures forall k :: k != ToLower(key) ==> Pressed(keyPressed, k) == Pressed(old(keyPressed), k)
      ensures toggleRun == old(toggleRun) && currentAction == old(currentAction)
      ensures modelPosition == old(modelPosition) && cameraPosition == old(cameraPosition)
      ensures effects == old(effects)
    {
      keyPressed := keyPressed[ToLower(key) := true];
    }

    /** The `keyup` listener: marks the lower-cased key as released and touches no
        other key. */
    method KeyUp(key: string)
      modifies this
      ensures keyPressed == old(keyPressed)[ToLower(key) := false]
      ensures !Pressed(keyPressed, ToLower(key))
      ensures forall k :: k != ToLower(key) ==> Pressed(keyPressed, k) == Pressed(old(keyPressed), k)
      ensures toggleRun == old(toggleRun) && currentAction == old(currentAction)
      ensures modelPosition == old(modelPosition) && cameraPosition == old(cameraPosition)
      ensures effects == old(effects)
    {
      keyPressed := keyPressed[ToLower(key) := false];
    }

    /** One frame. `walkDirection` stands for the direction `updateWalkingDirection`
        computes from the camera and the direction offset. The model moves only while a
        direction key is held, and it moves even when the animation switch below gives
        up. A change of animation happens only when both the old and the new action
        exist, and then fades the old one out and the new one in; without both, the
        frame ends before the mixer is updated. */
    method Update(delta: real, walkDirection: Vec3)
      modifies this
      ensures var wanted := WantedAction(old(keyPressed));
        var moved := wanted == RUN;
        var switching := old(currentAction) != wanted;
        var stuck := switching && !(wanted in animations && old(currentAction) in animations);
        && modelPosition == (if moved then Plus(old(modelPosition), Step(walkDirection, delta)) else old(modelPosition))
        && cameraPosition == (if moved then Plus(old(cameraPosition), Step(walkDirection, delta)) else old(cameraPosition))
        && currentAction == (if switching && !stuck then wanted else old(currentAction))
        && effects == old(effects)
             + (if switching && !stuck then [FadeOut(old(currentAction), FADE_DURATION), Reset(wanted),
                                             FadeIn(wanted, FADE_DURATION), Play(wanted)] else [])
             + (if stuck then [] else [MixerUpdate(delta)])
      ensures keyPressed == old(keyPressed) && toggleRun == old(toggleRun)
      ensures old(currentAction) in animations ==> currentAction in animations
      ensures cameraPosition.x - modelPosition.x == old(cameraPosition.x - modelPosition.x)
      ensures cameraPosition.z - modelPosition.z == old(cameraPosition.z - modelPosition.z)
    {
      var directionPressed := AnyPressed(keyPressed, DIRECTIONS);
      var newAnimationAction := IDLE;
      if directionPressed {
        newAnimationAction := RUN;
        Move(delta, walkDirection);
      }
      if currentAction != newAnimationAction {
        if !(newAnimationAction in animations && currentAction in animations) {
          return;
        }
        effects := effects + [FadeOut(currentAction, FADE_DURATION)];
        effects := effects + [Reset(newAnimationAction), FadeIn(newAnimationAction, FADE_DURATION), Play(newAnimationAction)];
        currentAction := newAnimationAction;
      }
      effects := effects + [MixerUpdate(delta)];
    }

    /** Moves the model by the frame's step, then the camera by the same step. */
    method Move(delta: real, walkDirection: Vec3)
      modifies this
      ensures modelPosition == Plus(old(modelPosition), Step(walkDirection, delta))
      ensures cameraPosition == Plus(old(cameraPosition), Step(walkDirection, delta))
      ensures cameraPosition.x - modelPosition.x == old(cameraPosition.x - modelPosition.x)
      ensures cameraPosition.y == old(cameraPosition.y) && modelPosition.y == old(modelPosition.y)
      ensures cameraPosition.z - modelPosition.z == old(cameraPosition.z - modelPosition.z)
      ensures keyPressed == old(keyPressed) && toggleRun == old(toggleRun)
      ensures currentAction == old(currentAction) && effects == old(effects)
    {
      var moveX := walkDirection.x * VELOCITY * delta;
      var moveZ := walkDirection.z * VELOCITY * delta;
      modelPosition := modelPosition.(x := modelPosition.x + moveX);
      modelPosition := modelPosition.(z := modelPosition.z + moveZ);
      UpdateCameraTarget(moveX, moveZ);
    }

    /** Shifts the camera by the same amounts in x and z. */
    method UpdateCameraTarget(moveX: real, moveZ: real)
      modifies this
      ensures cameraPosition == Vec3(old(cameraPosition.x) + moveX, old(cameraPosition.y), old(cameraPosition.z) + moveZ)
      ensures modelPosition == old(modelPosition) && keyPressed == old(keyPressed) && toggleRun == old(toggleRun)
      ensures currentAction == old(currentAction) && effects == old(effects)
    {
      cameraPosition := cameraPosition.(x := cameraPosition.x + moveX);
      cameraPosition := cameraPosition.(z := cameraPosition.z + moveZ);
    }
  }
}
