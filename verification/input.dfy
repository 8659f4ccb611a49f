/** The turret and chassis controls: the four global scalars `key_callback`
    updates and the yaw check at the start of every frame.

    Yaw (`AngTorreX`) and pitch (`AngTorreY`) start at 0 and only ever move
    by whole degrees, so they are kept as integers. The chassis position
    (`PosX`, `PosZ`) moves by `0.1` per event and is kept as an integer count
    of tenths.
 */
module TankInput {

  /** The keys the callback reacts to; every other key is `OtherKey`. */
  datatype Key = KeyA | KeyD | KeyW | KeyS | KeyUp | KeyDown | KeyLeft | KeyRight | OtherKey

  /** The key action GLFW reports. */
  datatype Action = Release | Press | Repeat

  /** The four scalars: turret yaw and pitch in degrees, chassis position in
      tenths of a unit. */
  datatype Tank = Tank(yaw: int, pitch: int, x: int, z: int)

  /** All four globals start at zero. */
  const Init := Tank(0, 0, 0, 0)

  /** The pitch range the callback keeps: W lowers the turret while it is
      above -90 degrees, S raises it while it is below 0. */
  const PitchFloor := -90
  const PitchCeiling := 0

  /** The callback only reacts to a press or an auto-repeat. */
  predicate Acts(action: Action)
  {
    action == Press || action == Repeat
  }

  predicate PitchInRange(s: Tank)
  {
    PitchFloor <= s.pitch <= PitchCeiling
  }

  /** `key_callback(window, key, scancode, action, mods)`: a press or repeat
      of D or A turns the turret by one degree, of W or S tilts it by one
      degree within the pitch range, of the arrow keys moves the chassis by
      one tenth. A release, or any other key, changes nothing. Each key moves
      only its own scalar and by at most one step; the pitch range is kept. */
  function KeyCallback(s: Tank, key: Key, action: Action): (r: Tank)
    ensures !Acts(action) ==> r == s
    ensures key != KeyA && key != KeyD ==> r.yaw == s.yaw
    ensures key != KeyW && key != KeyS ==> r.pitch == s.pitch
    ensures key != KeyLeft && key != KeyRight ==> r.x == s.x
    ensures key != KeyUp && key != KeyDown ==> r.z == s.z
    ensures -1 <= r.yaw - s.yaw <= 1 && -1 <= r.pitch - s.pitch <= 1
    ensures -1 <= r.x - s.x <= 1 && -1 <= r.z - s.z <= 1
    ensures PitchInRange(s) ==> PitchInRange(r)
  {
    if !Acts(action) then s
    else
      match key
      case KeyD => s.(yaw := s.yaw - 1)
      case KeyA => s.(yaw := s.yaw + 1)
      case KeyW => if s.pitch > PitchFloor then s.(pitch := s.pitch - 1) else s
      case KeyS => if s.pitch < PitchCeiling then s.(pitch := s.pitch + 1) else s
      case KeyUp => s.(z := s.z + 1)
      case KeyDown => s.(z := s.z - 1)
      case KeyLeft => s.(x := s.x + 1)
      case KeyRight => s.(x := s.x - 1)
      case OtherKey => s
  }

  /** The direction a press of each key moves its scalar. */
  function Step(key: Key): int
  {
    match key
    case KeyA | KeyUp | KeyLeft | KeyS => 1
    case KeyD | KeyDown | KeyRight | KeyW => -1
    case OtherKey => 0
  }

  /** A press or repeat moves the key's scalar by exactly its step and
      leaves the other three alone: yaw and position always; pitch, from
      inside its range, exactly when the move stays inside it, and not at all
      otherwise. */
  lemma {:induction false} KeyMovesByItsStep(s: Tank, key: Key, action: Action)
    requires Acts(action)
    ensures var r := KeyCallback(s, key, action);
      && ((key == KeyA || key == KeyD) ==> r == s.(yaw := s.yaw + Step(key)))
      && ((key == KeyUp || key == KeyDown) ==> r == s.(z := s.z + Step(key)))
      && ((key == KeyLeft || key == KeyRight) ==> r == s.(x := s.x + Step(key)))
      && ((key == KeyW || key == KeyS) && PitchInRange(s) ==>
            if PitchFloor <= s.pitch + Step(key) <= PitchCeiling
            then r == s.(pitch := s.pitch + Step(key)) else r == s)
      && (key == OtherKey ==> r == s)
  {
  }

  /** The mirrored keys undo each other: A after D (and D after A), Up after
      Down, Left after Right and the other way round restore every scalar;
      so do S after W and W after S while the first move stays inside the
      pitch range. */
  lemma {:induction false} MirroredKeysCancel(s: Tank, a1: Action, a2: Action)
    requires Acts(a1) && Acts(a2)
    ensures KeyCallback(KeyCallback(s, KeyA, a1), KeyD, a2) == s
    ensures KeyCallback(KeyCallback(s, KeyD, a1), KeyA, a2) == s
    ensures KeyCallback(KeyCallback(s, KeyUp, a1), KeyDown, a2) == s
    ensures KeyCallback(KeyCallback(s, KeyDown, a1), KeyUp, a2) == s
    ensures KeyCallback(KeyCallback(s, KeyLeft, a1), KeyRight, a2) == s
    ensures KeyCallback(KeyCallback(s, KeyRight, a1), KeyLeft, a2) == s
    ensures PitchFloor < s.pitch <= PitchCeiling ==> KeyCallback(KeyCallback(s, KeyW, a1), KeyS, a2) == s
    ensures PitchFloor <= s.pitch < PitchCeiling ==> KeyCallback(KeyCallback(s, KeyS, a1), KeyW, a2) == s
  {
  }

  /** The check at the start of every frame: a yaw of exactly 180 or -180 is
      negated, any other yaw is kept. It never changes the magnitude, and it
      changes the value exactly at the two boundary angles. */
  function Wrap(yaw: int): (w: int)
    ensures w == yaw <==> yaw != 180 && yaw != -180
    ensures w == yaw || w == -yaw
  {
    if yaw == 180 || yaw == -180 then -yaw else yaw
  }

  /** Applying the check twice gives back the original yaw. */
  lemma {:induction false} WrapInvolution(yaw: int)
    ensures Wrap(Wrap(yaw)) == yaw
  {
    if yaw == 180 || yaw == -180 {
      assert Wrap(yaw) == -yaw;
    }
  }

  /** The check moves the yaw by a whole turn or not at all, so the
      orientation the turret is drawn at is unchanged. */
  lemma {:induction false} WrapKeepsOrientation(yaw: int)
    ensures Wrap(yaw) - yaw == 0 || Wrap(yaw) - yaw == 360 || Wrap(yaw) - yaw == -360
    ensures Wrap(yaw) % 360 == yaw % 360
  {
    if yaw == 180 {
      assert Wrap(yaw) == yaw - 360;
    } else if yaw == -180 {
      assert Wrap(yaw) == yaw + 360;
    }
  }

  /** What the program sees over time: key callbacks, and the starts of
      frames, where the yaw check runs. */
  datatype Event = KeyEvent(key: Key, action: Action) | FrameStart

  /** The effect of one event: a key event moves the chassis by at most one
      tenth on each axis, a frame start touches only the yaw, and neither
      leaves the pitch range. */
  function Apply(s: Tank, e: Event): (r: Tank)
    ensures -1 <= r.x - s.x <= 1 && -1 <= r.z - s.z <= 1
    ensures e.FrameStart? ==> r.(yaw := s.yaw) == s
    ensures PitchInRange(s) ==> PitchInRange(r)
  {
    match e
    case KeyEvent(key, action) => KeyCallback(s, key, action)
    case FrameStart => s.(yaw := Wrap(s.yaw))
  }

  /** The state after a sequence of events, in order; the chassis ends up at
      most one tenth per event away from where it started on each axis. */
  function Run(s: Tank, evs: seq<Event>): (r: Tank)
    ensures -|evs| <= r.x - s.x <= |evs| && -|evs| <= r.z - s.z <= |evs|
    decreases |evs|
  {
    if |evs| == 0 then s else Run(Apply(s, evs[0]), evs[1..])
  }

  /** Number of presses and repeats of `key` among the events. */
  function Presses(evs: seq<Event>, key: Key): (n: nat)
    ensures n <= |evs|
  {
    if |evs| == 0 then 0
    else
      var here := if evs[0].KeyEvent? && evs[0].key == key && Acts(evs[0].action) then 1 else 0;
      here + Presses(evs[1..], key)
  }

  /** Number of frame starts among the events. */
  function Frames(evs: seq<Event>): (n: nat)
    ensures n <= |evs|
  {
    if |evs| == 0 then 0 else (if evs[0].FrameStart? then 1 else 0) + Frames(evs[1..])
  }

  /** Whatever the events, a pitch inside [-90, 0] stays inside it. */
  lemma {:induction false} PitchStaysInRange(s: Tank, evs: seq<Event>)
    requires PitchInRange(s)
    ensures PitchInRange(Run(s, evs))
    decreases |evs|
  {
    if |evs| > 0 {
      PitchStaysInRange(Apply(s, evs[0]), evs[1..]);
    }
  }

  /** From the initial state the pitch lies in [-90, 0] after any events. */
  lemma {:induction false} PitchInRangeFromStart(evs: seq<Event>)
    ensures PitchFloor <= Run(Init, evs).pitch <= PitchCeiling
  {
    PitchStaysInRange(Init, evs);
  }

  /** The chassis position is the number of forward presses minus backward
      presses (Up/Down for `PosZ`, Left/Right for `PosX`), in tenths. */
  lemma {:induction false} PositionCountsPresses(s: Tank, evs: seq<Event>)
    ensures Run(s, evs).z == s.z + Presses(evs, KeyUp) - Presses(evs, KeyDown)
    ensures Run(s, evs).x == s.x + Presses(evs, KeyLeft) - Presses(evs, KeyRight)
    decreases |evs|
  {
    if |evs| > 0 {
      PositionCountsPresses(Apply(s, evs[0]), evs[1..]);
    }
  }

  /** Between two frame starts the yaw is the A presses minus the D
      presses: with no frame start among the events nothing wraps. */
  lemma {:induction false} YawCountsPressesBetweenFrames(s: Tank, evs: seq<Event>)
    requires Frames(evs) == 0
    ensures Run(s, evs).yaw == s.yaw + Presses(evs, KeyA) - Presses(evs, KeyD)
    decreases |evs|
  {
    if |evs| > 0 {
      YawCountsPressesBetweenFrames(Apply(s, evs[0]), evs[1..]);
    }
  }

  /** Across any events the yaw agrees with A presses minus D presses up to
      whole turns: the frame check only ever adds or removes 360 degrees. */
  lemma {:induction false} YawCountsPressesModuloTurns(s: Tank, evs: seq<Event>)
    ensures (Run(s, evs).yaw - s.yaw - Presses(evs, KeyA) + Presses(evs, KeyD)) % 360 == 0
    decreases |evs|
  {
    if |evs| > 0 {
      var next := Apply(s, evs[0]);
      YawCountsPressesModuloTurns(next, evs[1..]);
      if evs[0].FrameStart? {
        WrapKeepsOrientation(s.yaw);
      }
    }
  }

  /** The frame check only fires on exact equality, so two key events
      between frames carry the yaw from 179 past 180 to 181, where no check
      ever brings it back. */
  lemma YawCanStepOverTheCheck()
    ensures Run(Tank(179, 0, 0, 0), [KeyEvent(KeyA, Press), KeyEvent(KeyA, Repeat), FrameStart]).yaw == 181
  {
    var s1 := Apply(Tank(179, 0, 0, 0), KeyEvent(KeyA, Press));
    var s2 := Apply(s1, KeyEvent(KeyA, Repeat));
    var s3 := Apply(s2, FrameStart);
    assert s3.yaw == 181;
    assert Run(s3, []) == s3;
  }

  /** `k` frame starts with no key event in between. */
  function IdleFrames(k: nat): (evs: seq<Event>)
    ensures |evs| == k && Frames(evs) == k
  {
    if k == 0 then [] else [FrameStart] + IdleFrames(k - 1)
  }

  /** A yaw that rests at exactly 180 or -180 flips sign on every frame: after
      `k` idle frames it is back where it started exactly when `k` is even. */
  lemma {:induction false} BoundaryYawAlternates(s: Tank, k: nat)
    requires s.yaw == 180 || s.yaw == -180
    ensures Run(s, IdleFrames(k)).yaw == (if k % 2 == 0 then s.yaw else -s.yaw)
    ensures Run(s, IdleFrames(k)).yaw == 180 || Run(s, IdleFrames(k)).yaw == -180
    decreases k
  {
    if k > 0 {
      var evs := IdleFrames(k);
      assert evs[0] == FrameStart && evs[1..] == IdleFrames(k - 1);
      BoundaryYawAlternates(Apply(s, FrameStart), k - 1);
    }
  }
}
