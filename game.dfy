/** The per-frame player and audio state of the walk-through scene: the keyboard
    handlers that set and clear the movement flags and trigger a jump, and the
    frame update that damps and accelerates the velocity, applies gravity,
    keeps the player on or above the floor, and lets the nearest landmark (in
    a fixed priority order) retune the music.

    The pure functions below are the specification; class Player keeps the
    same state in mutable fields, as the scene does, and each of its methods is
    proved to move the fields exactly as the matching function says. */
module Game {
  import opened Helpers

  datatype Option<T> = None | Some(value: T)

  // ---------------------------------------------------------------------------
  // State

  /** The four movement directions the keyboard drives. */
  datatype Dir = Forward | Backward | Left | Right

  /** The movement-intent flags: one boolean per direction. */
  datatype Keys = Keys(forward: bool, backward: bool, left: bool, right: bool)

  /** The player's height, velocity and whether a jump is allowed. The
      horizontal position is moved by the pointer-lock controls and is not
      tracked here. */
  datatype Body = Body(y: real, vx: real, vy: real, vz: real, canJump: bool)

  /** One entry of a note sequence: a single pitch, or a group of pitches that
      share one step. */
  datatype SeqEvent = Note(pitch: string) | Group(pitches: seq<string>)

  /** The audio parameters the frame update writes: the sequence's playback
      rate and events, the delay's time and feedback, and the synth's
      harmonicity. */
  datatype Audio = Audio(playbackRate: real, delayTime: string, feedback: real,
                         harmonicity: real, events: seq<SeqEvent>)

  datatype State = State(keys: Keys, body: Body, audio: Audio)

  function Flag(k: Keys, d: Dir): bool
  {
    match d
    case Forward => k.forward
    case Backward => k.backward
    case Left => k.left
    case Right => k.right
  }

  /** The flags with the one for `d` set to `b`. */
  function SetFlag(k: Keys, d: Dir, b: bool): (r: Keys)
    ensures Flag(r, d) == b
    ensures forall e :: e != d ==> Flag(r, e) == Flag(k, e)
  {
    match d
    case Forward => k.(forward := b)
    case Backward => k.(backward := b)
    case Left => k.(left := b)
    case Right => k.(right := b)
  }

  // ---------------------------------------------------------------------------
  // Keyboard

  const JumpImpulse: real := 350.0

  /** The direction a key code drives, if any. */
  function DirOf(code: string): Option<Dir>
  {
    if code == "ArrowUp" || code == "KeyW" then Some(Forward)
    else if code == "ArrowLeft" || code == "KeyA" then Some(Left)
    else if code == "ArrowDown" || code == "KeyS" then Some(Backward)
    else if code == "ArrowRight" || code == "KeyD" then Some(Right)
    else None
  }

  /** onKeyDown: a movement key raises its flag; Space adds the jump impulse
      when a jump is allowed and then forbids the next one; any other key does
      nothing. */
  function OnKeyDown(s: State, code: string): State
  {
    match DirOf(code)
    case Some(d) => s.(keys := SetFlag(s.keys, d, true))
    case None =>
      if code == "Space" then
        var vy := if s.body.canJump then s.body.vy + JumpImpulse else s.body.vy;
        s.(body := s.body.(vy := vy, canJump := false))
      else s
  }

  /** onKeyUp: a movement key lowers its flag; any other key does nothing. */
  function OnKeyUp(s: State, code: string): State
  {
    match DirOf(code)
    case Some(d) => s.(keys := SetFlag(s.keys, d, false))
    case None => s
  }

  /** A key press raises exactly the flag its code maps to and touches no
      other flag, nor the audio; only Space touches the body. */
  lemma KeyDownSetsOnlyItsFlag(s: State, code: string)
    ensures forall d :: Flag(OnKeyDown(s, code).keys, d) == (DirOf(code) == Some(d) || Flag(s.keys, d))
    ensures OnKeyDown(s, code).audio == s.audio
    ensures code != "Space" ==> OnKeyDown(s, code).body == s.body
    ensures DirOf(code) == None && code != "Space" ==> OnKeyDown(s, code) == s
  {
  }

  /** A key release lowers exactly the flag its code maps to; Space and
      unmapped codes change nothing. */
  lemma KeyUpClearsOnlyItsFlag(s: State, code: string)
    ensures forall d :: Flag(OnKeyUp(s, code).keys, d) == (DirOf(code) != Some(d) && Flag(s.keys, d))
    ensures OnKeyUp(s, code).body == s.body && OnKeyUp(s, code).audio == s.audio
    ensures DirOf(code) == None ==> OnKeyUp(s, code) == s
  {
  }

  /** Space adds exactly the jump impulse when a jump is allowed, nothing
      otherwise, and always leaves jumping forbidden; height, horizontal
      velocity, flags and audio stay as they were. */
  lemma Jump(s: State)
    ensures OnKeyDown(s, "Space").body
            == s.body.(vy := s.body.vy + (if s.body.canJump then JumpImpulse else 0.0), canJump := false)
    ensures OnKeyDown(s, "Space").keys == s.keys
    ensures OnKeyDown(s, "Space").audio == s.audio
  {
  }

  /** Pressing a key again (the browser's key repeat) changes nothing more:
      in particular a second Space before landing adds no impulse. */
  lemma KeyDownIdempotent(s: State, code: string)
    ensures OnKeyDown(OnKeyDown(s, code), code) == OnKeyDown(s, code)
  {
  }

  /** Releasing a key after pressing it leaves the flags as releasing it alone. */
  lemma PressThenRelease(s: State, code: string)
    ensures OnKeyUp(OnKeyDown(s, code), code).keys == OnKeyUp(s, code).keys
  {
  }

  // ---------------------------------------------------------------------------
  // Movement

  const SpeedMul: real := 0.5
  const Gravity: real := 9.8 * 100.0
  const Acceleration: real := 400.0
  const FloorHeight: real := 10.0

  function Indicator(b: bool): real { if b then 1.0 else 0.0 }

  /** The movement direction before normalising: right minus left, and
      forward minus backward. */
  function RawX(k: Keys): real { Indicator(k.right) - Indicator(k.left) }
  function RawZ(k: Keys): real { Indicator(k.forward) - Indicator(k.backward) }

  function RawNormSq(k: Keys): real { RawX(k) * RawX(k) + RawZ(k) * RawZ(k) }

  /** `len` is the length of the raw direction, as Vector3.length computes it. */
  predicate IsLength(k: Keys, len: real)
  {
    IsSqrt(RawNormSq(k), len)
  }

  /** One coordinate of Vector3.normalize: divide by the length, or by 1 when
      the length is 0. */
  function Normalize(c: real, len: real): real
  {
    c / (if len == 0.0 then 1.0 else len)
  }

  /** The normalised direction has length 1 when the held keys give a
      non-zero direction, so a diagonal is no faster than a straight line, and
      length 0 when no key is held or opposite keys cancel. */
  lemma NormalizedIsUnit(k: Keys, len: real)
    requires IsLength(k, len)
    ensures var nx, nz := Normalize(RawX(k), len), Normalize(RawZ(k), len);
            nx * nx + nz * nz == if RawNormSq(k) == 0.0 then 0.0 else 1.0
  {
    var x, z := RawX(k), RawZ(k);
    if len == 0.0 {
      assert RawNormSq(k) == 0.0;
      assert x * x >= 0.0 && z * z >= 0.0;
      ProductZero(x, x);
      ProductZero(z, z);
    } else {
      var nx, nz := x / len, z / len;
      ScaleQuotient(nx, x, len);
      ScaleQuotient(nz, z, len);
      assert nx * x == nx * nx * len;
      assert nz * z == nz * nz * len;
      calc {
        (nx * nx + nz * nz) * (len * len);
      ==
        (nx * len) * (nx * len) + (nz * len) * (nz * len);
      == { assert nx * len == x; assert nz * len == z; }
        x * x + z * z;
      ==
        len * len;
      }
      assert len * len > 0.0;
      CancelFactor(nx * nx + nz * nz, 1.0, len * len);
      assert RawNormSq(k) != 0.0;
    }
  }

  /** Velocity after gravity, and after the rule that standing on an object
      stops any fall: that rule never makes the player fall faster. */
  function FallVelocity(vy: real, delta: real, onObject: bool): (r: real)
    ensures onObject ==> r >= 0.0
    ensures r >= vy - Gravity * delta
  {
    var v := vy - Gravity * delta;
    if onObject then (if v < 0.0 then 0.0 else v) else v
  }

  /** The height the player would reach this frame before the floor clamp. */
  function RawHeight(b: Body, delta: real, onObject: bool): real
  {
    b.y + FallVelocity(b.vy, delta, onObject) * delta
  }

  /** Exponential damping of one velocity component over the frame. */
  function Damp(v: real, coeff: real, delta: real): real
  {
    v - v * coeff * delta * SpeedMul
  }

  /** The horizontal velocity after damping and, for the held keys, the
      acceleration along the normalised direction. */
  function HorizontalVelocity(k: Keys, b: Body, delta: real, len: real): (real, real)
  {
    var vx := Damp(b.vx, 20.0, delta);
    var vz := Damp(b.vz, 10.0, delta);
    var vz' := if k.forward || k.backward then vz - Normalize(RawZ(k), len) * Acceleration * delta else vz;
    var vx' := if k.left || k.right then vx - Normalize(RawX(k), len) * Acceleration * delta else vx;
    (vx', vz')
  }

  /** The vertical part of one locked frame, as (height, vertical velocity,
      jump allowed): fall, then clamp to the floor. */
  function Vertical(b: Body, delta: real, onObject: bool): (real, real, bool)
  {
    var vy := FallVelocity(b.vy, delta, onObject);
    var y := RawHeight(b, delta, onObject);
    if y < FloorHeight then (FloorHeight, 0.0, true)
    else (y, vy, b.canJump || onObject)
  }

  /** The movement part of one locked frame. The player never ends below the
      floor. */
  function Move(k: Keys, b: Body, delta: real, onObject: bool, len: real): (r: Body)
    ensures r.y >= FloorHeight
  {
    var (vx, vz) := HorizontalVelocity(k, b, delta, len);
    var (y, vy, canJump) := Vertical(b, delta, onObject);
    Body(y, vx, vy, vz, canJump)
  }

  /** The floor clamp: when the fall would end below the floor, the player is
      put on the floor, stops falling and may jump again; otherwise the fall
      is kept as it is. Jumping becomes allowed exactly when the player lands
      on the floor or stands on an object, or was allowed already. */
  lemma FloorClamp(k: Keys, b: Body, delta: real, onObject: bool, len: real)
    ensures var r := Move(k, b, delta, onObject, len);
            RawHeight(b, delta, onObject) < FloorHeight ==> r.y == FloorHeight && r.vy == 0.0 && r.canJump
    ensures var r := Move(k, b, delta, onObject, len);
            RawHeight(b, delta, onObject) >= FloorHeight ==>
              r.y == RawHeight(b, delta, onObject) && r.vy == FallVelocity(b.vy, delta, onObject)
    ensures Move(k, b, delta, onObject, len).canJump
            <==> b.canJump || onObject || RawHeight(b, delta, onObject) < FloorHeight
  {
  }

  /** Standing on an object allows a jump, stops any fall and, for a
      non-negative frame time, never lowers the player. */
  lemma StandingOnObject(k: Keys, b: Body, delta: real, len: real)
    requires delta >= 0.0
    ensures var r := Move(k, b, delta, true, len);
            r.canJump && r.vy >= 0.0 && r.y >= b.y
  {
    var v := FallVelocity(b.vy, delta, true);
    assert v * delta >= 0.0;
  }

  /** A player resting on the floor stays there, at rest, able to jump,
      whenever time passes. */
  lemma RestingOnFloor(k: Keys, b: Body, delta: real, len: real)
    requires b.y == FloorHeight && b.vy == 0.0 && delta > 0.0
    ensures var r := Move(k, b, delta, false, len);
            r.y == FloorHeight && r.vy == 0.0 && r.canJump
  {
    var v := FallVelocity(b.vy, delta, false);
    assert v == -(Gravity * delta);
    MultiplyBelow(delta, 0.0, Gravity * delta);
    assert v * delta < 0.0;
  }

  /** With no key held and a frame no longer than a fifth of a second, damping
      never speeds the player up horizontally. */
  lemma DampingSlowsDown(k: Keys, b: Body, delta: real, len: real)
    requires k == Keys(false, false, false, false)
    requires 0.0 <= delta <= 0.2
    ensures Abs(HorizontalVelocity(k, b, delta, len).0) <= Abs(b.vx)
    ensures Abs(HorizontalVelocity(k, b, delta, len).1) <= Abs(b.vz)
  {
    DampShrinks(b.vx, 20.0, delta);
    DampShrinks(b.vz, 10.0, delta);
  }

  /** At exactly a fifth of a second the damping factor of vx is -1: with no
      key held, vx keeps its size and flips its sign every frame. */
  lemma DampFlipsAtFifth(k: Keys, b: Body, len: real)
    requires k == Keys(false, false, false, false)
    ensures HorizontalVelocity(k, b, 0.2, len).0 == -b.vx
  {
  }

  /** Past a fifth of a second the damping of vx overshoots: it reverses the
      velocity and makes it larger. For vx the factor is 1 - 10 * delta, so a
      frame of one second turns a speed of 1 into -9; for vz the factor is
      1 - 5 * delta, which falls below -1 past 0.4 s. */
  lemma DampAmplifiesLongFrame()
    ensures Damp(1.0, 20.0, 1.0) == -9.0
    ensures Abs(HorizontalVelocity(Keys(false, false, false, false), Body(FloorHeight, 1.0, 0.0, 1.0, true), 1.0, 0.0).0) > 1.0
    ensures Abs(HorizontalVelocity(Keys(false, false, false, false), Body(FloorHeight, 1.0, 0.0, 1.0, true), 1.0, 0.0).1) > 1.0
  {
  }

  /** Damping with a coefficient that removes at most twice the velocity
      does not increase its size. */
  lemma DampShrinks(v: real, coeff: real, delta: real)
    requires 0.0 <= coeff * delta * SpeedMul <= 2.0
    ensures Abs(Damp(v, coeff, delta)) <= Abs(v)
  {
    var c := coeff * delta * SpeedMul;
    assert Damp(v, coeff, delta) == v - v * c;
    var f := 1.0 - c;
    calc {
      Abs(v - v * c);
    == { assert v - v * c == v * f; }
      Abs(v * f);
    == { AbsProduct(v, f); }
      Abs(v) * Abs(f);
    <= { MultiplyBelow(Abs(v), Abs(f), 1.0); }
      Abs(v) * 1.0;
    }
  }

  /** The acceleration the held keys add this frame has magnitude exactly
      Acceleration * delta when the held keys give a direction, and zero when
      none is held or opposite keys cancel (the branch still runs, but
      subtracts 0). */
  lemma AccelerationMagnitude(k: Keys, b: Body, delta: real, len: real)
    requires IsLength(k, len)
    ensures var (vx, vz) := HorizontalVelocity(k, b, delta, len);
            var ax := Damp(b.vx, 20.0, delta) - vx;
            var az := Damp(b.vz, 10.0, delta) - vz;
            ax * ax + az * az
              == (if RawNormSq(k) == 0.0 then 0.0 else (Acceleration * delta) * (Acceleration * delta))
  {
    var nx, nz := Normalize(RawX(k), len), Normalize(RawZ(k), len);
    var m := Acceleration * delta;
    NormalizedIsUnit(k, len);
    var (vx, vz) := HorizontalVelocity(k, b, delta, len);
    var ax := Damp(b.vx, 20.0, delta) - vx;
    var az := Damp(b.vz, 10.0, delta) - vz;
    assert !(k.left || k.right) ==> nx == 0.0;
    assert !(k.forward || k.backward) ==> nz == 0.0;
    assert ax == nx * m;
    assert az == nz * m;
    calc {
      ax * ax + az * az;
      (nx * m) * (nx * m) + (nz * m) * (nz * m);
      (nx * nx + nz * nz) * (m * m);
    }
  }

  // ---------------------------------------------------------------------------
  // Landmarks

  /** How close the player must be for a landmark to act, and the distance
      that maps to the low end of its playback-rate range. */
  const Radius: real := 50.0
  const NearDistance: real := 20.0

  /** What a landmark does to the music: its playback-rate range, delay time,
      delay feedback, harmonicity, and the tune played when standing on it. */
  datatype Landmark = Landmark(rateMin: real, rateMax: real, delayTime: string,
                               feedback: real, harmonicity: real, closeTune: seq<string>)

  const Tune1: seq<string> :=
    ["E5", "D#5", "E5", "B4", "G#4", "B4", "E4", "F#4", "E4", "D#4", "E4", "B3", "G#3", "B3",
     "E4", "D#4", "E4", "E4", "F#4", "E4", "G#4", "E4", "A4", "E4", "G#4", "E4", "F#4", "E4",
     "E4", "E5", "D#5", "C#5", "B4", "E5", "D#5", "C#5", "B4", "A4", "G#4", "F#4", "E4", "E4",
     "F#4", "E4", "G#4", "E4", "A4", "E4", "G#4", "E4", "F#4", "E4", "E4", "E5", "D#5", "C#5",
     "B4", "E5", "D#5", "C#5", "B4", "A4", "G#4", "F#4", "E4", "E4", "E4", "E4", "D#4", "E4",
     "E4", "E4", "F#4", "E4", "D#4", "E4", "E4", "E4", "G#4", "E4", "F#4", "E4", "G#4", "E4",
     "A4", "E4", "F#4", "E4", "G#4", "E4", "E4", "E4", "D#4", "E4", "E4", "E4", "F#4", "E4",
     "D#4", "E4", "E4", "E4", "G#4", "E4", "F#4", "E4", "G#4", "E4", "A4", "E4"]

  const Tune2: seq<string> :=
    ["Eb4", "A4", "Bb4", "Eb4", "A4", "Bb4", "C5", "A4", "Bb4", "C5", "A4", "Bb4", "Bb4", "A4",
     "G4", "F4", "Eb4", "F4", "Bb4", "Ab4", "G4", "F4", "Eb4", "F4", "Eb4", "G4", "Eb4", "A4",
     "Bb4", "Eb4", "A4", "Bb4", "C5", "A4", "Bb4", "C5", "D5", "Bb4", "D5", "Eb5", "D5", "C5",
     "Bb4", "D5", "D5", "Eb5", "D5", "C5", "Bb4", "D5", "Eb5", "F5"]

  const Landmark1: Landmark := Landmark(1.0, 3.0, "16n", 0.3, 1.0, Tune1)
  const Landmark2: Landmark := Landmark(0.5, 1.0, "4n", 0.5, 5.0, Tune2)
  const Landmark3: Landmark := Landmark(0.1, 0.5, "8n", 0.1, 8.0, ["c4"])

  /** The landmarks in the order they are tried. */
  const Landmarks: seq<Landmark> := [Landmark1, Landmark2, Landmark3]

  /** A flat list of pitches as sequence events. */
  function Notes(tune: seq<string>): (r: seq<SeqEvent>)
    ensures |r| == |tune|
    ensures forall i :: 0 <= i < |r| ==> r[i] == Note(tune[i])
  {
    seq(|tune|, i requires 0 <= i < |tune| => Note(tune[i]))
  }

  /** The music as one landmark at distance `d` leaves it. */
  function Approach(a: Audio, lm: Landmark, d: real, onObject: bool): Audio
  {
    var tuned := a.(playbackRate := Map(d, NearDistance, Radius, lm.rateMin, lm.rateMax),
                    delayTime := lm.delayTime, feedback := lm.feedback,
                    harmonicity := lm.harmonicity);
    if onObject then tuned.(feedback := 0.0, events := Notes(lm.closeTune)) else tuned
  }

  /** The if / else-if chain of the frame update over the distances to the
      three landmarks. */
  function Retune(a: Audio, onObject: bool, d1: real, d2: real, d3: real): Audio
  {
    if d1 < Radius then Approach(a, Landmark1, d1, onObject)
    else if d2 < Radius then Approach(a, Landmark2, d2, onObject)
    else if d3 < Radius then Approach(a, Landmark3, d3, onObject)
    else a
  }

  /** The first index from `from` on whose distance is within the radius. */
  function FirstInRange(ds: seq<real>, from: nat): (r: Option<nat>)
    requires from <= |ds|
    ensures r.Some? ==> from <= r.value < |ds| && ds[r.value] < Radius
    ensures r.Some? ==> forall j :: from <= j < r.value ==> ds[j] >= Radius
    ensures r.None? ==> forall j :: from <= j < |ds| ==> ds[j] >= Radius
    decreases |ds| - from
  {
    if from == |ds| then None
    else if ds[from] < Radius then Some(from)
    else FirstInRange(ds, from + 1)
  }

  /** A table-driven reading of the rule: search the landmarks in order and
      apply only the first one within range. */
  function RetuneByTable(a: Audio, onObject: bool, ds: seq<real>): Audio
    requires |ds| == |Landmarks|
  {
    match FirstInRange(ds, 0)
    case None => a
    case Some(i) => Approach(a, Landmarks[i], ds[i], onObject)
  }

  /** The chain is exactly first-match over the table: at most one landmark
      acts, and it is the first in priority order within range. */
  lemma RetuneIsFirstMatch(a: Audio, onObject: bool, d1: real, d2: real, d3: real)
    ensures Retune(a, onObject, d1, d2, d3) == RetuneByTable(a, onObject, [d1, d2, d3])
  {
    var ds := [d1, d2, d3];
    var f := FirstInRange(ds, 0);
    if d1 >= Radius {
      assert f == FirstInRange(ds, 1);
      if d2 >= Radius {
        assert FirstInRange(ds, 1) == FirstInRange(ds, 2);
      }
    }
  }

  /** With no landmark within range, the music is left exactly as it was. */
  lemma OutOfRangeKeepsMusic(a: Audio, onObject: bool, d1: real, d2: real, d3: real)
    requires d1 >= Radius && d2 >= Radius && d3 >= Radius
    ensures Retune(a, onObject, d1, d2, d3) == a
  {
  }

  /** What the acting landmark sets: the rate remapped from the distance, its
      delay time and harmonicity, and either its feedback with the events kept,
      or zero feedback with its close tune when the player stands on it. */
  lemma ApproachSets(a: Audio, lm: Landmark, d: real, onObject: bool)
    ensures var r := Approach(a, lm, d, onObject);
            r.playbackRate == Map(d, NearDistance, Radius, lm.rateMin, lm.rateMax)
            && r.delayTime == lm.delayTime && r.harmonicity == lm.harmonicity
            && r.feedback == (if onObject then 0.0 else lm.feedback)
            && r.events == (if onObject then Notes(lm.closeTune) else a.events)
  {
  }

  /** For a distance between NearDistance and the radius, each landmark's rate
      lies in its half-open range; at NearDistance it is the low end. */
  lemma RateWithinRange(a: Audio, lm: Landmark, d: real, onObject: bool)
    requires lm in Landmarks
    requires NearDistance <= d < Radius
    ensures lm.rateMin <= Approach(a, lm, d, onObject).playbackRate < lm.rateMax
    ensures d == NearDistance ==> Approach(a, lm, d, onObject).playbackRate == lm.rateMin
  {
    MapWithin(d, NearDistance, Radius, lm.rateMin, lm.rateMax);
  }

  /** The rate is not clamped: closer than NearDistance it falls below the low
      end of the range. For the third landmark at distance 10 it is negative. */
  lemma RateBelowNear(a: Audio, lm: Landmark, d: real, onObject: bool)
    requires lm in Landmarks
    requires d < NearDistance
    ensures Approach(a, lm, d, onObject).playbackRate < lm.rateMin
    ensures lm == Landmark3 && d == 10.0 ==> Approach(a, lm, d, onObject).playbackRate < 0.0
  {
    MapUnclamped(d, NearDistance, Radius, lm.rateMin, lm.rateMax);
  }

  /** At distance 35 from the first landmark the rate is exactly 2, the delay
      a sixteenth note and the harmonicity 1, whatever the other distances.
      Not standing on it, the feedback is 0.3 and the notes are kept; standing
      on it (its top is within the downward ray's reach from 35 above its
      centre), the feedback is 0 and the first landmark's tune plays. */
  lemma FirstLandmarkAt35(a: Audio, d2: real, d3: real)
    ensures var r := Retune(a, false, 35.0, d2, d3);
            r.playbackRate == 2.0 && r.delayTime == "16n" && r.feedback == 0.3 && r.harmonicity == 1.0
            && r.events == a.events
    ensures var r := Retune(a, true, 35.0, d2, d3);
            r.playbackRate == 2.0 && r.delayTime == "16n" && r.feedback == 0.0 && r.harmonicity == 1.0
            && r.events == Notes(Tune1)
  {
    MapAffine(35.0, NearDistance, Radius, 1.0, 3.0);
  }

  /** Standing on the third landmark, with the other two out of range, plays
      the single note c4 without feedback. */
  lemma OnThirdLandmark(a: Audio, d1: real, d2: real, d3: real)
    requires d1 >= Radius && d2 >= Radius && d3 < Radius
    ensures Retune(a, true, d1, d2, d3).events == [Note("c4")]
    ensures Retune(a, true, d1, d2, d3).feedback == 0.0
  {
  }

  // ---------------------------------------------------------------------------
  // Landmark positions

  const Origin: Vec3 := Vec3(0.0, 0.0, 0.0)

  /** The positions the set-up leaves the three landmarks at. */
  const Mesh1Pos: Vec3 := Vec3(-250.0, 30.0, 0.0)
  const Mesh2Pos: Vec3 := Vec3(250.0, 30.0, -250.0)
  const Mesh3Pos: Vec3 := Origin

  /** Where the scene set-up leaves the three landmarks. The second one is
      positioned twice and the third never, so the third stays at the origin. */
  method PlaceLandmarks() returns (mesh1: Vec3, mesh2: Vec3, mesh3: Vec3)
    ensures mesh1 == Mesh1Pos
    ensures mesh2 == Mesh2Pos
    ensures mesh3 == Mesh3Pos
  {
    mesh1 := Origin;
    mesh1 := Vec3(-250.0, 30.0, 0.0);
    mesh2 := Origin;
    mesh2 := Vec3(250.0, 30.0, 0.0);
    mesh3 := Origin;
    mesh2 := Vec3(250.0, 30.0, -250.0);
  }

  /** Two landmarks 100 or more apart along x cannot both be within the radius
      of the same point. */
  lemma NotBothInRange(p: Vec3, m: Vec3, n: Vec3, dm: real, dn: real)
    requires IsDistance(p, m, dm) && IsDistance(p, n, dn)
    requires Abs(m.x - n.x) >= 2.0 * Radius
    ensures !(dm < Radius && dn < Radius)
  {
    if dm < Radius && dn < Radius {
      CoordinatesWithin(p, m, dm, Radius);
      CoordinatesWithin(p, n, dn, Radius);
      assert false;
    }
  }

  /** With the landmarks where the set-up leaves them, a player is within range
      of at most one of them, so the priority order never has to decide. */
  lemma AtMostOneLandmarkInRange(p: Vec3, d1: real, d2: real, d3: real)
    requires IsDistance(p, Mesh1Pos, d1)
    requires IsDistance(p, Mesh2Pos, d2)
    requires IsDistance(p, Mesh3Pos, d3)
    ensures d1 < Radius ==> d2 >= Radius && d3 >= Radius
    ensures d2 < Radius ==> d3 >= Radius
  {
    NotBothInRange(p, Mesh1Pos, Mesh2Pos, d1, d2);
    NotBothInRange(p, Mesh1Pos, Mesh3Pos, d1, d3);
    NotBothInRange(p, Mesh2Pos, Mesh3Pos, d2, d3);
  }

  // ---------------------------------------------------------------------------
  // Frame update

  /** One frame of update(): nothing happens unless the pointer is locked;
      otherwise the body moves and the nearest landmark retunes the music. */
  function Step(s: State, delta: real, locked: bool, onObject: bool, len: real,
                d1: real, d2: real, d3: real): (r: State)
    requires IsLength(s.keys, len)
    ensures r.keys == s.keys
    ensures s.body.y >= FloorHeight ==> r.body.y >= FloorHeight
  {
    if !locked then s
    else State(s.keys, Move(s.keys, s.body, delta, onObject, len),
               Retune(s.audio, onObject, d1, d2, d3))
  }

  /** Without the pointer lock a frame changes nothing at all; with it, the
      player ends on or above the floor. */
  lemma StepLockGate(s: State, delta: real, locked: bool, onObject: bool, len: real,
                     d1: real, d2: real, d3: real)
    requires IsLength(s.keys, len)
    ensures !locked ==> Step(s, delta, locked, onObject, len, d1, d2, d3) == s
    ensures locked ==> Step(s, delta, locked, onObject, len, d1, d2, d3).body.y >= FloorHeight
  {
  }

  /** The state at start-up: the camera at height 100, still; no key held; the
      instrument's initial settings and its starting pattern. */
  const Initial: State :=
    State(Keys(false, false, false, false),
          Body(100.0, 0.0, 0.0, 0.0, false),
          Audio(1.0, "8n", 0.3, 8.0,
                [Note("C4"), Group(["E4", "D4", "E4"]), Note("G4"), Group(["A4", "G4"])]))

  // ---------------------------------------------------------------------------
  // The mutable player, as the scene keeps it

  class Player {
    var y: real
    var vx: real
    var vy: real
    var vz: real
    var canJump: bool
    var moveForward: bool
    var moveBackward: bool
    var moveLeft: bool
    var moveRight: bool
    var playbackRate: real
    var delayTime: string
    var feedback: real
    var harmonicity: real
    var events: seq<SeqEvent>

    /** The fields as a value of the specification's State. */
    function Snapshot(): State
      reads this
    {
      State(Keys(moveForward, moveBackward, moveLeft, moveRight),
            Body(y, vx, vy, vz, canJump),
            Audio(playbackRate, delayTime, feedback, harmonicity, events))
    }

    /** The player is never below the floor. */
    ghost predicate Valid()
      reads this
    {
      y >= FloorHeight
    }

    constructor ()
      ensures Valid() && Snapshot() == Initial
    {
      y, vx, vy, vz, canJump := 100.0, 0.0, 0.0, 0.0, false;
      moveForward, moveBackward, moveLeft, moveRight := false, false, false, false;
      playbackRate, delayTime, feedback, harmonicity := 1.0, "8n", 0.3, 8.0;
      events := [Note("C4"), Group(["E4", "D4", "E4"]), Note("G4"), Group(["A4", "G4"])];
    }

    /** onKeyDown. */
    method KeyDown(code: string)
      requires Valid()
      modifies this
      ensures Valid()
      ensures Snapshot() == OnKeyDown(old(Snapshot()), code)
    {
      if code == "ArrowUp" || code == "KeyW" {
        moveForward := true;
      } else if code == "ArrowLeft" || code == "KeyA" {
        moveLeft := true;
      } else if code == "ArrowDown" || code == "KeyS" {
        moveBackward := true;
      } else if code == "ArrowRight" || code == "KeyD" {
        moveRight := true;
      } else if code == "Space" {
        if canJump {
          vy := vy + 350.0;
        }
        canJump := false;
      }
    }

    /** onKeyUp. */
    method KeyUp(code: string)
      requires Valid()
      modifies this
      ensures Valid()
      ensures Snapshot() == OnKeyUp(old(Snapshot()), code)
    {
      if code == "ArrowUp" || code == "KeyW" {
        moveForward := false;
      } else if code == "ArrowLeft" || code == "KeyA" {
        moveLeft := false;
      } else if code == "ArrowDown" || code == "KeyS" {
        moveBackward := false;
      } else if code == "ArrowRight" || code == "KeyD" {
        moveRight := false;
      }
    }

    /** update(): `delta` is the clock's frame time, `locked` the pointer-lock
        state, `onObject` whether the downward ray hits a landmark, `len` the
        length of the raw movement direction, and d1, d2, d3 the distances to
        the three landmarks. `onObject` is measured before this frame's move;
        d1, d2, d3 are measured after it, from the moved and clamped position. */
    method Update(delta: real, locked: bool, onObject: bool, len: real,
                  d1: real, d2: real, d3: real)
      requires Valid()
      requires IsLength(Snapshot().keys, len)
      modifies this
      ensures Valid()
      ensures Snapshot() == Step(old(Snapshot()), delta, locked, onObject, len, d1, d2, d3)
    {
      if locked {
        Accelerate(delta, len);
        Fall(delta, onObject);
        RetuneMusic(onObject, d1, d2, d3);
      }
    }

    /** The horizontal part of update(): damping, then acceleration along
        the normalised direction of the held keys. */
    method Accelerate(delta: real, len: real)
      modifies this`vx, this`vz
      ensures (vx, vz) == HorizontalVelocity(old(Snapshot()).keys, old(Snapshot()).body, delta, len)
    {
      ghost var k, b := Snapshot().keys, Snapshot().body;
      var speedMul := 0.5;
      vx := vx - vx * 20.0 * delta * speedMul;
      vz := vz - vz * 10.0 * delta * speedMul;

      var directionZ := Indicator(moveForward) - Indicator(moveBackward);
      var directionX := Indicator(moveRight) - Indicator(moveLeft);
      directionZ, directionX := Normalize(directionZ, len), Normalize(directionX, len);
      assert directionZ == Normalize(RawZ(k), len);

      if moveForward || moveBackward {
        vz := vz - directionZ * 400.0 * delta;
      }
      if moveLeft || moveRight {
        vx := vx - directionX * 400.0 * delta;
      }
      assert vz == HorizontalVelocity(k, b, delta, len).1;
      assert vx == HorizontalVelocity(k, b, delta, len).0;
    }

    /** The vertical part of update(): gravity, the standing-on-object rule,
        the height step and the floor clamp. */
    method Fall(delta: real, onObject: bool)
      modifies this`y, this`vy, this`canJump
      ensures Valid()
      ensures (y, vy, canJump) == Vertical(old(Snapshot()).body, delta, onObject)
    {
      ghost var b := Snapshot().body;
      vy := vy - 9.8 * 100.0 * delta;

      if onObject {
        vy := if vy < 0.0 then 0.0 else vy;
        canJump := true;
      }
      assert vy == FallVelocity(b.vy, delta, onObject);

      y := y + vy * delta;
      assert y == RawHeight(b, delta, onObject);

      if y < 10.0 {
        vy := 0.0;
        y := 10.0;
        canJump := true;
      }
    }

    /** The landmark part of update(): only the first landmark within range,
        in the order 1, 2, 3, retunes the music. */
    method RetuneMusic(onObject: bool, d1: real, d2: real, d3: real)
      modifies this
      ensures Snapshot() == old(Snapshot()).(audio := Retune(old(Snapshot()).audio, onObject, d1, d2, d3))
    {
      if d1 < 50.0 {
        playbackRate := Map(d1, 20.0, 50.0, 1.0, 3.0);
        delayTime := "16n";
        feedback := 0.3;
        harmonicity := 1.0;
        if onObject {
          feedback := 0.0;
          events := Notes(Tune1);
        }
      } else if d2 < 50.0 {
        playbackRate := Map(d2, 20.0, 50.0, 0.5, 1.0);
        delayTime := "4n";
        feedback := 0.5;
        harmonicity := 5.0;
        if onObject {
          feedback := 0.0;
          events := Notes(Tune2);
        }
      } else if d3 < 50.0 {
        playbackRate := Map(d3, 20.0, 50.0, 0.1, 0.5);
        delayTime := "8n";
        feedback := 0.1;
        harmonicity := 8.0;
        if onObject {
          feedback := 0.0;
          events := [Note("c4")];
        }
      }
    }
  }
}
