/** The scene loop of the viewer (source/coursework.cpp) without its OpenGL and
    GLFW calls: the camera move rule of `processInput`, the mouse latch and
    pitch clamp of `mouseCallback`, the siren test and the colour choices of
    `main` and `renderRoom`, and the way the room's 36 vertices are drawn as
    six faces.

    Key state, the flattened front and right vectors, the cursor position and
    the clock are inputs. Coordinates are reals. */
module Coursework {
  import opened Geometry

  // ---------------------------------------------------------------------
  // The file-scope constants and initial values
  // ---------------------------------------------------------------------

  const InitialCameraPos: Vec3 := Vec3(0.0, -9.4, -20.0)
  const InitialYaw: real := -90.0
  const InitialPitch: real := 0.0
  const InitialLastX: real := 512.0
  const InitialLastY: real := 384.0

  const CameraSpeed: real := 0.03
  const TablePos: Vec3 := Vec3(0.0, -9.925, 0.0)
  const TableTriggerRadius: real := 1.5
  const EyeballPos: Vec3 := Vec3(0.0, -6.0, 0.0)
  const EyeballRadius: real := 1.0

  /** The extra clearance added to the eyeball's radius by the collision test. */
  const CollisionMargin: real := 1.5
  /** Candidate x and z must lie strictly inside (-RoomLimit, RoomLimit). */
  const RoomLimit: real := 29.5
  /** Every candidate position is put at this height. */
  const EyeHeight: real := 0.3
  const PitchLimit: real := 89.0
  const MouseSensitivity: real := 0.1

  // ---------------------------------------------------------------------
  // processInput: the move-acceptance rule
  // ---------------------------------------------------------------------

  /** The keys `processInput` polls. */
  datatype Keys = Keys(w: bool, s: bool, a: bool, d: bool, shift: bool, escape: bool)

  /** The step length of one frame. */
  function Speed(shift: bool): (v: real)
    ensures v > 0.0
    ensures shift ==> v == 2.0 * Speed(false)
  {
    if shift then CameraSpeed * 2.0 else CameraSpeed
  }

  /** The position `processInput` tries to move to: the four key contributions
      applied in the source's order, then the height reset to eye level. */
  function Candidate(pos: Vec3, keys: Keys, flatFront: Vec3, right: Vec3): (next: Vec3)
    ensures next.y == EyeHeight
  {
    var v := Speed(keys.shift);
    var n1 := if keys.w then Add(pos, Scale(flatFront, v)) else pos;
    var n2 := if keys.s then Sub(n1, Scale(flatFront, v)) else n1;
    var n3 := if keys.a then Sub(n2, Scale(right, v)) else n2;
    var n4 := if keys.d then Add(n3, Scale(right, v)) else n3;
    Vec3(n4.x, EyeHeight, n4.z)
  }

  predicate WithinBounds(p: Vec3)
  {
    -RoomLimit < p.x < RoomLimit && -RoomLimit < p.z < RoomLimit
  }

  /** The radius of the disk around the eyeball the camera may not enter. */
  const KeepOut: real := EyeballRadius + CollisionMargin

  /** `horizontalDist < eyeballRadius + 1.5`, compared on squares. */
  predicate Collides(p: Vec3)
  {
    HorizontalDistSq(p, EyeballPos) < KeepOut * KeepOut
  }

  /** The camera is inside the room's square and outside the eyeball's disk. */
  predicate Safe(p: Vec3)
  {
    WithinBounds(p) && !Collides(p)
  }

  /** The camera position after one `processInput`. */
  function Move(pos: Vec3, keys: Keys, flatFront: Vec3, right: Vec3): (r: Vec3)
    ensures Safe(pos) ==> Safe(r)
  {
    var next := Candidate(pos, keys, flatFront, right);
    if WithinBounds(next) && !Collides(next) then next else pos
  }

  /** The camera moves exactly when the candidate is safe, and then to the
      candidate; otherwise it stays where it was. The first clause only
      restates the definition of `Move` with its guard named `Safe`; the
      second says where an actual move lands. */
  lemma MoveAcceptance(pos: Vec3, keys: Keys, flatFront: Vec3, right: Vec3)
    ensures var next := Candidate(pos, keys, flatFront, right);
            Move(pos, keys, flatFront, right) == (if Safe(next) then next else pos)
    ensures Move(pos, keys, flatFront, right) != pos ==>
              Move(pos, keys, flatFront, right).y == EyeHeight &&
              Safe(Move(pos, keys, flatFront, right))
  {
  }

  /** The candidate's horizontal coordinates in closed form: the position
      plus the step times the net forward count (W minus S) along the flat
      front, plus the step times the net sideways count (D minus A) along
      the right vector. */
  lemma CandidateDisplacement(pos: Vec3, keys: Keys, flatFront: Vec3, right: Vec3)
    ensures var v := Speed(keys.shift);
            var fw := (if keys.w then 1.0 else 0.0) - (if keys.s then 1.0 else 0.0);
            var sd := (if keys.d then 1.0 else 0.0) - (if keys.a then 1.0 else 0.0);
            var c := Candidate(pos, keys, flatFront, right);
            c.x == pos.x + v * fw * flatFront.x + v * sd * right.x &&
            c.z == pos.z + v * fw * flatFront.z + v * sd * right.z
  {
    var v := Speed(keys.shift);
    NetStep(keys.w, keys.s, v, flatFront.x);
    NetStep(keys.w, keys.s, v, flatFront.z);
    NetStep(keys.d, keys.a, v, right.x);
    NetStep(keys.d, keys.a, v, right.z);
  }

  /** A key pair that adds and subtracts the same step `x * v` nets to the
      step times the difference of the two key counts. */
  lemma NetStep(plus: bool, minus: bool, v: real, x: real)
    ensures v * ((if plus then 1.0 else 0.0) - (if minus then 1.0 else 0.0)) * x ==
            (if plus then x * v else 0.0) - (if minus then x * v else 0.0)
  {
    if plus && !minus {
      assert v * 1.0 * x == x * v;
    } else if !plus && minus {
      assert v * -1.0 * x == 0.0 - x * v;
    }
  }

  /** Holding Shift exactly doubles the horizontal displacement of the candidate. */
  lemma ShiftDoublesStep(pos: Vec3, keys: Keys, flatFront: Vec3, right: Vec3)
    ensures var slow := Candidate(pos, keys.(shift := false), flatFront, right);
            var fast := Candidate(pos, keys.(shift := true), flatFront, right);
            fast.x - pos.x == 2.0 * (slow.x - pos.x) &&
            fast.z - pos.z == 2.0 * (slow.z - pos.z)
  {
    assert Speed(false) == 0.03 && Speed(true) == 0.06;
  }

  /** Comparing squared lengths decides the same as comparing lengths, so the
      model may use `HorizontalDistSq` where the source calls glm::length. */
  lemma SquaredComparison(len: real, r: real)
    requires len >= 0.0 && r >= 0.0
    ensures len < r <==> len * len < r * r
  {
    if len < r {
      var d := r - len;
      assert r * r == len * len + d * (r + len);
      assert d * (r + len) > 0.0;
    } else {
      var d := len - r;
      assert len * len == r * r + d * (len + r);
      assert d * (len + r) >= 0.0;
    }
  }

  /** The starting position is safe. */
  lemma InitialPositionSafe()
    ensures Safe(InitialCameraPos)
  {
  }

  /** One frame of camera input. */
  datatype Frame = Frame(keys: Keys, flatFront: Vec3, right: Vec3)

  /** The camera position after a sequence of frames. */
  function Walk(pos: Vec3, frames: seq<Frame>): Vec3
    decreases |frames|
  {
    if frames == [] then pos
    else
      var f := frames[|frames| - 1];
      Move(Walk(pos, frames[..|frames| - 1]), f.keys, f.flatFront, f.right)
  }

  /** Whatever the keys and directions, the camera never leaves the room's
      square nor enters the eyeball's disk. */
  lemma {:induction false} WalkStaysSafe(frames: seq<Frame>)
    ensures Safe(Walk(InitialCameraPos, frames))
    decreases |frames|
  {
    if frames == [] {
      InitialPositionSafe();
    } else {
      WalkStaysSafe(frames[..|frames| - 1]);
    }
  }

  // ---------------------------------------------------------------------
  // mouseCallback: first-sample latch and pitch clamp
  // ---------------------------------------------------------------------

  /** The globals `mouseCallback` updates. */
  datatype Look = Look(yaw: real, pitch: real, lastX: real, lastY: real, firstMouse: bool)

  const InitialLook: Look := Look(InitialYaw, InitialPitch, InitialLastX, InitialLastY, true)

  /** The two sequential clamps of the pitch. */
  function ClampPitch(p: real): (r: real)
    ensures -PitchLimit <= r <= PitchLimit
    ensures -PitchLimit <= p <= PitchLimit ==> r == p
  {
    var upper := if p > PitchLimit then PitchLimit else p;
    if upper < -PitchLimit then -PitchLimit else upper
  }

  /** The clamped pitch is the point of [-89, 89] nearest to the unclamped one. */
  lemma ClampIsNearest(p: real, q: real)
    requires -PitchLimit <= q <= PitchLimit
    ensures var r := ClampPitch(p);
            (if r >= p then r - p else p - r) <= (if q >= p then q - p else p - q)
  {
  }

  /** The look state after one cursor sample at (xpos, ypos). */
  function MouseMove(l: Look, xpos: real, ypos: real): (r: Look)
    ensures -PitchLimit <= r.pitch <= PitchLimit
    ensures !r.firstMouse && r.lastX == xpos && r.lastY == ypos
    ensures l.firstMouse ==> r.yaw == l.yaw && r.pitch == ClampPitch(l.pitch)
    ensures !l.firstMouse ==>
              r.yaw == l.yaw + (xpos - l.lastX) * MouseSensitivity &&
              r.pitch == ClampPitch(l.pitch + (l.lastY - ypos) * MouseSensitivity)
  {
    var seedX := if l.firstMouse then xpos else l.lastX;
    var seedY := if l.firstMouse then ypos else l.lastY;
    var xoffset := (xpos - seedX) * MouseSensitivity;
    var yoffset := (seedY - ypos) * MouseSensitivity;
    Look(l.yaw + xoffset, ClampPitch(l.pitch + yoffset), xpos, ypos, false)
  }

  /** A cursor sample. */
  datatype Cursor = Cursor(x: real, y: real)

  /** The look state after a sequence of cursor samples. */
  function Samples(l: Look, cs: seq<Cursor>): Look
    decreases |cs|
  {
    if cs == [] then l
    else
      var c := cs[|cs| - 1];
      MouseMove(Samples(l, cs[..|cs| - 1]), c.x, c.y)
  }

  /** The yaw follows the cursor's total horizontal travel since the seed:
      from the stored `lastX`, or from the first sample when the latch is set. */
  lemma {:induction false} YawFollowsCursor(l: Look, cs: seq<Cursor>)
    requires cs != []
    ensures var seed := if l.firstMouse then cs[0].x else l.lastX;
            Samples(l, cs).yaw == l.yaw + (cs[|cs| - 1].x - seed) * MouseSensitivity
    ensures !Samples(l, cs).firstMouse
    decreases |cs|
  {
    var prior := cs[..|cs| - 1];
    if prior != [] {
      YawFollowsCursor(l, prior);
      assert prior[0] == cs[0];
    }
  }

  // ---------------------------------------------------------------------
  // Siren and colours
  // ---------------------------------------------------------------------

  /** The siren sounds when the camera is within the trigger radius of the
      table, measured on the floor plane. */
  predicate SirenOn(cameraPos: Vec3)
  {
    HorizontalDistSq(cameraPos, TablePos) < TableTriggerRadius * TableTriggerRadius
  }

  /** The table stands under the eyeball and its trigger radius is smaller than
      the keep-out radius, so no safe position sets off the siren. */
  lemma SafeSilencesSiren(p: Vec3)
    requires Safe(p)
    ensures !SirenOn(p)
  {
  }

  /** Hence the siren never sounds on any reachable camera position. */
  lemma SirenNeverSounds(frames: seq<Frame>)
    ensures !SirenOn(Walk(InitialCameraPos, frames))
  {
    WalkStaysSafe(frames);
    SafeSilencesSiren(Walk(InitialCameraPos, frames));
  }

  datatype Rgb = Rgb(r: real, g: real, b: real)

  const Red: Rgb := Rgb(1.0, 0.0, 0.0)
  const Blue: Rgb := Rgb(0.0, 0.0, 1.0)
  const Yellow: Rgb := Rgb(1.0, 1.0, 0.0)
  const White: Rgb := Rgb(1.0, 1.0, 1.0)

  /** The six face colours of `renderRoom`. */
  const BaseColours: seq<Rgb> :=
    [Rgb(1.0, 0.0, 0.0), Rgb(0.0, 0.0, 1.0), Rgb(0.0, 1.0, 0.0),
     Rgb(1.0, 1.0, 0.0), Rgb(0.4, 0.7, 1.0), Rgb(1.0, 0.0, 1.0)]

  /** C's truncation toward zero. */
  function Trunc(t: real): int
  {
    if t >= 0.0 then t.Floor else -((-t).Floor)
  }

  /** `fmod(t, 1.0)`: the remainder after removing the whole part, with the
      sign of `t`. */
  function FMod1(t: real): (r: real)
    ensures -1.0 < r < 1.0
    ensures t >= 0.0 ==> r >= 0.0
    ensures t <= 0.0 ==> r <= 0.0
    ensures (t - r).Floor as real == t - r
  {
    t - Trunc(t) as real
  }

  /** The flashing colour: red in the first half of every second, else blue. */
  function AlarmColour(time: real): (c: Rgb)
    ensures c == Red || c == Blue
    ensures c == Red <==> FMod1(time) < 0.5
  {
    if FMod1(time) < 0.5 then Red else Blue
  }

  /** The alarm colour repeats every second. */
  lemma AlarmPeriodic(time: real)
    requires time >= 0.0
    ensures AlarmColour(time + 1.0) == AlarmColour(time)
  {
    assert (time + 1.0).Floor == time.Floor + 1;
  }

  /** Half a second later the alarm shows the other colour. */
  lemma AlarmAlternates(time: real)
    requires time >= 0.0
    ensures AlarmColour(time + 0.5) != AlarmColour(time)
  {
    var n := time.Floor;
    if time - n as real < 0.5 {
      assert (time + 0.5).Floor == n;
    } else {
      assert (time + 0.5).Floor == n + 1;
    }
  }

  /** `renderRoom`'s tint. */
  function Tint(siren: bool, time: real): Rgb
  {
    if siren then AlarmColour(time) else White
  }

  /** The colour of room face `i`. */
  function FaceColour(i: nat, siren: bool, time: real): Rgb
    requires i < |BaseColours|
  {
    if siren then Tint(siren, time) else BaseColours[i]
  }

  /** The colour of both ceiling bulbs. */
  function BulbColour(siren: bool, time: real): Rgb
  {
    if siren then AlarmColour(time) else Yellow
  }

  /** For the same clock reading, faces and bulbs show the same colour while
      the siren sounds, and never flash while it is silent. (The program
      reads the clock separately for the room and for the bulbs, so within
      one frame the two readings may straddle a half-second boundary.) */
  lemma SirenColouring(siren: bool, time: real, i: nat)
    requires i < |BaseColours|
    ensures siren ==> FaceColour(i, siren, time) == BulbColour(siren, time) &&
                      (BulbColour(siren, time) == Red || BulbColour(siren, time) == Blue)
    ensures !siren ==> FaceColour(i, siren, time) == BaseColours[i] && BulbColour(siren, time) == Yellow
  {
  }

  // ---------------------------------------------------------------------
  // The room's draw calls
  // ---------------------------------------------------------------------

  /** One glDrawArrays call: a colour and a vertex range. */
  datatype DrawCall = DrawCall(colour: Rgb, first: nat, count: nat)

  /** The room's vertex array: 6 faces of 2 triangles. */
  const RoomVertexCount: nat := 36
  const FaceVertexCount: nat := 6
  const RoomFaceCount: nat := 6

  /** The draw calls `renderRoom` issues: one per face, each over its own six
      vertices, together covering the 36 room vertices in order. */
  method RenderRoom(siren: bool, time: real) returns (calls: seq<DrawCall>)
    ensures |calls| == RoomFaceCount
    ensures calls[0].first == 0
    ensures forall i :: 0 <= i < |calls| - 1 ==> calls[i + 1].first == calls[i].first + calls[i].count
    ensures calls[|calls| - 1].first + calls[|calls| - 1].count == RoomVertexCount
    ensures forall i :: 0 <= i < |calls| ==> calls[i].first == i * FaceVertexCount
    ensures forall i :: 0 <= i < |calls| ==> calls[i].count == FaceVertexCount
    ensures forall i :: 0 <= i < |calls| ==>
              calls[i].colour == (if siren then AlarmColour(time) else BaseColours[i])
  {
    var tint := Tint(siren, time);
    calls := [];
    for i := 0 to RoomFaceCount
      invariant |calls| == i
      invariant forall j :: 0 <= j < i ==>
                  calls[j] == DrawCall(if siren then AlarmColour(time) else BaseColours[j], j * FaceVertexCount, FaceVertexCount)
    {
      var finalColour := if siren then tint else BaseColours[i];
      calls := calls + [DrawCall(finalColour, i * FaceVertexCount, FaceVertexCount)];
    }
  }

  // ---------------------------------------------------------------------
  // The scene's mutable state
  // ---------------------------------------------------------------------

  /** The file-scope globals that input handling updates. */
  class Scene {
    var cameraPos: Vec3
    var yaw: real
    var pitch: real
    var lastX: real
    var lastY: real
    var firstMouse: bool
    var closeRequested: bool

    /** The camera is where the move rule allows and the pitch is clamped. */
    ghost predicate Valid()
      reads this
    {
      Safe(cameraPos) && -PitchLimit <= pitch <= PitchLimit
    }

    ghost function LookState(): Look
      reads this
    {
      Look(yaw, pitch, lastX, lastY, firstMouse)
    }

    constructor ()
      ensures Valid()
      ensures cameraPos == InitialCameraPos && LookState() == InitialLook && !closeRequested
    {
      cameraPos := InitialCameraPos;
      yaw, pitch := InitialYaw, InitialPitch;
      lastX, lastY := InitialLastX, InitialLastY;
      firstMouse := true;
      closeRequested := false;
    }

    /** `processInput` with the polled keys and the frame's flattened front
        and right vectors as inputs. */
    method ProcessInput(keys: Keys, flatFront: Vec3, right: Vec3)
      modifies this
      ensures cameraPos == Move(old(cameraPos), keys, flatFront, right)
      ensures LookState() == old(LookState())
      ensures closeRequested == (old(closeRequested) || keys.escape)
      ensures old(Valid()) ==> Valid()
    {
      var currentSpeed := CameraSpeed;
      if keys.shift {
        currentSpeed := currentSpeed * 2.0;
      }
      assert currentSpeed == Speed(keys.shift);
      var next := cameraPos;
      if keys.w { next := Add(next, Scale(flatFront, currentSpeed)); }
      if keys.s { next := Sub(next, Scale(flatFront, currentSpeed)); }
      if keys.a { next := Sub(next, Scale(right, currentSpeed)); }
      if keys.d { next := Add(next, Scale(right, currentSpeed)); }
      next := next.(y := EyeHeight);
      assert next == Candidate(old(cameraPos), keys, flatFront, right);
      var withinBounds :=
        next.x > -RoomLimit && next.x < RoomLimit &&
        next.z > -RoomLimit && next.z < RoomLimit;
      var collision := Collides(next);
      if withinBounds && !collision {
        cameraPos := next;
      }
      if keys.escape {
        closeRequested := true;
      }
    }

    /** `mouseCallback` without the recomputation of the view direction. */
    method MouseCallback(xpos: real, ypos: real)
      modifies this
      ensures LookState() == MouseMove(old(LookState()), xpos, ypos)
      ensures cameraPos == old(cameraPos) && closeRequested == old(closeRequested)
      ensures old(Valid()) ==> Valid()
    {
      if firstMouse {
        lastX := xpos;
        lastY := ypos;
        firstMouse := false;
      }
      var xoffset := (xpos - lastX) * MouseSensitivity;
      var yoffset := (lastY - ypos) * MouseSensitivity;
      lastX := xpos;
      lastY := ypos;
      yaw := yaw + xoffset;
      pitch := pitch + yoffset;
      if pitch > PitchLimit {
        pitch := PitchLimit;
      }
      if pitch < -PitchLimit {
        pitch := -PitchLimit;
      }
    }

    /** One iteration of the main loop up to the colour decisions: input, the
        siren test, the room's draw calls and the bulbs' colour. The room and
        the bulbs each read the clock once. */
    method RenderFrame(keys: Keys, flatFront: Vec3, right: Vec3, roomTime: real, bulbTime: real)
      returns (siren: bool, room: seq<DrawCall>, bulb: Rgb)
      modifies this
      ensures cameraPos == Move(old(cameraPos), keys, flatFront, right)
      ensures LookState() == old(LookState())
      ensures closeRequested == (old(closeRequested) || keys.escape)
      ensures siren == SirenOn(cameraPos)
      ensures |room| == RoomFaceCount
      ensures forall i :: 0 <= i < |room| ==>
                room[i] == DrawCall(FaceColour(i, siren, roomTime), i * FaceVertexCount, FaceVertexCount)
      ensures bulb == BulbColour(siren, bulbTime)
      ensures old(Valid()) ==> Valid() && !siren
    {
      ProcessInput(keys, flatFront, right);
      siren := HorizontalDistSq(cameraPos, TablePos) < TableTriggerRadius * TableTriggerRadius;
      room := RenderRoom(siren, roomTime);
      bulb := if siren then AlarmColour(bulbTime) else Yellow;
      if old(Valid()) {
        SafeSilencesSiren(cameraPos);
      }
    }
  }
}
