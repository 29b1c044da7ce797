/** The quarter-turn demo of `src/main.rs`: pressing R gives every
    `Rotatable` entity that is not already turning a one-second `Rotate`
    timer; while it runs the entity's yaw moves from index `y` towards
    `y + 1` quarter turns in steps of 1/36, and when it finishes the index
    advances modulo 4 and the yaw snaps onto it. Angles are measured in
    quarter turns (`y * PI * 0.5` radians is `y` quarter turns). */
module Rotation {

  import opened Geometry
  import opened Grid

  datatype TimerMode = Once | Repeating

  /** The `Rotate` component. Only the timer's duration and mode are kept:
      its elapsed time is the engine's, read through a `TimerReading`. */
  datatype Rotate = Rotate(durationSecs: real, mode: TimerMode)

  /** What `rotate_rotatable` inserts: `Timer::from_seconds(1., TimerMode::Once)`. */
  const NewRotate := Rotate(1.0, Once)

  /** The timer after this frame's `tick`: `fraction()` and `finished()`. */
  datatype TimerReading = TimerReading(fraction: real, finished: bool)

  predicate ValidReading(r: TimerReading) { 0.0 <= r.fraction <= 1.0 }

  /** The parts of an entity the two systems read and write. */
  datatype EntityState = EntityState(
    rotatable: Option<real>,  // `Rotatable.rotation`, when the entity has that component
    rotate: Option<Rotate>,   // the `Rotate` component, when present
    yaw: real)                // `Transform.rotation`, a turn about y, in quarter turns

  class Entity {
    var rotatable: Option<real>
    var rotate: Option<Rotate>
    var yaw: real

    function State(): EntityState
      reads this
    {
      EntityState(rotatable, rotate, yaw)
    }

    /** The spawned ground entity: `Rotatable { rotation: 0. }`, identity
        rotation, no `Rotate` yet. */
    constructor ()
      ensures State() == EntityState(Some(0.0), None, 0.0)
    {
      rotatable, rotate, yaw := Some(0.0), None, 0.0;
    }
  }

  predicate Distinct(entities: seq<Entity>)
  {
    forall i, j :: 0 <= i < j < |entities| ==> entities[i] != entities[j]
  }

  /** `a % 4.` on `f32`: the remainder of truncated division, which has the
      sign of the dividend. */
  function FMod4(a: real): (r: real)
    ensures a >= 0.0 ==> 0.0 <= r < 4.0
    ensures a < 0.0 ==> -4.0 < r <= 0.0
    ensures IsWhole((a - r) / 4.0)
  {
    if a >= 0.0 then
      var n := (a / 4.0).Floor;
      WholeInt(n);
      assert (a - (a - 4.0 * n as real)) / 4.0 == n as real;
      a - 4.0 * n as real
    else
      var n := (-a / 4.0).Floor;
      WholeInt(-n);
      assert (a + (-a - 4.0 * n as real)) / 4.0 == (-n) as real;
      -(-a - 4.0 * n as real)
  }

  /** The index after a finished turn: `(y + 1.) % 4.`. */
  function NextIndex(y: real): (next: real)
    ensures y >= -1.0 ==> 0.0 <= next < 4.0
    ensures IsWhole((y + 1.0 - next) / 4.0)
  {
    FMod4(y + 1.0)
  }

  /** A whole index in 0..3 advances by one modulo 4. */
  lemma NextIndexCycles(y: int)
    requires 0 <= y < 4
    ensures NextIndex(y as real) == ((y + 1) % 4) as real
  {
    if y == 3 {
      assert (4.0 / 4.0).Floor == 1;
    } else {
      assert ((y + 1) as real / 4.0).Floor == 0;
    }
  }

  /** Four finished turns bring the index back to where it started. */
  lemma FourTurnsReturn(y: int)
    requires 0 <= y < 4
    ensures NextIndex(NextIndex(NextIndex(NextIndex(y as real)))) == y as real
  {
    NextIndexCycles(0);
    NextIndexCycles(1);
    NextIndexCycles(2);
    NextIndexCycles(3);
    assert NextIndex(0.0) == 1.0 && NextIndex(1.0) == 2.0;
    assert NextIndex(2.0) == 3.0 && NextIndex(3.0) == 0.0;
  }

  /** The progress `(fraction * 36.).round() / 36.`: a whole number of
      1/36 steps, in [0, 1], at most half a step from `fraction`. */
  function Quantise(fraction: real): (t: real)
    requires 0.0 <= fraction <= 1.0
    ensures 0.0 <= t <= 1.0
    ensures IsWhole(t * 36.0)
    ensures -1.0 / 72.0 <= t - fraction <= 1.0 / 72.0
  {
    var k := Round(fraction * 36.0);
    RoundMonotone(0.0, fraction * 36.0);
    RoundMonotone(fraction * 36.0, 36.0);
    RoundWhole(0.0);
    RoundWhole(36.0);
    k as real / 36.0
  }

  /** One entity's frame of `rotate`, for an entity that has a `Rotate`. */
  function RotateStep(s: EntityState, r: TimerReading): (s': EntityState)
    requires s.rotate.Some? && ValidReading(r)
    ensures s'.rotatable.Some? <==> s.rotatable.Some?
    ensures !r.finished ==> s'.rotatable == s.rotatable && s'.rotate == s.rotate
    ensures !r.finished ==>
      s'.yaw == (if s.rotatable.Some? then s.rotatable.value else 0.0) + Quantise(r.fraction)
    ensures r.finished ==> (s'.rotate.None? <==> s.rotate.value.mode == Once)
    ensures r.finished ==> s'.rotate.None? || s'.rotate == s.rotate
    ensures r.finished && s'.rotatable.Some? ==> s'.yaw == s'.rotatable.value
    ensures r.finished && s.rotatable.None? ==> s'.yaw == 0.0
  {
    var y := if s.rotatable.Some? then s.rotatable.value else 0.0;
    if !r.finished then
      s.(yaw := y + Quantise(r.fraction))
    else
      var y' := if s.rotatable.Some? then NextIndex(y) else y;
      EntityState(
        if s.rotatable.Some? then Some(y') else None,
        if s.rotate.value.mode == Once then None else s.rotate,
        y')
  }

  /** While the timer runs, the yaw is the index plus a whole number of
      1/36 steps of a quarter turn, never past the next index, and nothing
      else changes. */
  lemma RotatingInSteps(s: EntityState, r: TimerReading)
    requires s.rotate.Some? && ValidReading(r) && !r.finished
    ensures var y := if s.rotatable.Some? then s.rotatable.value else 0.0;
            var s' := RotateStep(s, r);
            s'.rotatable == s.rotatable && s'.rotate == s.rotate &&
            y <= s'.yaw <= y + 1.0 && IsWhole((s'.yaw - y) * 36.0) &&
            -1.0 / 72.0 <= s'.yaw - y - r.fraction <= 1.0 / 72.0
  {
  }

  /** When the timer finishes, a `Rotatable` entity whose index is a whole
      number in 0..3 moves to the next index modulo 4 and its yaw lands
      exactly on it; a `Once` timer is removed. */
  lemma FinishedTurn(s: EntityState, r: TimerReading, y: int)
    requires s.rotate.Some? && ValidReading(r) && r.finished
    requires s.rotatable == Some(y as real) && 0 <= y < 4
    ensures var s' := RotateStep(s, r);
            s'.rotatable == Some(((y + 1) % 4) as real) &&
            s'.yaw == ((y + 1) % 4) as real &&
            (s.rotate.value.mode == Once <==> s'.rotate.None?)
  {
    NextIndexCycles(y);
  }

  /** An entity without `Rotatable` turns about index 0 and ends at yaw 0. */
  lemma FinishedWithoutRotatable(s: EntityState, r: TimerReading)
    requires s.rotate.Some? && ValidReading(r) && r.finished && s.rotatable.None?
    ensures RotateStep(s, r).yaw == 0.0 && RotateStep(s, r).rotatable.None?
  {
  }

  /** `rotate`. `readings[i]` is the timer of `entities[i]` after this
      frame's tick; entities without a `Rotate` are not in the query and
      stay as they were. The deferred removal of `Rotate` takes effect as
      soon as the entity is processed, which is the same since every
      entity is visited once. */
  method RotateSystem(entities: seq<Entity>, readings: seq<TimerReading>)
    requires Distinct(entities) && |readings| == |entities|
    requires forall i :: 0 <= i < |readings| ==> ValidReading(readings[i])
    modifies set e | e in entities
    ensures forall i :: 0 <= i < |entities| ==>
      entities[i].State() ==
        if old(entities[i].rotate).Some?
        then RotateStep(old(entities[i].State()), readings[i])
        else old(entities[i].State())
  {
    var n := 0;
    while n < |entities|
      invariant 0 <= n <= |entities|
      invariant forall i :: 0 <= i < n ==>
        entities[i].State() ==
          if old(entities[i].rotate).Some?
          then RotateStep(old(entities[i].State()), readings[i])
          else old(entities[i].State())
      invariant forall i :: n <= i < |entities| ==> entities[i].State() == old(entities[i].State())
    {
      var e := entities[n];
      if e.rotate.Some? {
        var y := 0.0;
        if e.rotatable.Some? {
          y := e.rotatable.value;
        }
        var t := Quantise(readings[n].fraction);
        e.yaw := y + t;
        if readings[n].finished {
          if e.rotatable.Some? {
            y := NextIndex(y);
            e.rotatable := Some(y);
          }
          e.yaw := y;
          if e.rotate.value.mode == Once {
            e.rotate := None;
          }
        }
      }
      n := n + 1;
    }
  }

  /** `rotate_rotatable` for one entity: on an R press a `Rotatable`
      without a `Rotate` gets a fresh one; one that is already turning keeps
      its timer, so a press mid-turn does not restart it. */
  function InsertRotate(s: EntityState, pressed: bool): (s': EntityState)
    ensures s'.rotatable == s.rotatable && s'.yaw == s.yaw
    ensures s'.rotate.None? <==> s.rotate.None? && (!pressed || s.rotatable.None?)
    ensures s.rotate.Some? ==> s' == s
    ensures s.rotate.None? && s'.rotate.Some? ==> s'.rotate == Some(NewRotate)
  {
    if pressed && s.rotatable.Some? && s.rotate.None? then s.(rotate := Some(NewRotate)) else s
  }

  /** `rotate_rotatable`. */
  method RotateRotatable(entities: seq<Entity>, rPressed: bool)
    requires Distinct(entities)
    modifies set e | e in entities
    ensures forall i :: 0 <= i < |entities| ==>
      entities[i].State() == InsertRotate(old(entities[i].State()), rPressed)
  {
    var n := 0;
    while n < |entities|
      invariant 0 <= n <= |entities|
      invariant forall i :: 0 <= i < n ==>
        entities[i].State() == InsertRotate(old(entities[i].State()), rPressed)
      invariant forall i :: n <= i < |entities| ==> entities[i].State() == old(entities[i].State())
    {
      var e := entities[n];
      if e.rotatable.Some? && e.rotate.None? {
        if rPressed {
          e.rotate := Some(NewRotate);
        }
      }
      n := n + 1;
    }
  }
}
