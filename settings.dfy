/** The debug-view cycle of `update_settings`: a counter modulo 3 that a
    Space press advances and that is mirrored into the two `u32` flags of
    every post-processing settings record. The same system appears in
    `src/main.rs` and in `src/pixelate/pixel_cam.rs`. */
module Settings {

  /** `PostProcessSettings`, the record copied to the compositing shader:
      two `u32` flags, each 0 or 1. */
  datatype PostProcessSettings = PostProcessSettings(showDepth: nat, showNormals: nat)

  /** The `ShowSettings` resource: the view mode as an `i32`. */
  class ShowSettings {
    var value: int

    /** Both programs insert the resource with value 0. */
    constructor ()
      ensures value == 0
    {
      value := 0;
    }
  }

  /** Rust's `a % 3` on integers: the remainder takes the sign of the
      dividend (Rust truncates towards zero, unlike Dafny's `%`). */
  function RustRem3(a: int): (r: int)
    ensures -3 < r < 3
    ensures a >= 0 ==> r >= 0
    ensures a <= 0 ==> r <= 0
    ensures (a - r) % 3 == 0
  {
    if a >= 0 then
      a % 3
    else
      var q := (-a) / 3;
      assert a + (-a) % 3 == 3 * -q;
      -((-a) % 3)
  }

  /** One step of the cycle: `(value + 1) % 3`. */
  function Advance(value: int): (next: int)
    ensures -3 < next < 3
    ensures 0 <= value < 3 ==> next == if value == 2 then 0 else value + 1
  {
    RustRem3(value + 1)
  }

  /** The counter after `n` steps. */
  function Cycle(value: int, n: nat): int
  {
    if n == 0 then value else Advance(Cycle(value, n - 1))
  }

  /** The flags of view mode `mode`: mode 1 shows depth, mode 2 shows normals,
      anything else shows neither; never both. */
  function Flags(mode: int): (s: PostProcessSettings)
    ensures s.showDepth == 1 <==> mode == 1
    ensures s.showNormals == 1 <==> mode == 2
    ensures s.showDepth <= 1 && s.showNormals <= 1 && s.showDepth + s.showNormals <= 1
  {
    PostProcessSettings(if mode == 1 then 1 else 0, if mode == 2 then 1 else 0)
  }

  /** Advancing the remainder of `a` gives the remainder of `a + 1`. */
  lemma AdvanceMod3(a: int, c: int)
    requires c == a % 3
    ensures Advance(c) == (a + 1) % 3
  {
    var q := a / 3;
    assert a == 3 * q + c;
    if c == 2 {
      assert a + 1 == 3 * (q + 1);
    } else {
      assert a + 1 == 3 * q + (c + 1);
    }
  }

  /** From a mode in {0, 1, 2} the counter stays in {0, 1, 2} and is the
      ordinary sum modulo 3. */
  lemma {:induction false} CycleInRange(value: int, n: nat)
    requires 0 <= value < 3
    ensures 0 <= Cycle(value, n) < 3
    ensures Cycle(value, n) == (value + n) % 3
  {
    if n > 0 {
      CycleInRange(value, n - 1);
      AdvanceMod3(value + n - 1, Cycle(value, n - 1));
    }
  }

  /** With one settings record, three presses bring the mode back. */
  lemma ThreePressesReturn(value: int)
    requires 0 <= value < 3
    ensures Cycle(value, 3) == value
  {
    CycleInRange(value, 3);
    assert value == 0 || value == 1 || value == 2;
  }

  /** Starting from 0, successive presses show depth, then normals, then
      neither. */
  lemma CycleFromStart()
    ensures Flags(Cycle(0, 1)) == PostProcessSettings(1, 0)
    ensures Flags(Cycle(0, 2)) == PostProcessSettings(0, 1)
    ensures Flags(Cycle(0, 3)) == PostProcessSettings(0, 0)
  {
    CycleInRange(0, 1);
    CycleInRange(0, 2);
    CycleInRange(0, 3);
  }

  /** `update_settings`. On a Space press the counter advances once per
      settings record, and each record gets the flags of the counter value
      reached at its turn; without a press nothing changes. */
  method UpdateSettings(spacePressed: bool, show: ShowSettings, settings: array<PostProcessSettings>)
    modifies show, settings
    ensures !spacePressed ==> show.value == old(show.value) && settings[..] == old(settings[..])
    ensures spacePressed ==> show.value == Cycle(old(show.value), settings.Length)
    ensures spacePressed ==>
      forall i :: 0 <= i < settings.Length ==> settings[i] == Flags(Cycle(old(show.value), i + 1))
  {
    if spacePressed {
      var i := 0;
      while i < settings.Length
        invariant 0 <= i <= settings.Length
        invariant show.value == Cycle(old(show.value), i)
        invariant forall j :: 0 <= j < i ==> settings[j] == Flags(Cycle(old(show.value), j + 1))
      {
        show.value := RustRem3(show.value + 1);
        settings[i] := Flags(show.value);
        i := i + 1;
      }
    }
  }
}
