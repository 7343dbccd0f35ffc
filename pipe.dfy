/**
 * One obstacle pipe of the game: its state, how `Pipe::new` spawns a fresh one
 * from two random draws, and the rectangle and flip that `Pipe::paint` hands
 * to the renderer.
 */
module SinglePipe {

  const I32_MIN: int := -0x8000_0000
  const I32_MAX: int := 0x7fff_ffff

  /** Rust's `i32`: the type of every field of a pipe. */
  type i32 = v: int | -0x8000_0000 <= v < 0x8000_0000

  /** Where every pipe starts: the right edge of the 800-pixel-wide screen. */
  const SpawnX: i32 := 800
  /** The width of every pipe. */
  const PipeWidth: i32 := 50
  /** The smallest height; `Pipe::new` adds a draw from `[0, HeightSpan)`. */
  const MinHeight: i32 := 100
  const HeightSpan: int := 300
  /** The orientation draw is taken from `[0, OrientationSpan)`. */
  const OrientationSpan: int := 10
  /** Height of the screen, which non-inverted pipes stand on. */
  const ScreenHeight: i32 := 600

  datatype Pipe = Pipe(x: i32, h: i32, w: i32, inverted: bool)

  /**
   * The two values `Pipe::new` takes from the random number generator, in the
   * order it takes them: first the orientation, then the extra height.
   */
  datatype Draw = Draw(orientation: int, height: int) {
    predicate InRange() {
      0 <= orientation < OrientationSpan && 0 <= height < HeightSpan
    }
  }

  /** Width and height as every pipe of the game has them. */
  predicate Shaped(p: Pipe) {
    p.w == PipeWidth && MinHeight <= p.h < MinHeight + HeightSpan
  }

  /** The invariants of a freshly spawned pipe. */
  predicate SpawnShaped(p: Pipe) {
    Shaped(p) && p.x == SpawnX
  }

  /** `Pipe::new`, with its two random draws given as `d`. */
  function Spawn(d: Draw): (p: Pipe)
    requires d.InRange()
    ensures SpawnShaped(p)
    ensures p.inverted <==> d.orientation > 5
  {
    var inverted := d.orientation > 5;
    Pipe(SpawnX, MinHeight + d.height, PipeWidth, inverted)
  }

  /**
   * The spawn invariants are exact: every pipe that satisfies them is what
   * `Pipe::new` returns for some pair of in-range draws.
   */
  lemma SpawnCoversShape(p: Pipe)
    requires SpawnShaped(p)
    ensures exists d: Draw :: d.InRange() && Spawn(d) == p
  {
    var d := Draw(if p.inverted then OrientationSpan - 1 else 0, p.h - MinHeight);
    assert d.InRange() && Spawn(d) == p;
  }

  /**
   * Exactly 4 of the 10 equally likely orientation draws give an inverted
   * pipe, so a pipe is spawned inverted with probability 2/5, not 1/2.
   */
  lemma InvertedOdds(height: int)
    requires 0 <= height < HeightSpan
    ensures |set o | 0 <= o < OrientationSpan && Spawn(Draw(o, height)).inverted| == 4
  {
    var inverting := set o | 0 <= o < OrientationSpan && Spawn(Draw(o, height)).inverted;
    assert inverting == {6, 7, 8, 9};
  }

  /** The heights `Pipe::new` can give for a fixed orientation draw. */
  function SpawnHeights(orientation: int): set<int>
    requires 0 <= orientation < OrientationSpan
  {
    set r | 0 <= r < HeightSpan :: Spawn(Draw(orientation, r)).h
  }

  /**
   * Each height in `[100, 400)` comes from exactly one height draw, so a
   * uniform draw gives a uniform height over that range.
   */
  lemma HeightsCoverRange(orientation: int)
    requires 0 <= orientation < OrientationSpan
    ensures forall h: int :: h in SpawnHeights(orientation) <==> MinHeight <= h < MinHeight + HeightSpan
    ensures forall r1, r2 :: (0 <= r1 < HeightSpan && 0 <= r2 < HeightSpan &&
              Spawn(Draw(orientation, r1)).h == Spawn(Draw(orientation, r2)).h) ==> r1 == r2
  {
    forall h: int | MinHeight <= h < MinHeight + HeightSpan
      ensures h in SpawnHeights(orientation)
    {
      var r := h - MinHeight;
      assert Spawn(Draw(orientation, r)).h == h;
    }
  }

  /** Where and how a pipe is drawn: the rectangle and the vertical flip. */
  datatype Placement = Placement(x: int, y: int, width: int, height: int, flip: bool)

  /** The `as u32` cast of an `i32`: a reinterpretation of its two's complement bits. */
  function AsU32(v: i32): (r: int)
    ensures 0 <= r < 0x1_0000_0000
    ensures 0 <= v ==> r == v
    ensures v < 0 ==> r == v + 0x1_0000_0000
  {
    v % 0x1_0000_0000
  }

  /** `600 - h` does not overflow an `i32`. */
  predicate Paintable(p: Pipe) {
    ScreenHeight - p.h <= I32_MAX
  }

  /** The rectangle and flip that `Pipe::paint` passes to the renderer. */
  function Place(p: Pipe): (r: Placement)
    requires Paintable(p)
    ensures r.x == p.x && r.flip == p.inverted
    ensures 0 <= p.w ==> r.width == p.w
    ensures 0 <= p.h ==> r.height == p.h
    ensures p.inverted ==> r.y == 0
    ensures !p.inverted ==> r.y == ScreenHeight - p.h
  {
    var rect := Placement(p.x, ScreenHeight - p.h, AsU32(p.w), AsU32(p.h), false);
    if p.inverted then rect.(y := 0, flip := true) else rect
  }

  /**
   * A pipe of the game's shape is drawn inside the screen's height and
   * touches one edge: an upright pipe stands on the bottom edge, an inverted
   * one hangs from the top edge.
   */
  lemma PlacementAnchored(p: Pipe)
    requires Shaped(p)
    ensures Paintable(p)
    ensures 0 < Place(p).y + Place(p).height <= ScreenHeight && 0 <= Place(p).y
    ensures Place(p).flip <==> Place(p).y == 0
    ensures !Place(p).flip <==> Place(p).y + Place(p).height == ScreenHeight
  {
  }
}
