/**
 * The collection of obstacle pipes: construction, restart, the per-frame
 * update that scrolls the pipes left and replaces those that left the
 * screen, and the per-frame paint that places every pipe.
 */
module PipeCollection {
  import opened SinglePipe

  /** `self.speed as i32`: the speed is the float 4.0, which the cast truncates to 4. */
  const Speed: i32 := 4

  /** How many updates a freshly spawned pipe survives: `800 - 4 * 212 + 50 > 0 >= 800 - 4 * 213 + 50`. */
  const Lifetime: nat := 212

  /** Neither `p.x -= speed` nor `p.x + p.w` overflows an `i32`. */
  predicate Movable(p: Pipe) {
    I32_MIN <= p.x - Speed && I32_MIN <= p.x - Speed + p.w <= I32_MAX
  }

  /** A pipe that can be on screen: of the game's shape, not right of its spawn point, not yet gone past the left edge. */
  predicate Live(p: Pipe) {
    Shaped(p) && p.x <= SpawnX && p.x + p.w > 0
  }

  predicate AllInRange(ds: seq<Draw>) {
    forall i :: 0 <= i < |ds| ==> ds[i].InRange()
  }

  predicate AllMovable(ps: seq<Pipe>) {
    forall i :: 0 <= i < |ps| ==> Movable(ps[i])
  }

  /** A live pipe moves and paints without overflow. */
  lemma LiveIsMovable(p: Pipe)
    requires Live(p)
    ensures Movable(p) && Paintable(p)
  {
  }

  /**
   * What one pass of the loop in `Pipes::update` does to one slot: move the
   * pipe left by the speed, keep it while its right edge is on screen, and
   * otherwise put a pipe spawned from `d` in its place.
   */
  function Step(p: Pipe, d: Draw): (r: Pipe)
    requires Movable(p) && d.InRange()
    ensures r.x + r.w > 0
    ensures r == p.(x := p.x - Speed) || SpawnShaped(r)
  {
    var moved := p.(x := p.x - Speed);
    if moved.x + moved.w > 0 then moved else Spawn(d)
  }

  /**
   * The vector `Pipes::update` builds: slot by slot, pushing the result of
   * `Step` for each pipe in order. `ds[i]` is what the spawn in slot `i`
   * draws if the pipe there expires.
   */
  function Updated(ps: seq<Pipe>, ds: seq<Draw>): (r: seq<Pipe>)
    requires |ds| == |ps| && AllMovable(ps) && AllInRange(ds)
    ensures |r| == |ps|
    ensures forall i :: 0 <= i < |r| ==> r[i].x + r[i].w > 0
  {
    if ps == [] then []
    else Updated(ps[..|ps| - 1], ds[..|ds| - 1]) + [Step(ps[|ps| - 1], ds[|ds| - 1])]
  }

  /** Slot `i` of the updated vector comes from slot `i` of the old one, and from nowhere else. */
  lemma {:induction false} UpdatedAt(ps: seq<Pipe>, ds: seq<Draw>, i: int)
    requires |ds| == |ps| && AllMovable(ps) && AllInRange(ds)
    requires 0 <= i < |ps|
    ensures Updated(ps, ds)[i] == Step(ps[i], ds[i])
  {
    if i < |ps| - 1 {
      UpdatedAt(ps[..|ps| - 1], ds[..|ds| - 1], i);
    }
  }

  /** A pipe whose right edge is still on screen after the move survives in its slot, moved left by exactly the speed. */
  lemma {:induction false} UpdatedSurvivor(ps: seq<Pipe>, ds: seq<Draw>, i: int)
    requires |ds| == |ps| && AllMovable(ps) && AllInRange(ds)
    requires 0 <= i < |ps| && ps[i].x - Speed + ps[i].w > 0
    ensures Updated(ps, ds)[i].x == ps[i].x - Speed
    ensures Updated(ps, ds)[i].h == ps[i].h && Updated(ps, ds)[i].w == ps[i].w
    ensures Updated(ps, ds)[i].inverted == ps[i].inverted
  {
    UpdatedAt(ps, ds, i);
  }

  /** A pipe whose right edge leaves the screen is replaced, in the same slot, by a pipe freshly spawned from that slot's draws. */
  lemma {:induction false} UpdatedExpired(ps: seq<Pipe>, ds: seq<Draw>, i: int)
    requires |ds| == |ps| && AllMovable(ps) && AllInRange(ds)
    requires 0 <= i < |ps| && ps[i].x - Speed + ps[i].w <= 0
    ensures Updated(ps, ds)[i] == Spawn(ds[i])
    ensures SpawnShaped(Updated(ps, ds)[i])
  {
    UpdatedAt(ps, ds, i);
  }

  /** If every pipe has the game's width and a height in `[100, 400)`, so does every pipe after the update. */
  lemma {:induction false} UpdatedKeepsShape(ps: seq<Pipe>, ds: seq<Draw>)
    requires |ds| == |ps| && AllMovable(ps) && AllInRange(ds)
    requires forall i :: 0 <= i < |ps| ==> Shaped(ps[i])
    ensures forall i :: 0 <= i < |ps| ==> Shaped(Updated(ps, ds)[i])
  {
    forall i | 0 <= i < |ps|
      ensures Shaped(Updated(ps, ds)[i])
    {
      UpdatedAt(ps, ds, i);
    }
  }

  /** The update keeps every pipe live. */
  lemma {:induction false} UpdatedKeepsLive(ps: seq<Pipe>, ds: seq<Draw>)
    requires |ds| == |ps| && AllInRange(ds)
    requires forall i :: 0 <= i < |ps| ==> Live(ps[i])
    ensures AllMovable(ps)
    ensures forall i :: 0 <= i < |ps| ==> Live(Updated(ps, ds)[i])
  {
    forall i | 0 <= i < |ps|
      ensures Live(Updated(ps, ds)[i])
    {
      UpdatedAt(ps, ds, i);
    }
  }

  /**
   * The pipe in one slot after `|ds|` updates, starting from `p`, where
   * `ds[k]` is what the slot draws in the `k`-th update.
   */
  function Advanced(p: Pipe, ds: seq<Draw>): (r: Pipe)
    requires Live(p) && AllInRange(ds)
    ensures Live(r)
  {
    if ds == [] then p
    else
      var before := Advanced(p, ds[..|ds| - 1]);
      Step(before, ds[|ds| - 1])
  }

  /** A pipe moves left by exactly the speed per update for as long as its right edge stays on screen. */
  lemma {:induction false} AdvancedSurvivor(p: Pipe, ds: seq<Draw>)
    requires Live(p) && AllInRange(ds)
    requires p.x - Speed * |ds| + p.w > 0
    ensures Advanced(p, ds) == p.(x := p.x - Speed * |ds|)
  {
    if ds != [] {
      AdvancedSurvivor(p, ds[..|ds| - 1]);
    }
  }

  /** A spawned pipe scrolls for `Lifetime` updates, from x = 800 down to x = -48. */
  lemma {:induction false} SpawnLifetime(d: Draw, ds: seq<Draw>)
    requires d.InRange() && AllInRange(ds) && |ds| <= Lifetime
    ensures Advanced(Spawn(d), ds) == Spawn(d).(x := SpawnX - Speed * |ds|)
  {
    AdvancedSurvivor(Spawn(d), ds);
  }

  /** The update after those is the one that replaces it with a fresh pipe: a full reset to x = 800, not a continuation. */
  lemma SpawnExpires(d: Draw, ds: seq<Draw>)
    requires d.InRange() && AllInRange(ds) && |ds| == Lifetime + 1
    ensures Advanced(Spawn(d), ds) == Spawn(ds[Lifetime])
  {
    AdvancedSurvivor(Spawn(d), ds[..Lifetime]);
  }

  /** The `Pipes` struct. Its texture is not part of the model; its speed is the constant `Speed`. */
  class Pipes {
    var pipes: seq<Pipe>

    /** The collection is never empty and holds only live pipes. */
    ghost predicate Valid()
      reads this
    {
      |pipes| >= 1 && forall i :: 0 <= i < |pipes| ==> Live(pipes[i])
    }

    /** `Pipes::new`: one freshly spawned pipe, drawn from `d`. */
    constructor (d: Draw)
      requires d.InRange()
      ensures Valid()
      ensures pipes == [Spawn(d)]
    {
      pipes := [Spawn(d)];
    }

    /** `Pipes::restart`: whatever was there, one freshly spawned pipe, drawn from `d`. */
    method Restart(d: Draw)
      requires d.InRange()
      modifies this
      ensures Valid()
      ensures pipes == [Spawn(d)]
    {
      pipes := [Spawn(d)];
    }

    /**
     * `Pipes::update`: builds the next frame's vector slot by slot and then
     * swaps it in. The number of pipes never changes.
     */
    method Update(draws: seq<Draw>)
      requires Valid()
      requires |draws| == |pipes| && AllInRange(draws)
      modifies this
      ensures Valid()
      ensures |pipes| == |old(pipes)|
      ensures pipes == Updated(old(pipes), draws)
    {
      var current := pipes;
      UpdatedKeepsLive(current, draws);
      var remaining: seq<Pipe> := [];
      for i := 0 to |current|
        invariant remaining == Updated(current[..i], draws[..i])
      {
        var p := current[i];
        p := p.(x := p.x - Speed);
        if p.x + p.w > 0 {
          remaining := remaining + [p];
        } else {
          remaining := remaining + [Spawn(draws[i])];
        }
        assert current[..i + 1][..i] == current[..i];
        assert draws[..i + 1][..i] == draws[..i];
      }
      assert current[..|current|] == current;
      assert draws[..|draws|] == draws;
      pipes := remaining;
    }

    /** `Pipes::paint`: the placements of all pipes, drawn in sequence order. */
    method Paint() returns (drawn: seq<Placement>)
      requires Valid()
      ensures |drawn| == |pipes|
      ensures forall i :: 0 <= i < |pipes| ==> Paintable(pipes[i]) && drawn[i] == Place(pipes[i])
    {
      drawn := [];
      for i := 0 to |pipes|
        invariant |drawn| == i
        invariant forall k :: 0 <= k < i ==> Paintable(pipes[k]) && drawn[k] == Place(pipes[k])
      {
        LiveIsMovable(pipes[i]);
        drawn := drawn + [Place(pipes[i])];
      }
    }
  }
}
