/**
 * The instruction sequence the filter issues to its path builder: pad, taper
 * into the spiral, the spiral turns, the reversing bend, the trunk and the
 * tree, as a function of the shape parameters.
 */
module Layout {
  import opened Wrappers
  import opened Parameters
  import opened Path

  /** Python's `int()` on a number: truncation toward zero. */
  function Trunc(x: real): (t: int)
    ensures 0.0 <= x ==> 0 <= t && t as real <= x < t as real + 1.0
    ensures x < 0.0 ==> t <= 0 && t as real - 1.0 < x <= t as real
  {
    if x >= 0.0 then x.Floor else -((-x).Floor)
  }

  /** How many times `range(int(spiral_n))` runs: never for a bound below one. */
  function TurnCount(p: Params): (n: nat)
    ensures 0.0 <= p.spiralN ==> n as real <= p.spiralN < n as real + 1.0
    ensures p.spiralN < 1.0 ==> n == 0
  {
    var t := Trunc(p.spiralN);
    if t < 0 then 0 else t
  }

  /** The four straight legs of turn `i` and its closing run. */
  function FirstRun(p: Params, i: nat): real
  {
    p.baseWidth / 2.0 + (i + 1) as real * p.spiralFactor - (i + 1) as real * p.spiralRadius
  }

  function SecondRun(p: Params, i: nat): real
  {
    p.baseLength + (2 * i + 2) as real * p.spiralFactor
  }

  function ThirdRun(p: Params, i: nat): real
  {
    p.baseWidth + (2 * i + 2) as real * p.spiralFactor
  }

  function FourthRun(p: Params, i: nat): real
  {
    p.baseLength + (2 * i + 3) as real * p.spiralFactor
  }

  /** The turn index is compared with `spiral_n` itself, not with its truncation. */
  function ClosingRun(p: Params, i: nat): real
  {
    if (i + 1) as real < p.spiralN then
      p.baseWidth / 2.0 + (i + 2) as real * p.spiralRadius + (i + 1) as real * p.spiralFactor
    else
      p.baseWidth / 2.0 + (i + 1) as real * p.spiralFactor + (1.0 - 2.0) * p.spiralRadius
  }

  /** A clockwise quarter-turn bend of the spiral's radius. */
  function SpiralBend(p: Params): Instr
  {
    Bend(-1, p.spiralRadius)
  }

  /** The nine calls of one pass of the spiral loop. */
  function TurnInstrs(p: Params, i: nat): seq<Instr>
  {
    [Straight(FirstRun(p, i), None), SpiralBend(p),
     Straight(SecondRun(p, i), None), SpiralBend(p),
     Straight(ThirdRun(p, i), None), SpiralBend(p),
     Straight(FourthRun(p, i), None), SpiralBend(p),
     Straight(ClosingRun(p, i), None)]
  }

  /** The calls of the first `k` passes of the spiral loop, in order. */
  function Spiral(p: Params, k: nat): (s: seq<Instr>)
    ensures |s| == 9 * k
  {
    if k == 0 then [] else Spiral(p, k - 1) + TurnInstrs(p, k - 1)
  }

  /** Pad, taper to the spiral width, feed run and the bend opening the spiral. */
  function Prologue(p: Params): seq<Instr>
  {
    [ContactPad(0, p.baseWidth, p.baseLength, 0.0, 0.0),
     Straight(0.001, Some(p.spiralWidth)),
     Straight(p.spiralFactor, None),
     SpiralBend(p)]
  }

  /** Reversing bend, trunk taper and run, and the tree opening at +pi/2. */
  function Epilogue(p: Params): seq<Instr>
  {
    [Bend(1, p.spiralRadius),
     Straight(10.0, None),
     Straight(10.0, Some(p.trunkWidth)),
     Straight(p.trunkLength, None),
     Tree(1, p.treeWidth, p.treeLength, p.treeOffset, p.treeDistance, p.treeBranch)]
  }

  /** Every call the filter makes to its path builder, in order. */
  function Instructions(p: Params): (s: seq<Instr>)
    ensures |s| == 9 * TurnCount(p) + 9
    ensures s[0] == ContactPad(0, p.baseWidth, p.baseLength, 0.0, 0.0)
    ensures s[|s| - 1] == Tree(1, p.treeWidth, p.treeLength, p.treeOffset, p.treeDistance, p.treeBranch)
  {
    Prologue(p) + Spiral(p, TurnCount(p)) + Epilogue(p)
  }

  /** The calls of `s` that `keep` selects, in their order. */
  function Select(s: seq<Instr>, keep: Instr -> bool): (r: seq<Instr>)
    ensures |r| <= |s|
  {
    if s == [] then []
    else (if keep(s[0]) then [s[0]] else []) + Select(s[1..], keep)
  }

  predicate IsBend(x: Instr)
  {
    x.Bend?
  }

  /** A straight run that ends at a new width. */
  predicate IsTaper(x: Instr)
  {
    x.Straight? && x.finalWidth.Some?
  }
}
