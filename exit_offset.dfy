/**
 * Where the filter's output port sits: the anchor advanced along its heading
 * by a closed-form offset, computed without tracing the path.
 */
module ExitOffset {
  import opened Ports
  import opened Parameters
  import opened Path
  import opened Layout

  /** Forward distance from the anchor to the output port. */
  function Offset(p: Params): real
  {
    p.baseLength + (2.0 * p.spiralRadius + p.spiralFactor * (p.spiralN + 1.0)) + p.trunkLength + 20.0
  }

  /**
   * The port the filter reports as its output, for an anchor `a`. The cosine
   * and sine of the heading come from the numeric library and are passed in.
   */
  function ExitAnchor(a: Anchor, p: Params, cos: real -> real, sin: real -> real): (e: Anchor)
    ensures e.angle == a.angle && e.width == p.trunkWidth
  {
    var offset := Offset(p);
    Displaced(a.(width := p.trunkWidth), offset * cos(a.angle), offset * sin(a.angle))
  }

  /** For a true cosine and sine, the output port is exactly `Offset` away from the anchor. */
  lemma ExitDistance(a: Anchor, p: Params, cos: real -> real, sin: real -> real)
    requires cos(a.angle) * cos(a.angle) + sin(a.angle) * sin(a.angle) == 1.0
    ensures var e := ExitAnchor(a, p, cos, sin);
      var dx, dy := e.origin.x - a.origin.x, e.origin.y - a.origin.y;
      dx * dx + dy * dy == Offset(p) * Offset(p)
  {
  }

  /**
   * For a true cosine and sine, the move points along the heading: its
   * component along (cos, sin) is `Offset` and its component across it is 0,
   * which together fix the move at `Offset` times (cos, sin).
   */
  lemma ExitAlongHeading(a: Anchor, p: Params, cos: real -> real, sin: real -> real)
    requires cos(a.angle) * cos(a.angle) + sin(a.angle) * sin(a.angle) == 1.0
    ensures var e := ExitAnchor(a, p, cos, sin);
      var dx, dy := e.origin.x - a.origin.x, e.origin.y - a.origin.y;
      var c, s := cos(a.angle), sin(a.angle);
      dx * c + dy * s == Offset(p) && dx * s - dy * c == 0.0
  {
    var c, s := cos(a.angle), sin(a.angle);
    assert Offset(p) * c * c + Offset(p) * s * s == Offset(p) * (c * c + s * s);
  }

  /** On the x axis (heading 0) the output port is `Offset` further along x. */
  lemma ExitOnAxis(a: Anchor, p: Params, cos: real -> real, sin: real -> real)
    requires a.angle == 0.0 && cos(0.0) == 1.0 && sin(0.0) == 0.0
    ensures ExitAnchor(a, p, cos, sin) == Anchor(Point(a.origin.x + Offset(p), a.origin.y), 0.0, p.trunkWidth)
  {
  }

  /**
   * A term-by-term correspondence only: the offset's base length, its 20 and
   * its trunk length are the lengths of the emitted pad and of the three runs
   * between the reversing bend and the tree (10, 10 and the trunk length).
   * The remaining terms, twice the bend radius and `spiralN + 1` spiral
   * factors, are not matched to anything emitted, and nothing here says the
   * output port is where the traced path ends.
   */
  lemma OffsetTerms(p: Params)
    ensures var s := Instructions(p);
      && s[|s| - 4].Straight? && s[|s| - 3].Straight? && s[|s| - 2].Straight?
      && Offset(p) == s[0].padLength + s[|s| - 4].length + s[|s| - 3].length + s[|s| - 2].length
                      + 2.0 * p.spiralRadius + p.spiralFactor * (p.spiralN + 1.0)
  {
  }
}
