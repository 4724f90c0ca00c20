/**
 * The LC filter object: its anchor port, its shape parameters, the accessors
 * that forward to the port, the output port and the path it lays out.
 */
module LcFilter {
  import opened Wrappers
  import opened Ports
  import opened Parameters
  import opened Path
  import opened Layout
  import opened ExitOffset
  import opened Keywords

  class LCfilter {
    /** The port the filter is anchored at; it is owned by the filter alone. */
    var originPort: Anchor

    var spiralRadius: real
    var spiralFactor: real
    var spiralN: real
    var spiralWidth: real

    var baseLength: real
    var baseWidth: real

    var trunkWidth: real
    var trunkLength: real

    var treeWidth: real
    var treeLength: real
    var treeOffset: real
    var treeDistance: real
    var treeBranch: real

    /** The shape parameters currently held by the filter. */
    function ShapeParams(): Params
      reads this
    {
      Params(spiralWidth, spiralRadius, spiralFactor, spiralN,
             baseLength, baseWidth, trunkWidth, trunkLength,
             treeWidth, treeLength, treeOffset, treeDistance, treeBranch)
    }

    constructor (origin: Point, angle: real, width: real,
                 spiralWidth: real := Defaults.spiralWidth,
                 spiralRadius: real := Defaults.spiralRadius,
                 spiralFactor: real := Defaults.spiralFactor,
                 spiralN: real := Defaults.spiralN,
                 baseLength: real := Defaults.baseLength,
                 baseWidth: real := Defaults.baseWidth,
                 trunkWidth: real := Defaults.trunkWidth,
                 trunkLength: real := Defaults.trunkLength,
                 treeWidth: real := Defaults.treeWidth,
                 treeLength: real := Defaults.treeLength,
                 treeOffset: real := Defaults.treeOffset,
                 treeDistance: real := Defaults.treeDistance,
                 treeBranch: real := Defaults.treeBranch)
      ensures originPort == Anchor(origin, angle, width)
      ensures ShapeParams() ==
        Params(spiralWidth, spiralRadius, spiralFactor, spiralN,
               baseLength, baseWidth, trunkWidth, trunkLength,
               treeWidth, treeLength, treeOffset, treeDistance, treeBranch)
    {
      originPort := Anchor(origin, angle, width);

      this.spiralRadius := spiralRadius;
      this.spiralFactor := spiralFactor;
      this.spiralN := spiralN;
      this.spiralWidth := spiralWidth;

      this.baseLength := baseLength;
      this.baseWidth := baseWidth;

      this.trunkWidth := trunkWidth;
      this.trunkLength := trunkLength;

      this.treeWidth := treeWidth;
      this.treeLength := treeLength;
      this.treeOffset := treeOffset;
      this.treeDistance := treeDistance;
      this.treeBranch := treeBranch;
    }

    /**
     * A filter at the position, angle and width of `port`, with the caller's
     * keywords for the shape; any `origin`, `angle` or `width` keyword is
     * dropped.
     */
    static method MakeAtPort(port: Anchor, kwargs: map<string, Value>) returns (r: Result<LCfilter, BindError>)
      ensures r.Err? ==> BindKeywords(MergeKwargs(port, kwargs)) == Err(r.error)
      ensures r.Ok? ==> && fresh(r.value)
                        && r.value.originPort == port
                        && BindKeywords(MergeKwargs(port, kwargs)) == Ok(r.value.ShapeParams())
    {
      var defaultPortParam := PortParameters(port);
      defaultPortParam := defaultPortParam + kwargs;
      assert PortKeys <= defaultPortParam.Keys;
      defaultPortParam := defaultPortParam - {"origin"};
      defaultPortParam := defaultPortParam - {"angle"};
      defaultPortParam := defaultPortParam - {"width"};
      assert defaultPortParam == MergeKwargs(port, kwargs);

      match BindKeywords(defaultPortParam)
      case Err(e) =>
        r := Err(e);
      case Ok(p) =>
        var filter := new LCfilter(port.origin, port.angle, port.width,
                                   p.spiralWidth, p.spiralRadius, p.spiralFactor, p.spiralN,
                                   p.baseLength, p.baseWidth, p.trunkWidth, p.trunkLength,
                                   p.treeWidth, p.treeLength, p.treeOffset, p.treeDistance, p.treeBranch);
        r := Ok(filter);
    }

    function Origin(): Point
      reads this
    {
      originPort.origin
    }

    /** Writing the origin writes the owned port's origin and nothing else. */
    method SetOrigin(origin: Point)
      modifies this
      ensures Origin() == origin
      ensures originPort == old(originPort).(origin := origin)
      ensures ShapeParams() == old(ShapeParams())
    {
      originPort := originPort.(origin := origin);
    }

    function Angle(): real
      reads this
    {
      originPort.angle
    }

    /** Writing the angle writes the owned port's angle and nothing else. */
    method SetAngle(angle: real)
      modifies this
      ensures Angle() == angle
      ensures originPort == old(originPort).(angle := angle)
      ensures ShapeParams() == old(ShapeParams())
    {
      originPort := originPort.(angle := angle);
    }

    function Width(): real
      reads this
    {
      originPort.width
    }

    /** Writing the width writes the owned port's width and nothing else. */
    method SetWidth(width: real)
      modifies this
      ensures Width() == width
      ensures originPort == old(originPort).(width := width)
      ensures ShapeParams() == old(ShapeParams())
    {
      originPort := originPort.(width := width);
    }

    /**
     * The output port: the anchor moved `Offset` along its heading, at the
     * trunk width. As a side effect the stored port's width becomes the trunk
     * width; its origin and angle are left alone.
     */
    method Port(cos: real -> real, sin: real -> real) returns (exit: Anchor)
      modifies this
      ensures exit == ExitAnchor(old(originPort), ShapeParams(), cos, sin)
      ensures originPort == old(originPort).(width := trunkWidth)
      ensures ShapeParams() == old(ShapeParams())
    {
      var angle := Angle();
      var offset := baseLength + (2.0 * spiralRadius + spiralFactor * (spiralN + 1.0)) + trunkLength + 20.0;
      var deltax := offset * cos(angle);
      var deltay := offset * sin(angle);
      originPort := originPort.(width := trunkWidth);
      exit := Displaced(originPort, deltax, deltay);
    }

    /**
     * One pass of the spiral loop: four straight legs, each followed by a
     * clockwise quarter-turn bend, and the closing run, whose length depends on
     * whether `i + 1` is still below `spiralN`.
     */
    static method AddTurn(path: Electrodeline, p: Params, i: nat)
      modifies path
      ensures path.start == old(path.start)
      ensures path.instrs == old(path.instrs) + TurnInstrs(p, i)
    {
      ghost var turn := TurnInstrs(p, i);
      assert p.baseWidth / 2.0 + (i + 1) as real * p.spiralFactor - (i + 1) as real * p.spiralRadius == FirstRun(p, i);
      path.AddStraightSegment(p.baseWidth / 2.0 + (i + 1) as real * p.spiralFactor - (i + 1) as real * p.spiralRadius);
      path.AddBend(-1, p.spiralRadius);
      assert path.instrs == old(path.instrs) + turn[..2];

      assert p.baseLength + (2 * i + 2) as real * p.spiralFactor == SecondRun(p, i);
      path.AddStraightSegment(p.baseLength + (2 * i + 2) as real * p.spiralFactor);
      path.AddBend(-1, p.spiralRadius);
      assert path.instrs == old(path.instrs) + turn[..4];

      assert p.baseWidth + (2 * i + 2) as real * p.spiralFactor == ThirdRun(p, i);
      path.AddStraightSegment(p.baseWidth + (2 * i + 2) as real * p.spiralFactor);
      path.AddBend(-1, p.spiralRadius);
      assert path.instrs == old(path.instrs) + turn[..6];

      assert p.baseLength + (2 * i + 3) as real * p.spiralFactor == FourthRun(p, i);
      path.AddStraightSegment(p.baseLength + (2 * i + 3) as real * p.spiralFactor);
      path.AddBend(-1, p.spiralRadius);
      assert path.instrs == old(path.instrs) + turn[..8];

      if (i + 1) as real < p.spiralN {
        assert p.baseWidth / 2.0 + (i + 2) as real * p.spiralRadius + (i + 1) as real * p.spiralFactor == ClosingRun(p, i);
        path.AddStraightSegment(p.baseWidth / 2.0 + (i + 2) as real * p.spiralRadius + (i + 1) as real * p.spiralFactor);
      } else {
        assert p.baseWidth / 2.0 + (i + 1) as real * p.spiralFactor + (1.0 - 2.0) * p.spiralRadius == ClosingRun(p, i);
        path.AddStraightSegment(p.baseWidth / 2.0 + (i + 1) as real * p.spiralFactor + (1.0 - 2.0) * p.spiralRadius);
      }
      assert turn == turn[..8] + [turn[8]];
    }

    /**
     * Lays the path out on a fresh builder anchored at the filter's port as it
     * currently is (including a width that `Port` may have overwritten) and
     * returns that start and the calls the builder received: exactly
     * `Instructions` of the current parameters. The parameters are read once
     * into `p`; nothing changes them while the path is laid out.
     */
    method GetShapelyObject() returns (start: Anchor, instrs: seq<Instr>)
      ensures start == originPort
      ensures instrs == Instructions(ShapeParams())
    {
      var p := ShapeParams();
      var path := new Electrodeline.MakeAtPort(originPort);

      path.AddContactpad(0, p.baseWidth, p.baseLength, 0.0, 0.0);

      path.AddStraightSegment(0.001, Some(p.spiralWidth));
      path.AddStraightSegment(p.spiralFactor);
      path.AddBend(-1, p.spiralRadius);
      assert path.instrs == Prologue(p);

      var n := Trunc(p.spiralN);
      var turns := if n < 0 then 0 else n;
      for i := 0 to turns
        invariant path.start == originPort
        invariant path.instrs == Prologue(p) + Spiral(p, i)
      {
        AddTurn(path, p, i);
        assert Spiral(p, i + 1) == Spiral(p, i) + TurnInstrs(p, i);
      }
      assert turns == TurnCount(p);
      ghost var body := path.instrs;

      path.AddBend(1, p.spiralRadius);
      path.AddStraightSegment(10.0);
      path.AddStraightSegment(10.0, Some(p.trunkWidth));
      path.AddStraightSegment(p.trunkLength);
      path.AddTree(1, p.treeWidth, p.treeLength, p.treeOffset, p.treeDistance, p.treeBranch);
      assert path.instrs == body + Epilogue(p);

      start, instrs := path.start, path.instrs;
    }
  }
}
