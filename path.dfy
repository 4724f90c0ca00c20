/**
 * The path builder the filter drives ("Electrodeline"), seen as a sink that
 * records, in order, the calls made to it. The geometry it would build from
 * them is not part of this model.
 */
module Path {
  import opened Wrappers
  import opened Ports

  /**
   * One builder call. Every angle the filter passes is a whole number of
   * quarter turns, so an angle is kept as `quarterTurns`, standing for
   * quarterTurns * pi/2 radians (negative is clockwise).
   */
  datatype Instr =
    | ContactPad(quarterTurns: int, padWidth: real, padLength: real, offsetX: real, offsetY: real)
    | Straight(length: real, finalWidth: Option<real>)
    | Bend(quarterTurns: int, radius: real)
    | Tree(quarterTurns: int, treeWidth: real, treeLength: real, offset: real, distance: real, branches: real)

  class Electrodeline {
    var start: Anchor
    var instrs: seq<Instr>

    /** A builder that starts at `port` and has recorded nothing yet. */
    constructor MakeAtPort(port: Anchor)
      ensures start == port && instrs == []
    {
      start := port;
      instrs := [];
    }

    method AddContactpad(anglePad: int, widthPad: real, lengthPad: real, offsetX: real, offsetY: real)
      modifies this
      ensures start == old(start)
      ensures instrs == old(instrs) + [ContactPad(anglePad, widthPad, lengthPad, offsetX, offsetY)]
    {
      instrs := instrs + [ContactPad(anglePad, widthPad, lengthPad, offsetX, offsetY)];
    }

    method AddStraightSegment(length: real, finalWidth: Option<real> := None)
      modifies this
      ensures start == old(start)
      ensures instrs == old(instrs) + [Straight(length, finalWidth)]
    {
      instrs := instrs + [Straight(length, finalWidth)];
    }

    method AddBend(angle: int, radius: real)
      modifies this
      ensures start == old(start)
      ensures instrs == old(instrs) + [Bend(angle, radius)]
    {
      instrs := instrs + [Bend(angle, radius)];
    }

    method AddTree(angleTree: int, widthTree: real, lengthTree: real, offset: real, distance: real, nBranch: real)
      modifies this
      ensures start == old(start)
      ensures instrs == old(instrs) + [Tree(angleTree, widthTree, lengthTree, offset, distance, nBranch)]
    {
      instrs := instrs + [Tree(angleTree, widthTree, lengthTree, offset, distance, nBranch)];
    }
  }
}
