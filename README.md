# LC filter trace layout, modelled in Dafny

This project models the `LCfilter` class of gdshelpers (`gdshelpers/parts/rf/lcfilter.py`):
a lumped-element LC filter drawn as one electrode trace made of a contact pad, a
tapered feed, an N-turn rectangular spiral inductor, a trunk and a tree-shaped
capacitor, all placed relative to an anchor port.

What is modelled:

- **Shape parameters** (`Parameters.Params`, `Parameters.Defaults`): the thirteen
  keyword parameters of the constructor with their default values. All are
  `real`: Python accepts any number, and `spiral_n` is used both truncated
  (`int(spiral_n)`) and as it is.
- **The anchor port** (`Ports.Anchor`): origin, heading angle and width, owned by
  the filter.
- **The path builder** (`Path.Electrodeline`): a sink that records every call
  made to it as an `Instr` (contact pad, straight run with an optional final
  width, bend, tree). Every angle the filter passes to it is a whole number of
  quarter turns, so angles are kept as integers `q` meaning `q * pi/2`.
- **The trace layout** (`Layout.Instructions`): the exact ordered list of
  builder calls as a function of the parameters, and
  `LcFilter.LCfilter.GetShapelyObject`, the method that drives a fresh builder
  through the same calls with a `for` loop over the spiral turns and is proved
  to produce exactly that list. `LayoutProperties` proves what the list is made
  of: its length, the legs of every turn, how they grow from turn to turn, the
  closing run of every turn, its bends and its tapers.
- **The output port** (`ExitOffset`, `LcFilter.LCfilter.Port`): the closed-form
  forward offset, the displaced anchor, and the side effect on the stored
  port's width. The cosine and sine of the heading come from the numeric
  library and are parameters here.
- **Construction and accessors** (`Keywords`, `LcFilter.LCfilter`): the
  constructor with its defaults, `make_at_port` (port parameters merged with the
  caller's keywords, port keys deleted, the rest bound to the constructor), and
  the `origin`/`angle`/`width` properties that forward to the owned port.

Behaviour of the code worth knowing, as proved here:

- `int(spiral_n)` truncates, but the last-turn test compares `i + 1` with
  `spiral_n` itself. With a fractional `spiral_n` (say 2.5) the loop runs twice
  and the last turn also takes the "growing" closing run; only a whole
  `spiral_n` shortens the last closing run (`LayoutProperties.ClosingRuns`).
- The offset uses `spiral_n` untruncated.
- `port` overwrites the width of the *stored* anchor with `trunk_width`
  (line 90), not just that of the returned port; a later read of `width`
  sees the trunk width. The model follows the code.
- Every key the port contributes to the `make_at_port` dictionary is deleted
  again, so the constructor receives exactly the caller's keywords other than
  `origin`, `angle` and `width`; every other parameter takes the
  constructor's default, not a value from the port.

## Model

| member | source | states |
|---|---|---|
| Layout.Trunc | gdshelpers/parts/rf/lcfilter.py:106 | `int()` truncates toward zero: for x >= 0 the result t satisfies t <= x < t + 1, for x < 0 it satisfies t - 1 < x <= t |
| Layout.TurnCount | gdshelpers/parts/rf/lcfilter.py:106 | the number of passes of `range(int(spiral_n))`: for spiral_n >= 0 the whole part n with n <= spiral_n < n + 1, and 0 whenever spiral_n < 1 (negative values included) |
| Layout.FirstRun | gdshelpers/parts/rf/lcfilter.py:107 | first leg of pass i: base_width/2 + (i+1)f - (i+1)r |
| Layout.SecondRun | gdshelpers/parts/rf/lcfilter.py:110 | second leg of pass i: base_length + (2i+2)f |
| Layout.ThirdRun | gdshelpers/parts/rf/lcfilter.py:113 | third leg of pass i: base_width + (2i+2)f |
| Layout.FourthRun | gdshelpers/parts/rf/lcfilter.py:116 | fourth leg of pass i: base_length + (2i+3)f |
| Layout.ClosingRun | gdshelpers/parts/rf/lcfilter.py:119-122 | closing run of pass i: base_width/2 + (i+2)r + (i+1)f when i + 1 < spiral_n (compared with the untruncated spiral_n), else base_width/2 + (i+1)f + (1 - 2)r |
| Layout.TurnInstrs | gdshelpers/parts/rf/lcfilter.py:107-122 | the nine calls of pass i in source order: the four legs each followed by a clockwise quarter-turn bend of radius r, then the closing run |
| Layout.Prologue | gdshelpers/parts/rf/lcfilter.py:97-104 | pad (angle 0, base_width, base_length, offsets 0), 0.001-long step to spiral_width, run of spiral_factor, clockwise bend of radius r |
| Layout.Epilogue | gdshelpers/parts/rf/lcfilter.py:124-128 | counter-clockwise bend of radius r, run of 10, 10-long taper to trunk_width, run of trunk_length, tree at +pi/2 with the five tree parameters |
| Layout.Spiral | gdshelpers/parts/rf/lcfilter.py:106-122 | k passes of the spiral loop issue exactly 9k calls |
| Layout.Instructions | gdshelpers/parts/rf/lcfilter.py:93-128 | the layout issues exactly 9n + 9 calls (n = passes of the loop), the first being the contact pad of width base_width and length base_length at angle 0, the last the tree at +pi/2 with the five tree parameters |
| LayoutProperties.SpiralTurn | gdshelpers/parts/rf/lcfilter.py:106-122 | pass i of the loop occupies positions 9i to 9i+8 of the spiral's calls |
| LayoutProperties.InstructionsTurn | gdshelpers/parts/rf/lcfilter.py:97-122 | pass i occupies positions 4+9i to 12+9i of the whole call list, after the four calls of pad, width step, feed run and opening bend |
| LayoutProperties.TurnLegs | gdshelpers/parts/rf/lcfilter.py:107-117 | in pass i the legs are base_width/2 + (i+1)f - (i+1)r, base_length + (2i+2)f, base_width + (2i+2)f, base_length + (2i+3)f, each followed by a clockwise quarter-turn bend of radius spiral_radius |
| LayoutProperties.LegGrowth | gdshelpers/parts/rf/lcfilter.py:107-116 | from pass i to pass i+1 the second, third and fourth legs grow by exactly 2 * spiral_factor and the first by spiral_factor - spiral_radius |
| LayoutProperties.ClosingRuns | gdshelpers/parts/rf/lcfilter.py:119-122 | the closing run of pass i is base_width/2 + (i+2)r + (i+1)f unless it is the last pass and spiral_n is whole, in which case it is base_width/2 + (i+1)f - r |
| LayoutProperties.ClosingRunIsFinalOnlyAtLastTurn | gdshelpers/parts/rf/lcfilter.py:119-122 | for a whole spiral_n, pass i closes with the shortened run if and only if it is the last pass (or the radius is 0, when both formulas agree) |
| LayoutProperties.TwoTurns | gdshelpers/parts/rf/lcfilter.py:119-122 | with spiral_n = 2 the first turn closes with base_width/2 + 2r + f and the second with base_width/2 + 2f - r |
| LayoutProperties.NoTurns | gdshelpers/parts/rf/lcfilter.py:97-128 | when int(spiral_n) <= 0 the call list is exactly pad, step to spiral_width, run of spiral_factor, clockwise bend, counter-clockwise bend, run of 10, taper over 10 to trunk_width, run of trunk_length, tree |
| LayoutProperties.TurnBends | gdshelpers/parts/rf/lcfilter.py:107-117 | one pass bends exactly four times, each a clockwise quarter turn of radius spiral_radius |
| LayoutProperties.SpiralBends | gdshelpers/parts/rf/lcfilter.py:106-117 | k passes bend exactly 4k times, all clockwise quarter turns of radius spiral_radius |
| LayoutProperties.InstructionBends | gdshelpers/parts/rf/lcfilter.py:104-124 | the whole list bends exactly 4n + 2 times, all with radius spiral_radius: 4n + 1 clockwise quarter turns, then one counter-clockwise quarter turn last |
| LayoutProperties.SpiralTapers | gdshelpers/parts/rf/lcfilter.py:106-122 | no straight run inside the spiral changes the width |
| LayoutProperties.PrologueTapers | gdshelpers/parts/rf/lcfilter.py:97-104 | before the spiral, only the 0.001-long step to spiral_width changes the width |
| LayoutProperties.EpilogueTapers | gdshelpers/parts/rf/lcfilter.py:124-128 | after the spiral, only the 10-long taper to trunk_width changes the width |
| LayoutProperties.InstructionTapers | gdshelpers/parts/rf/lcfilter.py:102-127 | exactly two straight runs of the whole list change the width, in order the step to spiral_width and the taper to trunk_width; every other run keeps it |
| ExitOffset.Offset | gdshelpers/parts/rf/lcfilter.py:86-87 | the forward offset base_length + (2r + f(spiral_n + 1)) + trunk_length + 20, with spiral_n untruncated |
| ExitOffset.ExitAnchor | gdshelpers/parts/rf/lcfilter.py:84-91 | the output port keeps the anchor's heading and has width trunk_width; the length and direction of its move are stated by ExitDistance and ExitAlongHeading |
| ExitOffset.ExitDistance | gdshelpers/parts/rf/lcfilter.py:85-89 | for a true cosine and sine of the heading, the output port lies at distance exactly offset = base_length + 2r + f(spiral_n + 1) + trunk_length + 20 from the anchor |
| ExitOffset.ExitAlongHeading | gdshelpers/parts/rf/lcfilter.py:85-91 | for a true cosine and sine of the heading, the move from the anchor to the output port is offset along the heading and 0 across it, i.e. exactly offset times (cos, sin) |
| ExitOffset.ExitOnAxis | gdshelpers/parts/rf/lcfilter.py:85-91 | at heading 0 the output port is the anchor moved by the offset along x, with width trunk_width |
| ExitOffset.OffsetTerms | gdshelpers/parts/rf/lcfilter.py:86-87 | term by term only: the offset's base_length, 20 and trunk_length are the emitted pad length and the three runs after the reversing bend (10, 10, trunk_length); the 2r + f(spiral_n + 1) part is not matched to the path |
| Keywords.MergeKwargs | gdshelpers/parts/rf/lcfilter.py:47-51 | the dictionary left after merging and deleting has exactly the caller's keys other than origin, angle and width, each with the caller's value |
| Keywords.BindKeywords | gdshelpers/parts/rf/lcfilter.py:19-23 | binding succeeds if and only if every keyword names a constructor parameter and is a number; an unknown keyword is reported as such |
| Keywords.BoundFields | gdshelpers/parts/rf/lcfilter.py:19-23 | on success each parameter is its keyword's value if that keyword is given, else its default |
| Keywords.PortKeysDiscarded | gdshelpers/parts/rf/lcfilter.py:47-53 | the constructor's keywords do not depend on the port nor on any origin, angle or width keyword |
| Keywords.OnlyTrunkLength | gdshelpers/parts/rf/lcfilter.py:46-53 | overriding only trunk_length yields the default parameters with that trunk_length |
| LcFilter.LCfilter.constructor | gdshelpers/parts/rf/lcfilter.py:19-43 | the stored port is (origin, angle, width) and every parameter takes its argument or its default |
| LcFilter.LCfilter.MakeAtPort | gdshelpers/parts/rf/lcfilter.py:45-53 | the new filter's port is the given port's origin, angle and width, its parameters are the bound keywords; binding errors are returned as errors |
| LcFilter.LCfilter.Origin | gdshelpers/parts/rf/lcfilter.py:59-61 | the `origin` property reads the owned port's origin |
| LcFilter.LCfilter.Angle | gdshelpers/parts/rf/lcfilter.py:67-69 | the `angle` property reads the owned port's angle |
| LcFilter.LCfilter.Width | gdshelpers/parts/rf/lcfilter.py:75-77 | the `width` property reads the owned port's width |
| LcFilter.LCfilter.SetOrigin | gdshelpers/parts/rf/lcfilter.py:59-65 | reading origin after writing it returns the written value; only the stored port's origin changes |
| LcFilter.LCfilter.SetAngle | gdshelpers/parts/rf/lcfilter.py:67-73 | reading angle after writing it returns the written value; only the stored port's angle changes |
| LcFilter.LCfilter.SetWidth | gdshelpers/parts/rf/lcfilter.py:75-81 | reading width after writing it returns the written value; only the stored port's width changes |
| LcFilter.LCfilter.Port | gdshelpers/parts/rf/lcfilter.py:83-91 | returns the output port of the anchor as it was; the stored port's width becomes trunk_width while its origin, its angle and the parameters stay |
| LcFilter.LCfilter.AddTurn | gdshelpers/parts/rf/lcfilter.py:107-122 | one pass of the loop appends exactly that pass's nine calls to the builder |
| LcFilter.LCfilter.GetShapelyObject | gdshelpers/parts/rf/lcfilter.py:93-128 | the builder starts at the filter's current port (origin, angle and width, line 94) and the calls it receives are exactly the call list of the current parameters |

## Left out

- The final `geometric_union` (line 130) and everything shapely does: the model stops at the list of builder calls, which `GetShapelyObject` returns instead of a polygon.
- What the builder makes of the calls (positions, headings, polygons) and the tree generator: the builder's code is not part of this model, so it is only a recorder of calls.
- Whether the output port coincides with the end of the traced path: the code does not promise it, and the pad and tree displacements depend on builder code that is not part of this model.
- The port type's internals: `get_parameters` is taken to return exactly origin, angle and width, and `deltax`/`deltay` to return a displaced copy.
- Floating point: parameters and lengths are exact reals; rounding is not modelled. The numeric library's cosine and sine are parameters of `Port`.
- BindKeywords: rejects a shape parameter whose value is not a number, whereas Python stores any object; a non-number then fails in the filter's own arithmetic (gdshelpers/parts/rf/lcfilter.py:86-87, 106-122, for spiral_radius, spiral_factor, spiral_n, base_length, base_width and trunk_length) or is passed on unchecked to the builder (spiral_width, trunk_width and the five tree values).
- Electrode aliasing: the anchor port is a value owned by the filter; sharing the port object with other code is not modelled.
- The unused imports (`collections`, `scipy.interpolate`, `numpy.linalg`, `find_line_intersection`, `normalize_phase`); there is no I/O or concurrency.
