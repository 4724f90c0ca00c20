/**
 * Building the constructor's keyword arguments for `make_at_port`: the port's
 * own parameters, updated with the caller's keywords, minus the three port
 * keys, then bound to the constructor's parameters.
 */
module Keywords {
  import opened Wrappers
  import opened Ports
  import opened Parameters

  /** A keyword argument's value: a number, or a position such as a port's origin. */
  datatype Value = Scalar(val: real) | Coordinates(point: Point)

  /**
   * Why the keywords cannot be bound: a name the constructor does not take
   * (Python's TypeError), or a shape parameter given something other than a number.
   */
  datatype BindError = UnexpectedKeyword | NonNumericValue

  const PortKeys: set<string> := {"origin", "angle", "width"}

  /** The constructor's keyword parameters, with their Python names. */
  const ParamNames: set<string> := {
    "spiral_width", "spiral_radius", "spiral_factor", "spiral_n",
    "base_length", "base_width", "trunk_width", "trunk_length",
    "tree_width", "tree_length", "tree_offset", "tree_distance", "tree_branch"}

  /** The port's `get_parameters()`: its origin, angle and width. */
  function PortParameters(port: Anchor): map<string, Value>
  {
    map["origin" := Coordinates(port.origin), "angle" := Scalar(port.angle), "width" := Scalar(port.width)]
  }

  /**
   * The dictionary `make_at_port` passes on: since every key the port
   * contributes is deleted again, what is left is exactly the caller's
   * keywords other than the port keys.
   */
  function MergeKwargs(port: Anchor, kwargs: map<string, Value>): (m: map<string, Value>)
    ensures m.Keys == kwargs.Keys - PortKeys
    ensures forall k :: k in m ==> m[k] == kwargs[k]
  {
    (PortParameters(port) + kwargs) - PortKeys
  }

  /** The parameter a keyword name sets. */
  function Field(p: Params, name: string): real
    requires name in ParamNames
  {
    match name
    case "spiral_width" => p.spiralWidth
    case "spiral_radius" => p.spiralRadius
    case "spiral_factor" => p.spiralFactor
    case "spiral_n" => p.spiralN
    case "base_length" => p.baseLength
    case "base_width" => p.baseWidth
    case "trunk_width" => p.trunkWidth
    case "trunk_length" => p.trunkLength
    case "tree_width" => p.treeWidth
    case "tree_length" => p.treeLength
    case "tree_offset" => p.treeOffset
    case "tree_distance" => p.treeDistance
    case "tree_branch" => p.treeBranch
  }

  function Lookup(m: map<string, Value>, name: string, default: real): real
    requires name in m ==> m[name].Scalar?
  {
    if name in m then m[name].val else default
  }

  /**
   * Binds keyword arguments to the constructor's parameters: every keyword
   * sets the parameter of its name, every other parameter keeps its default.
   */
  function BindKeywords(m: map<string, Value>): (r: Result<Params, BindError>)
    ensures r.Ok? <==> m.Keys <= ParamNames && forall k :: k in m ==> m[k].Scalar?
    ensures r.Err? && !(m.Keys <= ParamNames) ==> r.error == UnexpectedKeyword
  {
    if !(m.Keys <= ParamNames) then Err(UnexpectedKeyword)
    else if exists k :: k in m && !m[k].Scalar? then Err(NonNumericValue)
    else Ok(Params(
      Lookup(m, "spiral_width", Defaults.spiralWidth),
      Lookup(m, "spiral_radius", Defaults.spiralRadius),
      Lookup(m, "spiral_factor", Defaults.spiralFactor),
      Lookup(m, "spiral_n", Defaults.spiralN),
      Lookup(m, "base_length", Defaults.baseLength),
      Lookup(m, "base_width", Defaults.baseWidth),
      Lookup(m, "trunk_width", Defaults.trunkWidth),
      Lookup(m, "trunk_length", Defaults.trunkLength),
      Lookup(m, "tree_width", Defaults.treeWidth),
      Lookup(m, "tree_length", Defaults.treeLength),
      Lookup(m, "tree_offset", Defaults.treeOffset),
      Lookup(m, "tree_distance", Defaults.treeDistance),
      Lookup(m, "tree_branch", Defaults.treeBranch)))
  }

  /**
   * On success each parameter is the value of the keyword of its name when
   * that keyword is given, and its default otherwise.
   */
  lemma BoundFields(m: map<string, Value>)
    requires BindKeywords(m).Ok?
    ensures forall k :: k in ParamNames ==>
      Field(BindKeywords(m).value, k) == if k in m then m[k].val else Field(Defaults, k)
  {
    var p := BindKeywords(m).value;
    forall k | k in ParamNames
      ensures Field(p, k) == if k in m then m[k].val else Field(Defaults, k)
    {
      assert Field(p, k) == Lookup(m, k, Field(Defaults, k));
    }
  }

  /**
   * Whatever port the filter is made at and whatever the caller passes for
   * `origin`, `angle` and `width`, the constructor receives the same keywords.
   */
  lemma PortKeysDiscarded(port1: Anchor, port2: Anchor, kwargs: map<string, Value>)
    ensures MergeKwargs(port1, kwargs) == MergeKwargs(port2, kwargs - PortKeys)
  {
  }

  /**
   * Overriding only `trunk_length` (besides, possibly, the port keys) leaves
   * every other parameter at the constructor's default.
   */
  lemma OnlyTrunkLength(port: Anchor, kwargs: map<string, Value>, v: real)
    requires kwargs.Keys - PortKeys == {"trunk_length"}
    requires kwargs["trunk_length"] == Scalar(v)
    ensures BindKeywords(MergeKwargs(port, kwargs)) == Ok(Defaults.(trunkLength := v))
  {
    assert MergeKwargs(port, kwargs) == map["trunk_length" := Scalar(v)];
  }
}
