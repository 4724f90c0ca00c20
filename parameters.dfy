/** The shape parameters of an LC filter and their default values. */
module Parameters {
  /**
   * Every parameter is a number; `spiralN` and `treeBranch` are integers by
   * default but any number is accepted, so they are reals here as well.
   */
  datatype Params = Params(
    spiralWidth: real, spiralRadius: real, spiralFactor: real, spiralN: real,
    baseLength: real, baseWidth: real,
    trunkWidth: real, trunkLength: real,
    treeWidth: real, treeLength: real, treeOffset: real, treeDistance: real, treeBranch: real)

  /** The keyword defaults of the filter's constructor. */
  const Defaults: Params :=
    Params(4.5, 10.0, 6.0, 4.0,
           300.0, 250.0,
           10.0, 250.0,
           2.5, 220.0, 5.0, 8.0, 30.0)
}
