/** Values the landmark tool exchanges with the visualisation library, and the
    library calls it makes. The calls are fields of `Library`: functions the
    model knows nothing about beyond their types. */
module Geometry {

  datatype Option<+T> = None | Some(value: T)

  /** A picked location in local data coordinates. The pickers hand it over
      as a list of three coordinates, which Python always treats as true, so
      a slot holding a location is truthy exactly when it is not None. */
  datatype Point = Point(x: real, y: real, z: real)

  /** A 4x4 homogeneous matrix in row-major order. The model never computes
      with its entries. */
  datatype Matrix = Matrix(entries: seq<real>)

  /** The matrix of a freshly created transform. */
  const Identity: Matrix :=
    Matrix([1.0, 0.0, 0.0, 0.0,
            0.0, 1.0, 0.0, 0.0,
            0.0, 0.0, 1.0, 0.0,
            0.0, 0.0, 0.0, 1.0])

  /** The type tag of a transformation on the multi widget's stack. */
  datatype TransformType = TypeLandmark | OtherType(name: string)

  /** One entry of the multi widget's transformation stack. */
  datatype Transformation = Transformation(matrix: Matrix, kind: TransformType)

  /** The three modes of the landmark solver. */
  datatype SolverMode = RigidBody | Similarity | Affine

  /** The library calls the tool makes:
      - `completeTransform`: the composition of a stack of transformations;
      - `transformPoint`: a matrix applied to a point;
      - `solve`: the landmark solver, given a mode (None leaves the solver's
        own default in place), source landmarks and target landmarks;
      - `invert`: the inverse of a matrix. */
  datatype Library = Library(
    completeTransform: seq<Transformation> -> Matrix,
    transformPoint: (Matrix, Point) -> Point,
    solve: (Option<SolverMode>, seq<Point>, seq<Point>) -> Matrix,
    invert: Matrix -> Matrix)
}
