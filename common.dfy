/** Values shared by the geometry classes: optional values, the outcome of a
    constructor that may throw, and the exceptions those constructors throw. */
module Common {

  /** A .NET nullable value or reference: `None` stands for `null`. */
  datatype Option<+T> = None | Some(value: T)

  /** The outcome of a constructor that either builds its object or throws. */
  datatype Result<+T, +E> = Success(value: T) | Failure(error: E)

  /** The two exceptions the modelled constructors throw, with the parameter
      name each one reports and, for the range error, its message. */
  datatype GeoError =
    | ArgumentNull(paramName: string)
    | ArgumentOutOfRange(paramName: string, message: string)

  /** `double.TryParse` with the invariant culture: the number a text denotes,
      or `None` when it does not parse. */
  type Parser = string -> Option<real>
}

/** The `Type` tag every GeoJSON object carries. */
module GeoJSONTypes {

  datatype GeoJSONObjectType =
    | Point
    | MultiPoint
    | LineString
    | MultiLineString
    | Polygon
    | MultiPolygon
    | GeometryCollection
    | Feature
    | FeatureCollection
}
