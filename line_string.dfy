/** The GeoJSON LineString (section 3.1.4 of RFC 7946): two or more positions,
    and the linear-ring test of section 3.1.6 that polygons rely on. */
module LineStrings {
  import opened Common
  import opened Positions
  import GeoJSONTypes

  const MinPositionsMessage := "According to the GeoJSON v1.0 spec a LineString must have at least two or more positions."

  /** Every position of the list has its three slots. */
  predicate AllValid(positions: seq<GeographicPosition>) {
    forall i | 0 <= i < |positions| :: positions[i].Valid()
  }

  class LineString {
    /** `Coordinates`: its setter is private and only the constructor uses it. */
    const coordinates: seq<GeographicPosition>
    const Type: GeoJSONTypes.GeoJSONObjectType

    /** The object invariant the constructor's guards establish. */
    predicate Valid() {
      && |coordinates| >= 2
      && AllValid(coordinates)
      && Type == GeoJSONTypes.LineString
    }

    /** The slots of the positions, which the linear-ring test reads. */
    ghost function Repr(): set<object> {
      set i | 0 <= i < |coordinates| :: coordinates[i].coordinates
    }

    /** The two assignments the constructor makes once its guards have passed. */
    constructor Store(coordinates: seq<GeographicPosition>)
      ensures this.coordinates == coordinates
      ensures Type == GeoJSONTypes.LineString
    {
      this.coordinates := coordinates;
      Type := GeoJSONTypes.LineString;
    }

    /** The constructor: a null list fails first, then a list of fewer than two
        positions; any other list is stored as it is. */
    static method Create(coordinates: Option<seq<GeographicPosition>>) returns (r: Result<LineString, GeoError>)
      requires coordinates.Some? ==> AllValid(coordinates.value)
      ensures coordinates.None? ==> r == Failure(ArgumentNull("coordinates"))
      ensures coordinates.Some? && |coordinates.value| < 2 ==>
                r == Failure(ArgumentOutOfRange("coordinates", MinPositionsMessage))
      ensures r.Success? <==> coordinates.Some? && |coordinates.value| >= 2
      ensures r.Success? ==>
                && fresh(r.value) && r.value.Valid()
                && r.value.coordinates == coordinates.value
                && r.value.Type == GeoJSONTypes.LineString
    {
      if coordinates.None? {
        return Failure(ArgumentNull("coordinates"));
      }
      if |coordinates.value| < 2 {
        return Failure(ArgumentOutOfRange("coordinates", MinPositionsMessage));
      }
      var line := new LineString.Store(coordinates.value);
      return Success(line);
    }

    /** `IsLinearRing()`: at least four positions, and the first equals the
        last under the position equality. It only reads. */
    function IsLinearRing(cmp: SlotComparer): (r: bool)
      requires Valid()
      reads Repr()
      ensures |coordinates| < 4 ==> !r
      ensures |coordinates| >= 4 && coordinates[0] == coordinates[|coordinates| - 1] ==> r
      ensures |coordinates| >= 4 && coordinates[0] != coordinates[|coordinates| - 1] ==>
                (r <==> forall k | 0 <= k < 3 ::
                          cmp(coordinates[0].coordinates[k], coordinates[|coordinates| - 1].coordinates[k]))
    {
      |coordinates| >= 4 && coordinates[0].EqualsObject(cmp, PositionRef(coordinates[|coordinates| - 1]))
    }
  }
}
