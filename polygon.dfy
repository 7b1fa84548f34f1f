/** The GeoJSON Polygon (section 3.1.6 of RFC 7946): a list of linear rings,
    the first the exterior boundary and the others holes. */
module Polygons {
  import opened Common
  import opened Positions
  import opened LineStrings
  import GeoJSONTypes

  const NotClosedMessage := "All elements must be closed LineStrings with 4 or more positions (see GeoJSON spec at 'http://geojson.org/geojson-spec.html#linestring')."

  /** Every ring of the list is a constructed LineString. */
  predicate AllRingsValid(rings: seq<LineString>) {
    forall k | 0 <= k < |rings| :: rings[k].Valid()
  }

  /** The position slots of all rings. */
  ghost function RingsRepr(rings: seq<LineString>): set<object> {
    set k, o | 0 <= k < |rings| && o in rings[k].Repr() :: o
  }

  /** The constructor's guard `coordinates.Any(linearRing => !linearRing.IsLinearRing())`,
      walked as `Enumerable.Any` does: ring by ring, stopping at the first
      ring that is not a linear ring. */
  function AnyNotLinearRing(cmp: SlotComparer, rings: seq<LineString>): (r: bool)
    requires AllRingsValid(rings)
    reads RingsRepr(rings)
    ensures r <==> exists k | 0 <= k < |rings| :: !rings[k].IsLinearRing(cmp)
    ensures |rings| == 0 ==> !r
  {
    if |rings| == 0 then false
    else if !rings[0].IsLinearRing(cmp) then true
    else
      assert forall k | 1 <= k < |rings| :: rings[1..][k - 1] == rings[k];
      assert RingsRepr(rings[1..]) <= RingsRepr(rings);
      AnyNotLinearRing(cmp, rings[1..])
  }

  class Polygon {
    /** `Coordinates`: its setter is public and performs no check. */
    var coordinates: seq<LineString>
    const Type: GeoJSONTypes.GeoJSONObjectType

    /** What construction guarantees: every ring is a constructed LineString
        and a linear ring. */
    ghost predicate Closed(cmp: SlotComparer)
      reads this, RingsRepr(coordinates)
    {
      AllRingsValid(coordinates) && !AnyNotLinearRing(cmp, coordinates)
    }

    /** The two assignments the constructor makes once its guards have passed. */
    constructor Store(rings: seq<LineString>)
      ensures coordinates == rings
      ensures Type == GeoJSONTypes.Polygon
    {
      coordinates := rings;
      Type := GeoJSONTypes.Polygon;
    }

    /** The constructor: a null list fails, then a list holding any ring,
        exterior or hole, that is not a linear ring; nothing is assigned
        before both guards pass. */
    static method Create(cmp: SlotComparer, rings: Option<seq<LineString>>) returns (r: Result<Polygon, GeoError>)
      requires rings.Some? ==> AllRingsValid(rings.value)
      ensures rings.None? ==> r == Failure(ArgumentNull("linearRings"))
      ensures rings.Some? && AnyNotLinearRing(cmp, rings.value) ==>
                r == Failure(ArgumentOutOfRange("linearRings", NotClosedMessage))
      ensures r.Success? <==>
                rings.Some? && forall k | 0 <= k < |rings.value| :: rings.value[k].IsLinearRing(cmp)
      ensures r.Success? ==>
                && fresh(r.value) && r.value.Closed(cmp)
                && r.value.coordinates == rings.value
                && r.value.Type == GeoJSONTypes.Polygon
    {
      if rings.None? {
        return Failure(ArgumentNull("linearRings"));
      }
      if AnyNotLinearRing(cmp, rings.value) {
        return Failure(ArgumentOutOfRange("linearRings", NotClosedMessage));
      }
      var polygon := new Polygon.Store(rings.value);
      return Success(polygon);
    }

    /** The public `Coordinates` setter: it replaces the rings without
        checking them, so closed rings are guaranteed only at construction. */
    method SetCoordinates(rings: seq<LineString>)
      modifies this
      ensures coordinates == rings
    {
      coordinates := rings;
    }
  }

  /** A ring list is accepted exactly when its exterior ring is a linear ring
      and its list of holes would be accepted on its own. */
  lemma {:induction false} ExteriorAndHoles(cmp: SlotComparer, exterior: LineString, holes: seq<LineString>)
    requires exterior.Valid() && AllRingsValid(holes)
    ensures AllRingsValid([exterior] + holes)
    ensures !AnyNotLinearRing(cmp, [exterior] + holes) <==>
              exterior.IsLinearRing(cmp) && !AnyNotLinearRing(cmp, holes)
  {
  }
}
