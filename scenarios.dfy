/** Clients of the geometry classes that show what the constructors' contracts
    give a caller. */
module Scenarios {
  import opened Common
  import opened Positions
  import opened LineStrings
  import opened Polygons

  /** The polygon of the serialization test: one ring of four positions, the
      last built separately from the same numbers as the first. With a
      comparer that accepts equal values, the polygon is built. */
  method SerializationTestPolygon(cmp: SlotComparer) returns (r: Result<Polygon, GeoError>)
    requires Reflexive(cmp)
    ensures r.Success?
    ensures |r.value.coordinates| == 1 && |r.value.coordinates[0].coordinates| == 4
  {
    var p0 := new GeographicPosition(52.370725881211314, 4.889259338378906, None);
    var p1 := new GeographicPosition(52.3711451105601, 4.895267486572266, None);
    var p2 := new GeographicPosition(52.36931095278263, 4.892091751098633, None);
    var p3 := new GeographicPosition(52.370725881211314, 4.889259338378906, None);
    var line := LineString.Create(Some([p0, p1, p2, p3]));
    var ring := line.value;
    SameSlotsAreEqual(cmp, p0, p3);
    assert ring.IsLinearRing(cmp);
    r := Polygon.Create(cmp, Some([ring]));
  }

  /** An empty ring list is accepted, and the public setter then installs a
      ring of two positions without complaint: the closed-rings guarantee
      holds only at construction. */
  method SetterSkipsRingCheck(cmp: SlotComparer) returns (p: Polygon)
    ensures |p.coordinates| == 1
    ensures !p.Closed(cmp)
  {
    var empty := Polygon.Create(cmp, Some([]));
    p := empty.value;
    var a := new GeographicPosition(0.0, 0.0, None);
    var b := new GeographicPosition(0.0, 1.0, None);
    var line := LineString.Create(Some([a, b]));
    p.SetCoordinates([line.value]);
    assert !p.coordinates[0].IsLinearRing(cmp);
    assert AnyNotLinearRing(cmp, p.coordinates);
  }

  /** The numeric constructor keeps a latitude of 200, which the text
      constructor refuses as out of range. */
  method NumericKeepsOutOfRangeLatitude(parse: Parser) returns (p: GeographicPosition, r: Result<GeographicPosition, GeoError>)
    requires parse("200") == Some(200.0) && parse("0") == Some(0.0)
    ensures p.Valid() && p.Latitude() == 200.0 && p.Longitude() == 0.0 && p.Altitude() == None
    ensures r == Failure(ArgumentOutOfRange("latitude", LatitudeRangeMessage))
  {
    p := new GeographicPosition(200.0, 0.0, None);
    r := GeographicPosition.FromText(parse, Some("200"), Some("0"), None);
    assert !IsBlank("200") by { assert !IsWhiteSpace("200"[0]); }
    assert !IsBlank("0") by { assert !IsWhiteSpace("0"[0]); }
  }
}
