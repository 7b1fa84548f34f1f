# GeoJSON.Net geometry construction, modelled in Dafny

This project models the construction-time validation of three GeoJSON.Net
geometry classes (RFC 7946):

- `GeographicPosition` (section 3.1.1 of RFC 7946), in `position.dfy`. It is a class
  whose private three-slot array of optional numbers holds latitude,
  longitude and altitude. The numeric constructor stores its arguments with no
  check. The text constructor runs an ordered chain of guards: null, blank,
  then parse and range for latitude and longitude. It then stores latitude and
  longitude, and only after that parses an altitude text when one is given. `CheckText` is the specification of that chain and
  `FromText` is the constructor, run guard by guard against it. The equality
  operator `==` (`Equal`), `!=` and both `Equals` overloads are functions over
  the array.
- `LineString` (section 3.1.4 of RFC 7946), in `line_string.dfy`. It has two or more
  positions, and `IsLinearRing` is the linear-ring test of section 3.1.6.
- `Polygon` (section 3.1.6 of RFC 7946), in `polygon.dfy`. Every ring, exterior or
  hole, must pass `IsLinearRing`. Its `Coordinates` setter is public and does no check.

`common.dfy` holds `Option`, `Result`, the two exceptions (`ArgumentNull` and
`ArgumentOutOfRange`, with the parameter name and message the source reports)
and the `GeoJSONObjectType` tag. `scenarios.dfy` holds three client methods. They
show what the contracts give a caller: the polygon built by the serialization test,
a polygon whose rings are replaced through the setter, and a latitude of 200.

C# constructors that throw become static methods returning `Result`. The
Dafny constructors `Store` and `Blank` model only the assignments that follow
the guards and the private allocating constructor. C# `null` is `None` in an
`Option`. Numbers are `real`.

Two collaborators are parameters. `double.TryParse` (invariant culture) is
`parse: string -> Option<real>`. The library's ten-decimal-place comparer is
`cmp: (Option<real>, Option<real>) -> bool`. The model assumes nothing about
`cmp`. Each lemma that needs the comparer to be reflexive, symmetric,
transitive, or to tell an absent value from a present one says so in its
`requires`.

## Model

| member | source | states |
|---|---|---|
| `Positions.CheckText` | src/GeoJSON.Net/Geometry/GeographicPosition.cs:53-98 | Null latitude fails first, naming latitude, and then null longitude; both come before any blank check. A blank (empty or whitespace-only) latitude and then longitude fail as out of range with "May not be empty.", before any parse. A latitude that does not parse or has absolute value above 90 fails before the longitude is looked at. Once the latitude passes, a longitude that does not parse or has absolute value above 180 fails, naming longitude. Once both pass, a given altitude text that does not parse fails, naming altitude; no other input gives an altitude error. Success holds exactly when latitude parses into [-90, 90], longitude parses into [-180, 180] and a given altitude parses. On success the stored numbers are exactly the parsed ones, and the altitude is absent when no text was given. |
| `Positions.GeographicPosition.FromText` | src/GeoJSON.Net/Geometry/GeographicPosition.cs:50-99 | Fails exactly when `CheckText` fails, with the same error. On success it returns a fresh position whose three slots hold the parsed latitude, longitude and altitude, and whose getters return them. |
| `Positions.GeographicPosition.constructor` | src/GeoJSON.Net/Geometry/GeographicPosition.cs:36-42 | Stores latitude, longitude and altitude verbatim in slots 0, 1 and 2 with no range check. The getters return them. |
| `Positions.GeographicPosition.Blank` | src/GeoJSON.Net/Geometry/GeographicPosition.cs:104-107 | Allocates a fresh three-slot array with every slot empty. |
| `Positions.GeographicPosition.SetLatitude` | src/GeoJSON.Net/Geometry/GeographicPosition.cs:122-126 | Writes slot 0 and leaves slots 1 and 2 unchanged. |
| `Positions.GeographicPosition.SetLongitude` | src/GeoJSON.Net/Geometry/GeographicPosition.cs:132-136 | Writes slot 1 and leaves slots 0 and 2 unchanged. |
| `Positions.GeographicPosition.SetAltitude` | src/GeoJSON.Net/Geometry/GeographicPosition.cs:112-116 | Writes slot 2 and leaves slots 0 and 1 unchanged. |
| `Positions.GeographicPosition.Latitude` | src/GeoJSON.Net/Geometry/GeographicPosition.cs:122-126 | Returns the number in slot 0, or 0 when slot 0 is empty. |
| `Positions.GeographicPosition.Longitude` | src/GeoJSON.Net/Geometry/GeographicPosition.cs:132-136 | Returns the number in slot 1, or 0 when slot 1 is empty. |
| `Positions.GeographicPosition.Altitude` | src/GeoJSON.Net/Geometry/GeographicPosition.cs:112-116 | Absent exactly when slot 2 is empty; otherwise the number in slot 2. |
| `Positions.IsWhiteSpace` | src/GeoJSON.Net/Geometry/GeographicPosition.cs:63-71 | The range-based test of `char.IsWhiteSpace` accepts exactly the 25 characters listed one by one in `WhiteSpaceChars`. |
| `Positions.IsBlank` | src/GeoJSON.Net/Geometry/GeographicPosition.cs:63-71 | The character walk of `string.IsNullOrWhiteSpace` on a non-null text is true exactly when every character is whitespace, so the empty text is blank. |
| `Positions.SequenceEqual` | src/GeoJSON.Net/Geometry/GeographicPosition.cs:190 | True exactly when both sequences have the same length and the comparer accepts every pair at the same index. |
| `Positions.Equal` | src/GeoJSON.Net/Geometry/GeographicPosition.cs:180-191 | The same reference, both null included, is equal. A null against a non-null is unequal, in either order. Two distinct non-null positions are equal exactly when the comparer accepts slots 0, 1 and 2 pairwise. |
| `Positions.NotEqual` | src/GeoJSON.Net/Geometry/GeographicPosition.cs:196-199 | Exactly the negation of `==`, so a reference is never unequal to itself. |
| `Positions.GeographicPosition.EqualsPosition` | src/GeoJSON.Net/Geometry/GeographicPosition.cs:164-167 | False for null and true for the position itself. Otherwise it agrees with `==`. |
| `Positions.GeographicPosition.EqualsObject` | src/GeoJSON.Net/Geometry/GeographicPosition.cs:156-159 | False for null and for any object that is not a position. For a position it agrees with `==`. |
| `Positions.EqualIsSymmetric` | src/GeoJSON.Net/Geometry/GeographicPosition.cs:180-191 | With a symmetric comparer, `==` gives the same answer with its operands swapped, null operands included. |
| `Positions.EqualIsTransitive` | src/GeoJSON.Net/Geometry/GeographicPosition.cs:180-191 | With a transitive comparer, `==` is transitive. |
| `Positions.SameSlotsAreEqual` | src/GeoJSON.Net/Geometry/GeographicPosition.cs:180-191 | With a reflexive comparer, two distinct positions holding the same slots are equal. |
| `Positions.AltitudePresenceSeparates` | src/GeoJSON.Net/Geometry/GeographicPosition.cs:180-191 | If the comparer tells absent from present, a position with an altitude is never equal to one without. |
| `LineStrings.LineString.Store` | src/GeoJSON.Net/Geometry/LineString.cs:42-43 | Stores the list as given and sets `Type` to LineString. |
| `LineStrings.LineString.Create` | src/GeoJSON.Net/Geometry/LineString.cs:30-44 | A null list fails with a null-argument error naming "coordinates". Fewer than two positions then fails as out of range with the source's message. Success holds exactly for a non-null list of at least two positions, so exactly two is accepted. On success the fresh line string holds exactly the given list, with `Type` LineString. |
| `LineStrings.LineString.IsLinearRing` | src/GeoJSON.Net/Geometry/LineString.cs:59-62 | Never true below four positions, so two or three positions are never a ring even when first and last coincide. From four positions up: true when the first and last are the same object. When they are distinct objects, true exactly when the comparer accepts their three slots pairwise. It is a function, so it changes nothing. |
| `Polygons.AnyNotLinearRing` | src/GeoJSON.Net/Geometry/Polygon.cs:42 | Walks the rings in order and stops at the first one that fails `IsLinearRing`. It is true exactly when some ring, at any index, fails `IsLinearRing`, and false for an empty list. |
| `Polygons.ExteriorAndHoles` | src/GeoJSON.Net/Geometry/Polygon.cs:42-45 | A list of an exterior ring followed by holes passes the guard exactly when the exterior ring is a linear ring and the holes pass on their own. |
| `Polygons.Polygon.Store` | src/GeoJSON.Net/Geometry/Polygon.cs:47-48 | Stores the ring list as given and sets `Type` to Polygon. |
| `Polygons.Polygon.Create` | src/GeoJSON.Net/Geometry/Polygon.cs:35-49 | A null list fails with a null-argument error naming "linearRings". A list with any ring that is not a linear ring fails as out of range with the source's message. Success holds exactly when the list is non-null and every ring is a linear ring, so an empty list is accepted. On success the fresh polygon holds the list unchanged, has `Type` Polygon and is `Closed`. A failure returns no polygon at all. |
| `Polygons.Polygon.SetCoordinates` | src/GeoJSON.Net/Geometry/Polygon.cs:56 | Replaces the rings with the given list and checks nothing. |
| `Scenarios.SerializationTestPolygon` | src/GeoJSON.Net.Tests/SerializationTest.cs:22-30 | With a reflexive comparer, the test's single ring is accepted. It has four positions, and its last position is built separately from the same numbers as its first. |
| `Scenarios.SetterSkipsRingCheck` | src/GeoJSON.Net/Geometry/Polygon.cs:56 | A polygon built from an empty ring list, then given a two-position ring through the setter, is no longer `Closed`. The ring invariant holds only at construction. |
| `Scenarios.NumericKeepsOutOfRangeLatitude` | src/GeoJSON.Net/Geometry/GeographicPosition.cs:36-79 | The numeric constructor keeps latitude 200. The text constructor refuses "200" as an out-of-range latitude. |

## Left out

- JSON serialization: the Newtonsoft attributes, the polygon converter and `JsonConvert` in the test belong to a foreign library.
- Number parsing: `double.TryParse` is the `parse` parameter, with no culture, exponent syntax or IEEE special values. In particular, "NaN" parses and passes the `> 90` test in the source. A `real` cannot express that.
- The ten-decimal-place comparer is not part of this model. It is the `cmp` parameter, and its rounding is not modelled.
- `GetHashCode` (both overloads) depends on `double.GetHashCode` and 32-bit overflow, and is not modelled.
- `ToString` is float formatting and is not modelled.
- `GeographicPosition.Equals(left, right)`, from `IEqualityComparer`, is not modelled separately. It only forwards to `==`, which is `Positions.Equal`.
- `GeoJSONObject`, `Position` and `GeoJSONObjectType` are not part of this model. List elements are modelled as `GeographicPosition`, the only position class shown. `Type` is a small enum.
- Null elements inside a coordinate list are not modelled. A null first position makes `IsLinearRing` throw a null-reference exception, and a null ring makes the polygon guard throw one. The model's lists hold non-null objects.
- List aliasing is not modelled. The source stores the caller's list by reference. The model stores immutable `seq` values, so a later change through the caller's alias is not captured.
- The `IGeometryObject` interface only declares `Type` and is not modelled separately.
- `SetLatitude`, `SetLongitude` and `SetAltitude` are private in the source, but Dafny has no private members. In the model any caller could change a position after it has been put in a ring, and so break a constructed polygon's `Closed`. In the source only the constructors call them.
- `Polygons.Polygon.SetCoordinates`: the source's public setter also accepts null. A `seq` cannot be null, so that case is not modelled.
