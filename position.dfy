/** The GeoJSON position (section 3.1.1 of RFC 7946) as the class
    `GeographicPosition`: a private array of three optional numbers (latitude,
    longitude, altitude), filled in by its constructors, and the equality the
    class defines over that array. */
module Positions {
  import opened Common

  /** The comparer applied slot by slot by the equality operator. The library's
      ten-decimal-place comparer is not part of this model, so every operation
      that compares positions takes the comparer as a parameter, and every
      property that depends on its behaviour says so in a `requires`. */
  type SlotComparer = (Option<real>, Option<real>) -> bool

  const EmptyMessage := "May not be empty."
  const LatitudeRangeMessage := "Latitude must be a proper lat (+/- double) value between -90 and 90."
  const LongitudeRangeMessage := "Longitude must be a proper lon (+/- double) value between -180 and 180."
  const AltitudeMessage := "Altitude must be a proper altitude (m(eter) as double) value, e.g. '6500'."

  /** The 25 characters `char.IsWhiteSpace` accepts, one by one. */
  const WhiteSpaceChars: set<char> := {
    '\t', '\n', '\U{B}', '\U{C}', '\r', ' ', '\U{85}', '\U{A0}', '\U{1680}',
    '\U{2000}', '\U{2001}', '\U{2002}', '\U{2003}', '\U{2004}', '\U{2005}',
    '\U{2006}', '\U{2007}', '\U{2008}', '\U{2009}', '\U{200A}',
    '\U{2028}', '\U{2029}', '\U{202F}', '\U{205F}', '\U{3000}'
  }

  /** `char.IsWhiteSpace`: the Unicode space separators, the line and paragraph
      separators, and the control characters U+0009 to U+000D and U+0085. */
  predicate IsWhiteSpace(c: char): (r: bool)
    ensures r <==> c in WhiteSpaceChars
  {
    || c == ' '
    || '\t' <= c <= '\r'
    || c == '\U{85}'
    || c == '\U{A0}'
    || c == '\U{1680}'
    || '\U{2000}' <= c <= '\U{200A}'
    || c == '\U{2028}'
    || c == '\U{2029}'
    || c == '\U{202F}'
    || c == '\U{205F}'
    || c == '\U{3000}'
  }

  /** `string.IsNullOrWhiteSpace` on a non-null string: walks the characters
      and stops at the first one that is not whitespace. */
  predicate IsBlank(s: string): (r: bool)
    ensures r <==> forall i | 0 <= i < |s| :: IsWhiteSpace(s[i])
    ensures |s| == 0 ==> r
  {
    if |s| == 0 then true
    else if !IsWhiteSpace(s[0]) then false
    else
      var rest := IsBlank(s[1..]);
      assert forall i | 1 <= i < |s| :: s[1..][i - 1] == s[i];
      rest
  }

  function Abs(x: real): real {
    if x < 0.0 then -x else x
  }

  /** `double?.GetValueOrDefault()`. */
  function GetValueOrDefault(v: Option<real>): real {
    match v
    case Some(x) => x
    case None => 0.0
  }

  /** The three numbers a successful text construction stores. */
  datatype Parsed = Parsed(latitude: real, longitude: real, altitude: Option<real>)

  /** The chain of guards of the text constructor, in the order the
      constructor runs them: null latitude, null longitude, blank latitude,
      blank longitude, latitude parse and range, longitude parse and range,
      and, when an altitude text is given, the altitude parse. The first guard
      that fails decides the error. */
  function CheckText(parse: Parser, latitude: Option<string>, longitude: Option<string>, altitude: Option<string>)
    : (r: Result<Parsed, GeoError>)
    // the null checks come before everything else
    ensures latitude.None? ==> r == Failure(ArgumentNull("latitude"))
    ensures latitude.Some? && longitude.None? ==> r == Failure(ArgumentNull("longitude"))
    // the blank checks come after both null checks and before any parse
    ensures latitude.Some? && longitude.Some? && IsBlank(latitude.value) ==>
              r == Failure(ArgumentOutOfRange("latitude", EmptyMessage))
    ensures latitude.Some? && longitude.Some? && !IsBlank(latitude.value) && IsBlank(longitude.value) ==>
              r == Failure(ArgumentOutOfRange("longitude", EmptyMessage))
    // a latitude that does not parse or lies outside [-90, 90] is reported before the longitude
    ensures latitude.Some? && longitude.Some? && !IsBlank(latitude.value) && !IsBlank(longitude.value) &&
            (parse(latitude.value).None? || Abs(parse(latitude.value).value) > 90.0) ==>
              r == Failure(ArgumentOutOfRange("latitude", LatitudeRangeMessage))
    // a longitude that does not parse or lies outside [-180, 180] is reported once the latitude has passed
    ensures latitude.Some? && longitude.Some? && !IsBlank(latitude.value) && !IsBlank(longitude.value) &&
            parse(latitude.value).Some? && Abs(parse(latitude.value).value) <= 90.0 &&
            (parse(longitude.value).None? || Abs(parse(longitude.value).value) > 180.0) ==>
              r == Failure(ArgumentOutOfRange("longitude", LongitudeRangeMessage))
    // once latitude and longitude have passed, a given altitude text that does not parse fails
    ensures latitude.Some? && longitude.Some? && !IsBlank(latitude.value) && !IsBlank(longitude.value) &&
            parse(latitude.value).Some? && Abs(parse(latitude.value).value) <= 90.0 &&
            parse(longitude.value).Some? && Abs(parse(longitude.value).value) <= 180.0 &&
            altitude.Some? && parse(altitude.value).None? ==>
              r == Failure(ArgumentOutOfRange("altitude", AltitudeMessage))
    // only a non-null altitude text is parsed, and it has no range
    ensures r.Failure? && r.error.paramName == "altitude" ==>
              altitude.Some? && parse(altitude.value).None? && r.error == ArgumentOutOfRange("altitude", AltitudeMessage)
    // success exactly when no guard fails
    ensures r.Success? <==>
              && latitude.Some? && longitude.Some?
              && !IsBlank(latitude.value) && !IsBlank(longitude.value)
              && parse(latitude.value).Some? && -90.0 <= parse(latitude.value).value <= 90.0
              && parse(longitude.value).Some? && -180.0 <= parse(longitude.value).value <= 180.0
              && (altitude.Some? ==> parse(altitude.value).Some?)
    // on success the stored numbers are exactly the parsed ones
    ensures r.Success? ==>
              && Some(r.value.latitude) == parse(latitude.value)
              && Some(r.value.longitude) == parse(longitude.value)
              && r.value.altitude == (if altitude.None? then None else parse(altitude.value))
  {
    if latitude.None? then Failure(ArgumentNull("latitude"))
    else if longitude.None? then Failure(ArgumentNull("longitude"))
    else if IsBlank(latitude.value) then Failure(ArgumentOutOfRange("latitude", EmptyMessage))
    else if IsBlank(longitude.value) then Failure(ArgumentOutOfRange("longitude", EmptyMessage))
    else
      var lat := parse(latitude.value);
      if lat.None? || Abs(lat.value) > 90.0 then Failure(ArgumentOutOfRange("latitude", LatitudeRangeMessage))
      else
        var lon := parse(longitude.value);
        if lon.None? || Abs(lon.value) > 180.0 then Failure(ArgumentOutOfRange("longitude", LongitudeRangeMessage))
        else if altitude.None? then Success(Parsed(lat.value, lon.value, None))
        else
          var alt := parse(altitude.value);
          if alt.None? then Failure(ArgumentOutOfRange("altitude", AltitudeMessage))
          else Success(Parsed(lat.value, lon.value, alt))
  }

  /** `Enumerable.SequenceEqual` with a comparer: walks both sequences in
      step and stops at the first pair the comparer rejects. */
  function SequenceEqual(cmp: SlotComparer, a: seq<Option<real>>, b: seq<Option<real>>): (r: bool)
    ensures r <==> |a| == |b| && forall i | 0 <= i < |a| :: cmp(a[i], b[i])
  {
    if |a| == 0 || |b| == 0 then |a| == |b|
    else if !cmp(a[0], b[0]) then false
    else
      var rest := SequenceEqual(cmp, a[1..], b[1..]);
      assert forall i | 1 <= i < |a| && |a| == |b| :: a[1..][i - 1] == a[i] && b[1..][i - 1] == b[i];
      rest
  }

  /** The argument of `Equals(object)`: null, a position, or an object of another type. */
  datatype ObjectRef = NullRef | PositionRef(position: GeographicPosition) | OtherRef

  /** `obj as GeographicPosition`: null unless `obj` is a position. */
  function AsPosition(obj: ObjectRef): GeographicPosition? {
    match obj
    case PositionRef(p) => p
    case _ => null
  }

  class GeographicPosition {
    /** The private slots: index 0 latitude, 1 longitude, 2 altitude. */
    const coordinates: array<Option<real>>

    /** The array always has its three slots. */
    predicate Valid() {
      coordinates.Length == 3
    }

    /** The private parameterless constructor: three empty slots. */
    constructor Blank()
      ensures Valid() && fresh(coordinates)
      ensures coordinates[..] == [None, None, None]
    {
      coordinates := new Option<real>[3](_ => None);
    }

    /** The numeric constructor: stores its arguments as given, with no range
        check, so a latitude of 200 is kept as 200. */
    constructor (latitude: real, longitude: real, altitude: Option<real>)
      ensures Valid() && fresh(coordinates)
      ensures coordinates[..] == [Some(latitude), Some(longitude), altitude]
      ensures Latitude() == latitude && Longitude() == longitude && Altitude() == altitude
    {
      coordinates := new Option<real>[3](_ => None);
      new;
      SetLatitude(latitude);
      SetLongitude(longitude);
      SetAltitude(altitude);
    }

    /** The text constructor. Like the source, it allocates the slots first,
        then runs the guards of `CheckText` one by one, storing latitude and
        longitude before it looks at the altitude. */
    static method FromText(parse: Parser, latitude: Option<string>, longitude: Option<string>, altitude: Option<string>)
      returns (r: Result<GeographicPosition, GeoError>)
      ensures r.Failure? <==> CheckText(parse, latitude, longitude, altitude).Failure?
      ensures r.Failure? ==> r.error == CheckText(parse, latitude, longitude, altitude).error
      ensures r.Success? ==>
                var c := CheckText(parse, latitude, longitude, altitude).value;
                && fresh(r.value) && fresh(r.value.coordinates) && r.value.Valid()
                && r.value.coordinates[..] == [Some(c.latitude), Some(c.longitude), c.altitude]
                && r.value.Latitude() == c.latitude && r.value.Longitude() == c.longitude
                && r.value.Altitude() == c.altitude
    {
      var p := new GeographicPosition.Blank();
      if latitude.None? {
        return Failure(ArgumentNull("latitude"));
      }
      if longitude.None? {
        return Failure(ArgumentNull("longitude"));
      }
      if IsBlank(latitude.value) {
        return Failure(ArgumentOutOfRange("latitude", EmptyMessage));
      }
      if IsBlank(longitude.value) {
        return Failure(ArgumentOutOfRange("longitude", EmptyMessage));
      }
      var lat := parse(latitude.value);
      if lat.None? || Abs(lat.value) > 90.0 {
        return Failure(ArgumentOutOfRange("latitude", LatitudeRangeMessage));
      }
      var lon := parse(longitude.value);
      if lon.None? || Abs(lon.value) > 180.0 {
        return Failure(ArgumentOutOfRange("longitude", LongitudeRangeMessage));
      }
      p.SetLatitude(lat.value);
      p.SetLongitude(lon.value);
      if altitude.Some? {
        var alt := parse(altitude.value);
        if alt.None? {
          return Failure(ArgumentOutOfRange("altitude", AltitudeMessage));
        }
        p.SetAltitude(alt);
      }
      return Success(p);
    }

    /** The private `Latitude` setter. Only the constructors call it; Dafny has no
        private members, so nothing stops another caller here. */
    method SetLatitude(value: real)
      requires Valid()
      modifies coordinates
      ensures coordinates[..] == old(coordinates[..])[0 := Some(value)]
    {
      coordinates[0] := Some(value);
    }

    /** The private `Longitude` setter. Only the constructors call it; Dafny has no
        private members, so nothing stops another caller here. */
    method SetLongitude(value: real)
      requires Valid()
      modifies coordinates
      ensures coordinates[..] == old(coordinates[..])[1 := Some(value)]
    {
      coordinates[1] := Some(value);
    }

    /** The private `Altitude` setter. Only the constructors call it; Dafny has no
        private members, so nothing stops another caller here. */
    method SetAltitude(value: Option<real>)
      requires Valid()
      modifies coordinates
      ensures coordinates[..] == old(coordinates[..])[2 := value]
    {
      coordinates[2] := value;
    }

    /** Slot 0, or 0 when it is empty. */
    function Latitude(): (r: real)
      requires Valid()
      reads coordinates
      ensures coordinates[0] == Some(r) || (coordinates[0] == None && r == 0.0)
    {
      GetValueOrDefault(coordinates[0])
    }

    /** Slot 1, or 0 when it is empty. */
    function Longitude(): (r: real)
      requires Valid()
      reads coordinates
      ensures coordinates[1] == Some(r) || (coordinates[1] == None && r == 0.0)
    {
      GetValueOrDefault(coordinates[1])
    }

    /** Slot 2, which stays empty when no altitude was given. */
    function Altitude(): (r: Option<real>)
      requires Valid()
      reads coordinates
      ensures r.None? <==> coordinates[2].None?
      ensures r.Some? ==> coordinates[2] == Some(r.value)
    {
      coordinates[2]
    }

    /** `Equals(GeographicPosition)`: the equality operator with this position on the left. */
    function EqualsPosition(cmp: SlotComparer, other: GeographicPosition?): (r: bool)
      requires Valid()
      requires other != null ==> other.Valid()
      reads coordinates, if other == null then {} else {other.coordinates}
      ensures other == null ==> !r
      ensures other == this ==> r
      ensures r == Equal(cmp, this, other)
    {
      Equal(cmp, this, other)
    }

    /** `Equals(object)`: false for null and for any object that is not a
        position; otherwise the equality operator. */
    function EqualsObject(cmp: SlotComparer, obj: ObjectRef): (r: bool)
      requires Valid()
      requires obj.PositionRef? ==> obj.position.Valid()
      reads coordinates, if obj.PositionRef? then {obj.position.coordinates} else {}
      ensures !obj.PositionRef? ==> !r
      ensures obj.PositionRef? ==> r == Equal(cmp, this, obj.position)
    {
      Equal(cmp, this, AsPosition(obj))
    }
  }

  /** The objects the equality operator reads. */
  ghost function Footprint(p: GeographicPosition?): set<object> {
    if p == null then {} else {p.coordinates}
  }

  /** `operator ==`: the same reference (both null included) is equal; a null
      right side, or a null left side against a non-null right side, is
      unequal; otherwise the three slots are compared pairwise. */
  function Equal(cmp: SlotComparer, left: GeographicPosition?, right: GeographicPosition?): (r: bool)
    requires left != null ==> left.Valid()
    requires right != null ==> right.Valid()
    reads Footprint(left), Footprint(right)
    ensures left == right ==> r
    ensures left != right && (left == null || right == null) ==> !r
    ensures left != null && right != null && left != right ==>
              (r <==> && cmp(left.coordinates[0], right.coordinates[0])
                      && cmp(left.coordinates[1], right.coordinates[1])
                      && cmp(left.coordinates[2], right.coordinates[2]))
  {
    if left == right then true
    else if right == null then false
    else left != null && SequenceEqual(cmp, left.coordinates[..], right.coordinates[..])
  }

  /** `operator !=`. */
  function NotEqual(cmp: SlotComparer, left: GeographicPosition?, right: GeographicPosition?): (r: bool)
    requires left != null ==> left.Valid()
    requires right != null ==> right.Valid()
    reads Footprint(left), Footprint(right)
    ensures r <==> !Equal(cmp, left, right)
    ensures left == right ==> !r
  {
    !Equal(cmp, left, right)
  }

  // Properties of the comparer that the source does not guarantee; lemmas
  // that need one state it as a requirement.

  ghost predicate Reflexive(cmp: SlotComparer) {
    forall x :: cmp(x, x)
  }

  ghost predicate Symmetric(cmp: SlotComparer) {
    forall x, y :: cmp(x, y) == cmp(y, x)
  }

  ghost predicate Transitive(cmp: SlotComparer) {
    forall x, y, z :: cmp(x, y) && cmp(y, z) ==> cmp(x, z)
  }

  /** An absent value equals only an absent value. */
  ghost predicate NullAware(cmp: SlotComparer) {
    forall v: Option<real> :: v.Some? ==> !cmp(None, v) && !cmp(v, None)
  }

  /** With a symmetric comparer, the operator does not depend on the order of
      its operands, null operands included. */
  lemma EqualIsSymmetric(cmp: SlotComparer, a: GeographicPosition?, b: GeographicPosition?)
    requires Symmetric(cmp)
    requires a != null ==> a.Valid()
    requires b != null ==> b.Valid()
    ensures Equal(cmp, a, b) == Equal(cmp, b, a)
  {
  }

  /** With a transitive comparer, the operator is transitive. */
  lemma EqualIsTransitive(cmp: SlotComparer, a: GeographicPosition?, b: GeographicPosition?, c: GeographicPosition?)
    requires Transitive(cmp)
    requires a != null ==> a.Valid()
    requires b != null ==> b.Valid()
    requires c != null ==> c.Valid()
    requires Equal(cmp, a, b) && Equal(cmp, b, c)
    ensures Equal(cmp, a, c)
  {
  }

  /** With a reflexive comparer, two distinct positions holding the same three
      slots are equal. */
  lemma SameSlotsAreEqual(cmp: SlotComparer, a: GeographicPosition, b: GeographicPosition)
    requires Reflexive(cmp)
    requires a.Valid() && b.Valid()
    requires a.coordinates[..] == b.coordinates[..]
    ensures Equal(cmp, a, b)
  {
  }

  /** With a comparer that tells absent from present, a position with an
      altitude never equals a distinct position without one. */
  lemma AltitudePresenceSeparates(cmp: SlotComparer, a: GeographicPosition, b: GeographicPosition)
    requires NullAware(cmp)
    requires a.Valid() && b.Valid()
    requires a.Altitude().None? != b.Altitude().None?
    ensures !Equal(cmp, a, b)
  {
  }
}
