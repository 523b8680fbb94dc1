/** SupportedModeValidator: whether a mode string names a supported transport mode. */
module SupportedModeValidator {
  import opened Wrappers
  import opened Domain

  /** The modes the validator accepts, in upper case. */
  const SupportedModes: set<string> := {"CAR", "BIKE", "MOTORCYCLE"}

  /** `Character.toUpperCase` restricted to ASCII: a..z become A..Z, everything else stays. */
  function UpperChar(c: char): char
  {
    if 'a' <= c <= 'z' then (c as int - 32) as char else c
  }

  /** `String.toUpperCase`, character by character, over ASCII. */
  function ToUpperAscii(s: string): (r: string)
    ensures |r| == |s|
    ensures forall i :: 0 <= i < |s| ==> r[i] == UpperChar(s[i])
  {
    if s == [] then [] else [UpperChar(s[0])] + ToUpperAscii(s[1..])
  }

  /** Upper-casing an upper-cased string changes nothing. */
  lemma ToUpperIdempotent(s: string)
    ensures ToUpperAscii(ToUpperAscii(s)) == ToUpperAscii(s)
  {
    var u := ToUpperAscii(s);
    assert forall i :: 0 <= i < |u| ==> UpperChar(u[i]) == u[i];
  }

  /**
   * `isValid`: null is rejected; otherwise the value is accepted exactly
   * when its upper-cased form is the name of a transport mode.
   */
  function IsValid(value: Option<string>): (b: bool)
    ensures value.None? ==> !b
    ensures value.Some? ==> (b <==> ModeNamed(ToUpperAscii(value.value)).Some?)
  {
    value.Some? && ToUpperAscii(value.value) in SupportedModes
  }

  /** The accepted set is exactly the names of the enumeration's constants. */
  lemma SupportedModesAreModeNames(s: string)
    ensures s in SupportedModes <==> exists m :: ModeName(m) == s
  {
    if s in SupportedModes {
      assert ModeNamed(s).Some?;
    }
  }

  /** Case does not matter: a value and its upper-cased form get the same answer. */
  lemma CaseInsensitive(s: string)
    ensures IsValid(Some(s)) == IsValid(Some(ToUpperAscii(s)))
  {
    ToUpperIdempotent(s);
  }

  /** Every mode's name is accepted. */
  lemma ModeNamesAccepted(m: TransportMode)
    ensures IsValid(Some(ModeName(m)))
  {
    assert ToUpperAscii(ModeName(m)) == ModeName(m);
  }

  /** Mixed case is accepted; other words and the empty string are not. */
  lemma Examples()
    ensures IsValid(Some("car")) && IsValid(Some("Bike"))
    ensures !IsValid(Some("PLANE"))
    ensures !IsValid(Some(""))
  {
    assert ToUpperAscii("car") == "CAR";
    assert ToUpperAscii("Bike") == "BIKE";
    assert ToUpperAscii("PLANE") == "PLANE";
  }
}

/** GeoCoordinatesValidator: whether a coordinate lies in the accepted range. */
module GeoCoordinatesValidator {
  import opened Wrappers
  import opened Domain

  /**
   * `isValid` as written: null is rejected; any value in [-180, 180],
   * bounds included, is accepted. The same check guards latitude and
   * longitude.
   */
  function IsValid(value: Option<real>): (b: bool)
    ensures b <==> value.Some? && -180.0 <= value.value <= 180.0
  {
    if value.None? then false else -180.0 <= value.value && value.value <= 180.0
  }

  /** The bounds are inclusive; just beyond them and null are rejected. */
  lemma Bounds()
    ensures IsValid(Some(-180.0)) && IsValid(Some(180.0))
    ensures !IsValid(Some(-180.5)) && !IsValid(Some(180.5))
    ensures !IsValid(None)
  {
  }

  /**
   * As written, the check lets through latitudes no point on Earth has:
   * a point whose latitude is 120 passes.
   */
  lemma ImpossibleLatitudeAccepted()
    ensures IsValid(Some(GeoPoint(120.0, 0.0).lat))
    ensures !(-90.0 <= GeoPoint(120.0, 0.0).lat <= 90.0)
  {
  }

  /** The latitude check the code's own comment describes: [-90, 90]. */
  function IsValidLatitude(value: Option<real>): (b: bool)
    ensures b <==> value.Some? && -90.0 <= value.value <= 90.0
    ensures b ==> IsValid(value)
  {
    if value.None? then false else -90.0 <= value.value && value.value <= 90.0
  }

  /** A point passes when its latitude is a latitude and its longitude a longitude. */
  predicate ValidPoint(p: GeoPoint)
  {
    IsValidLatitude(Some(p.lat)) && IsValid(Some(p.lon))
  }

  /**
   * The corrected check differs from the one as written exactly on the
   * latitudes beyond the poles, 90 < |lat| <= 180.
   */
  lemma CorrectedCheckDiffersOnlyBeyondPoles(p: GeoPoint)
    ensures ValidPoint(p) ==> IsValid(Some(p.lat)) && IsValid(Some(p.lon))
    ensures (IsValid(Some(p.lat)) && IsValid(Some(p.lon)) && !ValidPoint(p)) <==>
              (IsValid(Some(p.lon)) && (90.0 < p.lat <= 180.0 || -180.0 <= p.lat < -90.0))
  {
  }
}
