/**
 The normalised place record and the four ways of building one.

 Every provider payload shape (reverse-geocode address, place detail,
 autocomplete prediction) is mapped field by field onto one `GooglePlace`,
 with `??`-style fallbacks; a fixed sentinel stands for "use the device's
 current location". Equality on places deliberately looks at four of the
 eight fields only.
 */
module GoogleDataModel {
  import opened Wrappers
  import opened Provider

  /**
   The common place record. `state`, `city` and `country` are the mutable
   locality annotations of the source; as a value type here, setting one is a
   datatype update.
   */
  datatype GooglePlace = GooglePlace(
    id: Option<string>,
    address: Option<string>,
    coordinates: Option<Coordinate>,
    name: Option<string>,
    postalCode: Option<string>,
    state: Option<string>,
    city: Option<string>,
    country: Option<string>)

  const DefaultAddress: string := "Enable location services"
  const DefaultName: string := "Use Current Location"

  /** The memberwise initialiser: the five immutable fields given, locality fields unset. */
  function Memberwise(id: Option<string>, address: Option<string>, coordinates: Option<Coordinate>,
                      name: Option<string>, postalCode: Option<string>): (p: GooglePlace)
    ensures p.id == id && p.address == address && p.coordinates == coordinates
    ensures p.name == name && p.postalCode == postalCode
    ensures p.state.None? && p.city.None? && p.country.None?
  {
    GooglePlace(id, address, coordinates, name, postalCode, None, None, None)
  }

  /** The first line of a structured address, or the empty string when there is none. */
  function FirstLine(lines: Option<seq<string>>): (r: string)
    ensures lines.Some? && |lines.value| > 0 ==> r == lines.value[0]
    ensures lines.None? || lines.value == [] ==> r == ""
  {
    match lines
    case None => ""
    case Some(ls) => First(ls).GetOr("")
  }

  /** A place built from a reverse-geocode address. */
  function FromAddress(a: Address): (p: GooglePlace)
    // never carries an identifier; the address is always present
    ensures p.id.None?
    ensures p.address.Some?
    ensures a.lines.Some? && |a.lines.value| > 0 ==> p.address == Some(a.lines.value[0])
    ensures a.lines.None? || a.lines.value == [] ==> p.address == Some("")
    // the name falls back thoroughfare -> locality -> administrative area
    ensures p.name.None? <==> a.thoroughfare.None? && a.locality.None? && a.administrativeArea.None?
    ensures a.thoroughfare.Some? ==> p.name == a.thoroughfare
    ensures a.thoroughfare.None? && a.locality.Some? ==> p.name == a.locality
    ensures a.thoroughfare.None? && a.locality.None? ==> p.name == a.administrativeArea
    // location data copied; state and city left unset
    ensures p.coordinates == Some(a.coordinate)
    ensures p.postalCode == a.postalCode && p.country == a.country
    ensures p.state.None? && p.city.None?
  {
    GooglePlace(
      id := None,
      address := Some(FirstLine(a.lines)),
      coordinates := Some(a.coordinate),
      name := a.thoroughfare.OrElse(a.locality).OrElse(a.administrativeArea),
      postalCode := a.postalCode,
      state := None,
      city := None,
      country := a.country)
  }

  /** A place built from a place-detail record. */
  function FromDetail(d: PlaceDetail): (p: GooglePlace)
    ensures p.id == d.placeID && p.name == d.name
    ensures p.coordinates == Some(d.coordinate)
    ensures p.address.Some?
    ensures d.formattedAddress.Some? ==> p.address == d.formattedAddress
    ensures d.formattedAddress.None? ==> p.address == Some("")
    ensures p.postalCode.None?
    ensures p.state.None? && p.city.None? && p.country.None?
  {
    GooglePlace(d.placeID, Some(d.formattedAddress.GetOr("")), Some(d.coordinate), d.name, None, None, None, None)
  }

  /** A place built from an autocomplete prediction: plain texts, no location. */
  function FromPrediction(pr: Prediction): (p: GooglePlace)
    ensures p.id == Some(pr.placeID)
    ensures p.address == Some(pr.fullText.text)
    ensures p.name == Some(pr.primaryText.text)
    ensures p.coordinates.None? && p.postalCode.None?
    ensures p.state.None? && p.city.None? && p.country.None?
  {
    GooglePlace(Some(pr.placeID), Some(pr.fullText.text), None, Some(pr.primaryText.text), None, None, None, None)
  }

  /** The "Use Current Location" sentinel. */
  function DefaultPlace(): (p: GooglePlace)
    ensures p.address == Some(DefaultAddress) && p.name == Some(DefaultName)
    ensures p.id.None? && p.coordinates.None? && p.postalCode.None?
    ensures p.state.None? && p.city.None? && p.country.None?
  {
    Memberwise(None, Some(DefaultAddress), None, Some(DefaultName), None)
  }

  /** The source's `==` on places: address, id, coordinates and name only. */
  predicate SamePlace(a: GooglePlace, b: GooglePlace)
    ensures SamePlace(a, b) <==> a.(postalCode := b.postalCode, state := b.state, city := b.city, country := b.country) == b
  {
    a.address == b.address && a.id == b.id && a.coordinates == b.coordinates && a.name == b.name
  }

  /** Two places compare equal exactly when they differ in nothing but the four ignored fields. */
  lemma SamePlaceIffDifferOnlyInIgnoredFields(a: GooglePlace, b: GooglePlace)
    ensures SamePlace(a, b) <==> a.(postalCode := b.postalCode, state := b.state, city := b.city, country := b.country) == b
  {
  }

  /** Changing the postal code or any locality field never changes equality. */
  lemma SamePlaceIgnoresPostalAndLocality(p: GooglePlace, postalCode: Option<string>, state: Option<string>,
                                          city: Option<string>, country: Option<string>)
    ensures SamePlace(p, p.(postalCode := postalCode, state := state, city := city, country := country))
  {
  }

  /** The place equality is an equivalence relation. */
  lemma SamePlaceIsEquivalence()
    ensures forall a :: SamePlace(a, a)
    ensures forall a, b :: SamePlace(a, b) <==> SamePlace(b, a)
    ensures forall a, b, c :: SamePlace(a, b) && SamePlace(b, c) ==> SamePlace(a, c)
  {
  }

  /**
   Building a place twice from one payload, by any constructor, gives equal places.
   Here construction is a function, so this is an instance of `SamePlaceIsEquivalence`'s reflexivity.
   */
  lemma ConstructionIsRepeatable(a: Address, d: PlaceDetail, pr: Prediction)
    ensures SamePlace(FromAddress(a), FromAddress(a))
    ensures SamePlace(FromDetail(d), FromDetail(d))
    ensures SamePlace(FromPrediction(pr), FromPrediction(pr))
    ensures SamePlace(DefaultPlace(), DefaultPlace())
  {
  }

  /** The sentinel equals a place exactly when that place has its texts and no identifier or coordinates. */
  lemma DefaultPlaceEquality(p: GooglePlace)
    ensures SamePlace(DefaultPlace(), p) <==>
      p.address == Some(DefaultAddress) && p.name == Some(DefaultName) && p.id.None? && p.coordinates.None?
    ensures p.id.Some? || p.coordinates.Some? ==> !SamePlace(DefaultPlace(), p)
  {
  }

  /** No place converted from a provider payload is ever taken for the sentinel. */
  lemma ProviderPlacesNeverMatchDefault(a: Address, d: PlaceDetail, pr: Prediction)
    ensures !SamePlace(FromAddress(a), DefaultPlace())
    ensures !SamePlace(FromDetail(d), DefaultPlace())
    ensures !SamePlace(FromPrediction(pr), DefaultPlace())
  {
  }
}
