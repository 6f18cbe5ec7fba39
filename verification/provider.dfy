/**
 The payload shapes of the places/maps provider, as plain values.

 The provider SDK's classes (reverse-geocode address, place detail, autocomplete
 prediction, place likelihood) become immutable records here; each provider call
 answers with an optional payload and an optional error, exactly the pair its
 completion callback receives.
 */
module Provider {
  import opened Wrappers

  /** A latitude/longitude pair, compared field by field. */
  datatype Coordinate = Coordinate(latitude: real, longitude: real)

  /**
   An attributed string, reduced to its plain text: styling is not modelled,
   so NSAttributedString's `.string` is the field `text`.
   */
  datatype AttributedText = AttributedText(text: string)

  /** A structured reverse-geocode address. Its coordinate is always present. */
  datatype Address = Address(
    coordinate: Coordinate,
    thoroughfare: Option<string>,
    locality: Option<string>,
    subLocality: Option<string>,
    administrativeArea: Option<string>,
    postalCode: Option<string>,
    country: Option<string>,
    lines: Option<seq<string>>)

  /** A place-detail record. Its coordinate is always present. */
  datatype PlaceDetail = PlaceDetail(
    placeID: Option<string>,
    name: Option<string>,
    coordinate: Coordinate,
    formattedAddress: Option<string>)

  /** An autocomplete prediction: an identifier and styled display texts, no coordinate. */
  datatype Prediction = Prediction(
    placeID: string,
    fullText: AttributedText,
    primaryText: AttributedText,
    secondaryText: AttributedText)

  /** A candidate place near the device with the provider's confidence in [0, 1]. */
  datatype PlaceLikelihood = PlaceLikelihood(place: PlaceDetail, likelihood: real)

  /** A provider-reported failure; only its human-readable description is used. */
  datatype ProviderError = ProviderError(localizedDescription: string)

  /** The opaque field selector passed through to the likelihood and detail calls. */
  datatype PlaceFields = PlaceFields(mask: nat)

  /** The selector the detail-by-identifier call always sends: coordinates only. */
  const CoordinateField: PlaceFields := PlaceFields(1)

  /** The body of a successful reverse-geocode answer. */
  datatype ReverseGeocodeResult = ReverseGeocodeResult(results: seq<Address>) {
    /** The provider's `firstResult()`: the first address, absent when there is none. */
    function FirstResult(): (r: Option<Address>)
      ensures r.None? <==> |results| == 0
      ensures r.Some? ==> r.value == results[0]
    {
      First(results)
    }
  }

  /** What each of the four provider calls hands to its completion callback. */
  datatype AutocompleteResponse = AutocompleteResponse(results: Option<seq<Prediction>>, error: Option<ProviderError>)
  datatype ReverseGeocodeResponse = ReverseGeocodeResponse(response: Option<ReverseGeocodeResult>, error: Option<ProviderError>)
  datatype LikelihoodResponse = LikelihoodResponse(results: Option<seq<PlaceLikelihood>>, error: Option<ProviderError>)
  datatype PlaceResponse = PlaceResponse(place: Option<PlaceDetail>, error: Option<ProviderError>)

  /**
   The provider client, reduced to its four primitive operations. Whatever the
   network, session and device state are, they are folded into these functions.
   */
  datatype Provider = Provider(
    findAutocompletePredictions: string -> AutocompleteResponse,
    reverseGeocodeCoordinate: Coordinate -> ReverseGeocodeResponse,
    findPlaceLikelihoods: PlaceFields -> LikelihoodResponse,
    fetchPlace: (string, PlaceFields) -> PlaceResponse)
}
