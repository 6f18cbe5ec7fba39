/**
 The geocode dispatcher: one entry point, four request kinds.

 Each request kind is routed to one provider call; the provider's
 `(payload?, error?)` answer is turned into a `Result` of places or a
 `GeocodeError`. The source decodes through a caller-chosen generic type and
 delivers a success only when the converted value casts to that type; a
 failed cast delivers nothing at all, modelled as `NoCompletion`.
 */
module GoogleGeocoder {
  import opened Wrappers
  import opened Provider
  import opened GoogleDataModel
  import Ranking

  /** The four request kinds. */
  datatype GeocodeType =
    | Forward(query: string)
    | Reverse(coordinates: Coordinate)
    | PlaceRecommendations(fields: PlaceFields)
    | PlaceId(id: string)

  /** The two-variant error taxonomy. */
  datatype GeocodeError = PlaceError | Custom(message: string)

  /** A converted value: one place, or an ordered list of places. */
  datatype Decoded = One(place: GooglePlace) | Many(places: seq<GooglePlace>)

  /**
   The type the caller asks the value to be decoded as: `GooglePlace`,
   `[GooglePlace]`, `Any`, or any type neither shape casts to.
   */
  datatype DecodeType = SinglePlace | PlaceList | AnyValue | Unrelated

  /** `value as? T` succeeds for a single place. */
  predicate AcceptsOne(t: DecodeType) {
    t.SinglePlace? || t.AnyValue?
  }

  /** `value as? T` succeeds for a list of places. */
  predicate AcceptsMany(t: DecodeType) {
    t.PlaceList? || t.AnyValue?
  }

  predicate Casts(v: Decoded, t: DecodeType) {
    match v
    case One(_) => AcceptsOne(t)
    case Many(_) => AcceptsMany(t)
  }

  /** What the completion handler receives, if it is called at all. */
  datatype Delivery = Delivered(result: Result<Decoded, GeocodeError>) | NoCompletion

  function Fail(e: GeocodeError): Delivery {
    Delivered(Failure(e))
  }

  /** A successful conversion is delivered only when it casts to the requested type. */
  function Deliver(v: Decoded, t: DecodeType): (d: Delivery)
    ensures d.NoCompletion? <==> !Casts(v, t)
    ensures d.Delivered? ==> d.result == Success(v)
  {
    if Casts(v, t) then Delivered(Success(v)) else NoCompletion
  }

  /** Every prediction converted, in provider order. */
  function PredictionPlaces(preds: seq<Prediction>): (r: seq<GooglePlace>)
    ensures |r| == |preds|
    ensures forall i :: 0 <= i < |preds| ==> r[i] == FromPrediction(preds[i])
  {
    if |preds| == 0 then [] else [FromPrediction(preds[0])] + PredictionPlaces(preds[1..])
  }

  /** Every candidate's place converted through the detail constructor, in order. */
  function CandidatePlaces(cands: seq<PlaceLikelihood>): (r: seq<GooglePlace>)
    ensures |r| == |cands|
    ensures forall i :: 0 <= i < |cands| ==> r[i] == FromDetail(cands[i].place)
  {
    if |cands| == 0 then [] else [FromDetail(cands[0].place)] + CandidatePlaces(cands[1..])
  }

  /** Completion logic of the forward (autocomplete) search. */
  function ForwardGeocode(resp: AutocompleteResponse, t: DecodeType): (d: Delivery)
    // any provider error becomes the generic error, its text dropped
    ensures resp.error.Some? ==> d == Fail(PlaceError)
    ensures d.Delivered? && d.result.Failure? <==> resp.error.Some?
    // otherwise one place per prediction, same order; no predictions means an empty list
    ensures d.Delivered? && d.result.Success? ==>
      var preds := resp.results.GetOr([]);
      && d.result.value.Many?
      && |d.result.value.places| == |preds|
      && forall i :: 0 <= i < |preds| ==> d.result.value.places[i] == FromPrediction(preds[i])
    ensures resp.error.None? && resp.results.None? && AcceptsMany(t) ==> d == Delivered(Success(Many([])))
    ensures d.NoCompletion? <==> resp.error.None? && !AcceptsMany(t)
  {
    match resp.error
    case Some(_) => Fail(PlaceError)
    case None => Deliver(Many(PredictionPlaces(resp.results.GetOr([]))), t)
  }

  /** Completion logic of the reverse geocode. */
  function ReverseGeocode(resp: ReverseGeocodeResponse, t: DecodeType): (d: Delivery)
    ensures resp.error.Some? ==> d == Fail(Custom(resp.error.value.localizedDescription))
    ensures resp.error.None? && (resp.response.None? || resp.response.value.results == []) ==> d == Fail(PlaceError)
    ensures d.Delivered? && d.result.Failure? <==>
      resp.error.Some? || resp.response.None? || |resp.response.value.results| == 0
    // a success is the first address converted, never a later one
    ensures d.Delivered? && d.result.Success? ==>
      && resp.error.None? && resp.response.Some? && |resp.response.value.results| > 0
      && d.result.value == One(FromAddress(resp.response.value.results[0]))
    ensures d.NoCompletion? <==>
      resp.error.None? && resp.response.Some? && |resp.response.value.results| > 0 && !AcceptsOne(t)
  {
    if resp.error.Some? then Fail(Custom(resp.error.value.localizedDescription))
    else if resp.response.None? || resp.response.value.FirstResult().None? then Fail(PlaceError)
    else Deliver(One(FromAddress(resp.response.value.FirstResult().value)), t)
  }

  /** Completion logic of the nearby-place recommendations. */
  function GetPlaceRecommendations(resp: LikelihoodResponse, t: DecodeType): (d: Delivery)
    ensures resp.error.Some? ==> d == Fail(Custom(resp.error.value.localizedDescription))
    ensures d.Delivered? && d.result.Failure? <==> resp.error.Some?
    // a success lists the ranked candidates' places, one for one
    ensures d.Delivered? && d.result.Success? ==>
      var ranked := Ranking.Rank(resp.results.GetOr([]));
      && d.result.value.Many?
      && |d.result.value.places| == |ranked|
      && forall i :: 0 <= i < |ranked| ==> d.result.value.places[i] == FromDetail(ranked[i].place)
    ensures d.NoCompletion? <==> resp.error.None? && !AcceptsMany(t)
  {
    match resp.error
    case Some(e) => Fail(Custom(e.localizedDescription))
    case None => Deliver(Many(CandidatePlaces(Ranking.Rank(resp.results.GetOr([])))), t)
  }

  /** Completion logic of the place-detail fetch by identifier. */
  function GetPlaceDetails(resp: PlaceResponse, t: DecodeType): (d: Delivery)
    ensures resp.error.Some? ==> d == Fail(Custom(resp.error.value.localizedDescription))
    ensures resp.error.None? && resp.place.None? ==> d == Fail(PlaceError)
    ensures d.Delivered? && d.result.Failure? <==> resp.error.Some? || resp.place.None?
    ensures d.Delivered? && d.result.Success? ==>
      resp.error.None? && resp.place.Some? && d.result.value == One(FromDetail(resp.place.value))
    ensures d.NoCompletion? <==> resp.error.None? && resp.place.Some? && !AcceptsOne(t)
  {
    if resp.error.Some? then Fail(Custom(resp.error.value.localizedDescription))
    else if resp.place.None? then Fail(PlaceError)
    else Deliver(One(FromDetail(resp.place.value)), t)
  }

  /** The provider error reported by the call a request is routed to. */
  function RoutedError(provider: Provider, request: GeocodeType): Option<ProviderError> {
    match request
    case Forward(query) => provider.findAutocompletePredictions(query).error
    case Reverse(coordinates) => provider.reverseGeocodeCoordinate(coordinates).error
    case PlaceRecommendations(fields) => provider.findPlaceLikelihoods(fields).error
    case PlaceId(id) => provider.fetchPlace(id, CoordinateField).error
  }

  /** The decode type whose shape each request kind produces. */
  function ExpectedType(request: GeocodeType): DecodeType {
    match request
    case Forward(_) => PlaceList
    case Reverse(_) => SinglePlace
    case PlaceRecommendations(_) => PlaceList
    case PlaceId(_) => SinglePlace
  }

  /** The source's `fetchData`: route the request to its provider call and completion logic. */
  function FetchData(provider: Provider, request: GeocodeType, t: DecodeType): (d: Delivery)
    // a provider error always completes with a failure; only the forward search drops its text
    ensures RoutedError(provider, request).Some? ==>
      d == Fail(if request.Forward? then PlaceError else Custom(RoutedError(provider, request).value.localizedDescription))
    // the success shape is fixed by the request kind
    ensures d.Delivered? && d.result.Success? ==>
      (d.result.value.Many? <==> request.Forward? || request.PlaceRecommendations?)
    // nothing is delivered only when the provider succeeded and the requested type has the wrong shape
    ensures d.NoCompletion? ==> RoutedError(provider, request).None? && t != AnyValue && t != ExpectedType(request)
  {
    match request
    case Forward(query) => ForwardGeocode(provider.findAutocompletePredictions(query), t)
    case Reverse(coordinates) => ReverseGeocode(provider.reverseGeocodeCoordinate(coordinates), t)
    case PlaceRecommendations(fields) => GetPlaceRecommendations(provider.findPlaceLikelihoods(fields), t)
    case PlaceId(id) => GetPlaceDetails(provider.fetchPlace(id, CoordinateField), t)
  }

  /**
   Dispatch with the decode type chosen by the request kind rather than by the
   caller: every request completes, with the result the source delivers for
   any decode type under which it completes at all.
   */
  function Fetch(provider: Provider, request: GeocodeType): (r: Result<Decoded, GeocodeError>)
    ensures forall t :: FetchData(provider, request, t).Delivered? ==> FetchData(provider, request, t).result == r
    ensures r.Success? ==> (r.value.Many? <==> request.Forward? || request.PlaceRecommendations?)
  {
    var d := FetchData(provider, request, ExpectedType(request));
    assert d.Delivered?;
    d.result
  }

  /** Each request kind reaches its own completion logic, fed by its own provider call. */
  lemma FetchDataRoutes(provider: Provider, request: GeocodeType, t: DecodeType)
    ensures request.Forward? ==>
      FetchData(provider, request, t) == ForwardGeocode(provider.findAutocompletePredictions(request.query), t)
    ensures request.Reverse? ==>
      FetchData(provider, request, t) == ReverseGeocode(provider.reverseGeocodeCoordinate(request.coordinates), t)
    ensures request.PlaceRecommendations? ==>
      FetchData(provider, request, t) == GetPlaceRecommendations(provider.findPlaceLikelihoods(request.fields), t)
    ensures request.PlaceId? ==>
      FetchData(provider, request, t) == GetPlaceDetails(provider.fetchPlace(request.id, CoordinateField), t)
  {
  }

  /** Two providers that answer the routed call alike. */
  predicate AgreeOnRoutedCall(p1: Provider, p2: Provider, request: GeocodeType) {
    match request
    case Forward(query) => p1.findAutocompletePredictions(query) == p2.findAutocompletePredictions(query)
    case Reverse(coordinates) => p1.reverseGeocodeCoordinate(coordinates) == p2.reverseGeocodeCoordinate(coordinates)
    case PlaceRecommendations(fields) => p1.findPlaceLikelihoods(fields) == p2.findPlaceLikelihoods(fields)
    case PlaceId(id) => p1.fetchPlace(id, CoordinateField) == p2.fetchPlace(id, CoordinateField)
  }

  /** Each request consults exactly one provider call: the other three can answer anything. */
  lemma DispatchUsesOnlyRoutedCall(p1: Provider, p2: Provider, request: GeocodeType, t: DecodeType)
    requires AgreeOnRoutedCall(p1, p2, request)
    ensures FetchData(p1, request, t) == FetchData(p2, request, t)
  {
  }

  /** The reverse geocode looks at the first address only: later ones never matter. */
  lemma ReverseUsesOnlyFirstAddress(r1: ReverseGeocodeResult, r2: ReverseGeocodeResult, t: DecodeType)
    requires |r1.results| > 0 && |r2.results| > 0 && r1.results[0] == r2.results[0]
    ensures ReverseGeocode(ReverseGeocodeResponse(Some(r1), None), t) == ReverseGeocode(ReverseGeocodeResponse(Some(r2), None), t)
  {
  }

  /** A reverse geocode with a first address, decoded as one place, succeeds with that address converted. */
  lemma ReverseSucceedsWithFirstAddress(r: ReverseGeocodeResult, t: DecodeType)
    requires |r.results| > 0 && AcceptsOne(t)
    ensures ReverseGeocode(ReverseGeocodeResponse(Some(r), None), t) == Delivered(Success(One(FromAddress(r.results[0]))))
  {
  }

  /** A detail fetch that returns a place, decoded as one place, succeeds with its detail conversion. */
  lemma DetailsSucceedWithFetchedPlace(place: PlaceDetail, t: DecodeType)
    requires AcceptsOne(t)
    ensures GetPlaceDetails(PlaceResponse(Some(place), None), t) == Delivered(Success(One(FromDetail(place))))
  {
  }

  /**
   A successful recommendation lists, one place per candidate, a most-likely-first
   arrangement of exactly the candidates reaching the threshold, with equally likely
   candidates in provider order.
   */
  lemma RecommendationsAreRankedLikelyPlaces(cands: seq<PlaceLikelihood>, t: DecodeType)
    requires AcceptsMany(t)
    ensures var d := GetPlaceRecommendations(LikelihoodResponse(Some(cands), None), t);
      && d.Delivered? && d.result.Success? && d.result.value.Many?
      && |d.result.value.places| == Ranking.CountLikely(cands)
      && exists ranked ::
        && Ranking.SortedDescending(ranked)
        && (forall c :: multiset(ranked)[c] == if Ranking.Likely(c) then multiset(cands)[c] else 0)
        && (forall v :: Ranking.Tied(ranked, v) == if v >= Ranking.MinLikelihood then Ranking.Tied(cands, v) else [])
        && d.result.value.places == CandidatePlaces(ranked)
  {
    var ranked := Ranking.Rank(cands);
    Ranking.RankLength(cands);
    forall v ensures Ranking.Tied(ranked, v) == if v >= Ranking.MinLikelihood then Ranking.Tied(cands, v) else [] {
      Ranking.RankKeepsTieOrder(cands, v);
    }
    var d := GetPlaceRecommendations(LikelihoodResponse(Some(cands), None), t);
    assert d.result.value.places == CandidatePlaces(ranked);
  }

  /** With no candidate reaching the threshold, the recommendation succeeds with no places. */
  lemma UnlikelyCandidatesGiveNoRecommendations(cands: seq<PlaceLikelihood>, t: DecodeType)
    requires AcceptsMany(t)
    requires forall i :: 0 <= i < |cands| ==> !Ranking.Likely(cands[i])
    ensures GetPlaceRecommendations(LikelihoodResponse(Some(cands), None), t) == Delivered(Success(Many([])))
  {
    Ranking.RankOfUnlikelyIsEmpty(cands);
  }
}
