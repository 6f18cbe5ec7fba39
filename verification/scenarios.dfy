/**
 Concrete request/response scenarios for the dispatcher, each against a provider
 whose calls answer fixed payloads.
 */
module Scenarios {
  import opened Wrappers
  import opened Provider
  import opened GoogleDataModel
  import opened GoogleGeocoder

  function Detail(id: string, at: Coordinate): PlaceDetail {
    PlaceDetail(Some(id), Some(id), at, None)
  }

  /** A provider whose every call answers the given payloads. */
  function Fixed(auto: AutocompleteResponse, rev: ReverseGeocodeResponse, likely: LikelihoodResponse, detail: PlaceResponse): Provider {
    Provider(q => auto, c => rev, f => likely, (id, f) => detail)
  }

  const Quiet: Provider :=
    Fixed(AutocompleteResponse(None, None), ReverseGeocodeResponse(None, None),
          LikelihoodResponse(None, None), PlaceResponse(None, None))

  /** A forward search keeps the provider's prediction order, with no coordinates. */
  lemma ForwardKeepsPredictionOrder()
    ensures
      var p1 := Prediction("p1", AttributedText("123 Main St"), AttributedText("123 Main St"), AttributedText(""));
      var p2 := Prediction("p2", AttributedText("456 Main St"), AttributedText("456 Main St"), AttributedText(""));
      var provider := Quiet.(findAutocompletePredictions := q => AutocompleteResponse(Some([p1, p2]), None));
      var r := Fetch(provider, Forward("Main St"));
      && r.Success? && r.value.Many? && |r.value.places| == 2
      && r.value.places[0].id == Some("p1") && r.value.places[1].id == Some("p2")
      && r.value.places[0].coordinates.None? && r.value.places[1].coordinates.None?
  {
  }

  /** A reverse geocode with no results fails with the generic error. */
  lemma ReverseWithoutResultsFails()
    ensures
      var provider := Quiet.(reverseGeocodeCoordinate := c => ReverseGeocodeResponse(Some(ReverseGeocodeResult([])), None));
      Fetch(provider, Reverse(Coordinate(12.97, 77.59))) == Failure(PlaceError)
  {
  }

  /** A transport error on a detail fetch is carried verbatim. */
  lemma DetailTransportErrorIsCarried()
    ensures
      var provider := Quiet.(fetchPlace := (id, f) => PlaceResponse(None, Some(ProviderError("network unreachable"))));
      Fetch(provider, PlaceId("xyz")) == Failure(Custom("network unreachable"))
  {
  }

  /** The same transport error on a forward search loses its text. */
  lemma ForwardTransportErrorIsGeneric()
    ensures
      var provider := Quiet.(findAutocompletePredictions := q => AutocompleteResponse(None, Some(ProviderError("network unreachable"))));
      Fetch(provider, Forward("Main St")) == Failure(PlaceError)
  {
  }

  const CandidateA: PlaceLikelihood := PlaceLikelihood(Detail("A", Coordinate(0.0, 0.0)), 0.05)
  const CandidateB: PlaceLikelihood := PlaceLikelihood(Detail("B", Coordinate(1.0, 1.0)), 0.9)
  const CandidateC: PlaceLikelihood := PlaceLikelihood(Detail("C", Coordinate(2.0, 2.0)), 0.3)

  /** Recommendations drop the unlikely candidate and put the likelier one first. */
  lemma RecommendationsDropAndOrder()
    ensures
      var provider := Quiet.(findPlaceLikelihoods := f => LikelihoodResponse(Some([CandidateA, CandidateB, CandidateC]), None));
      Fetch(provider, PlaceRecommendations(PlaceFields(0))) ==
        Success(Many([FromDetail(CandidateB.place), FromDetail(CandidateC.place)]))
  {
    var cands := [CandidateA, CandidateB, CandidateC];
    assert cands[1..] == [CandidateB, CandidateC];
    assert [CandidateB, CandidateC][1..] == [CandidateC];
    assert Ranking.FilterLikely([CandidateC]) == [CandidateC];
    assert Ranking.FilterLikely(cands) == [CandidateB, CandidateC];
    assert Ranking.SortDescending([CandidateC]) == [CandidateC];
    assert Ranking.SortDescending([CandidateB, CandidateC]) == [CandidateB, CandidateC];
    assert CandidatePlaces([CandidateB, CandidateC]) == [FromDetail(CandidateB.place), FromDetail(CandidateC.place)];
  }

  /**
   The source's stall: a forward search decoded as a single place neither
   succeeds nor fails, although the provider answered without error.
   */
  lemma MismatchedDecodeTypeStalls()
    ensures
      var provider := Quiet.(findAutocompletePredictions := q => AutocompleteResponse(Some([]), None));
      FetchData(provider, Forward("Main St"), SinglePlace) == NoCompletion
  {
  }

  /** Decoded by its own request kind, every request completes. */
  lemma FetchAlwaysCompletes(provider: Provider, request: GeocodeType)
    ensures FetchData(provider, request, ExpectedType(request)).Delivered?
  {
  }
}
