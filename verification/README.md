# GooglePlaces geocoder core, modelled in Dafny

This project models the pure logic of a small iOS facade over a places/maps
provider. The logic has two layers:

- **Place normalisation** (`GoogleDataModel`). Three provider payload shapes
  are each mapped onto one `GooglePlace` record: a reverse-geocode address, a
  place detail and an autocomplete prediction. There is also a fixed
  "Use Current Location" sentinel. Place equality looks only at `address`,
  `id`, `coordinates` and `name`.
- **Geocode dispatch** (`GoogleGeocoder`, with `Ranking`). There are four request
  kinds: forward search, reverse geocode, nearby recommendations and detail by
  id. `fetchData` sends each kind to one provider call. Each handler turns the
  provider's `(payload?, error?)` callback into a `Result` of places or a
  `GeocodeError` (`placeError` or `custom(message)`).

The provider's SDK classes are plain immutable datatypes here (module
`Provider`). The provider client is a `Provider` value made of four total
functions, one for each primitive call. Each handler is a pure function from a
response to a `Delivery`. The source decodes through a generic type `T` that
the caller picks. Every failure path calls its completion directly, but a
success path calls it only when `value as? T` succeeds.
The model has a `DecodeType` for the requested type. A failed cast gives
`NoCompletion`, meaning the callback is never invoked.

Modules: `Wrappers` (Option, Result, `First`), `Provider` (payload shapes and
responses), `GoogleDataModel`, `Ranking` (likelihood filter and descending
sort), `GoogleGeocoder`, and `Scenarios` (concrete request/response cases).

Two points of the code deserve a note:

- `sorted(by: { $0.likelihood > $1.likelihood })` compares likelihoods only and is a stable sort, so equally likely recommendations keep the
  provider's order. The model's insertion sort is stable too, and
  `RankKeepsTieOrder` and `RecommendationsAreRankedLikelyPlaces` state it.
- The runtime-cast stall is kept as written (`FetchData`), and `Fetch` is the
  corrected entry point (see Findings).

## Model

| member | source | states |
|---|---|---|
| GoogleDataModel.Memberwise | GoogleDataModel.swift:21-27 | the five given fields are stored as passed; `state`, `city` and `country` start unset |
| GoogleDataModel.FirstLine | GoogleDataModel.swift:31 | the first address line when there is one; the empty string when the lines are missing or empty |
| GoogleDataModel.FromAddress | GoogleDataModel.swift:29-36 | no id; the address is always present (first line or ""); the name is the first present of thoroughfare, locality and administrative area, and is absent only when all three are; coordinates, postal code and country are copied; state and city are unset |
| GoogleDataModel.FromDetail | GoogleDataModel.swift:38-44 | id, name and coordinates are copied; the address is the formatted address or "", never absent; the postal code is absent |
| GoogleDataModel.FromPrediction | GoogleDataModel.swift:46-52 | id is the prediction's place id; the address is the full text and the name the primary text, both as the plain-text projection of the attributed strings; coordinates and postal code are absent |
| GoogleDataModel.DefaultPlace | GoogleDataModel.swift:54-57 | the sentinel has address "Enable location services" and name "Use Current Location"; every other field is absent |
| GoogleDataModel.SamePlace | GoogleDataModel.swift:59-62 | two places are equal when address, id, coordinates and name are equal; postal code, state, city and country are ignored |
| GoogleDataModel.SamePlaceIffDifferOnlyInIgnoredFields | GoogleDataModel.swift:59-62 | two places are equal exactly when they differ in nothing but postal code, state, city and country |
| GoogleDataModel.SamePlaceIgnoresPostalAndLocality | GoogleDataModel.swift:59-62 | changing the postal code, state, city or country never changes equality |
| GoogleDataModel.SamePlaceIsEquivalence | GoogleDataModel.swift:59-62 | place equality is reflexive, symmetric and transitive |
| GoogleDataModel.ConstructionIsRepeatable | GoogleDataModel.swift:29-57 | building a place twice from the same payload gives equal places, for every constructor |
| GoogleDataModel.DefaultPlaceEquality | GoogleDataModel.swift:54-62 | the sentinel equals a place exactly when that place has the sentinel's two texts and no id or coordinates, so it never equals a place with an id or coordinates |
| GoogleDataModel.ProviderPlacesNeverMatchDefault | GoogleDataModel.swift:29-62 | no place built from an address, a place detail or a prediction equals the sentinel |
| Ranking.FilterLikely | GoogleGeocoder.swift:94 | keeps a candidate exactly when its likelihood is at least 0.1, with its multiplicity, and drops the others |
| Ranking.Insert | GoogleGeocoder.swift:94 | inserting into a most-likely-first list keeps it most-likely-first and adds exactly that one candidate |
| Ranking.SortDescending | GoogleGeocoder.swift:94 | the result is most-likely-first and a permutation of the input |
| Ranking.Rank | GoogleGeocoder.swift:94 | the result is most-likely-first and holds exactly the input's candidates with likelihood at least 0.1, with their multiplicities |
| Ranking.FilterKeepsTieOrder | GoogleGeocoder.swift:94 | the filter keeps each group of equally likely candidates at or above 0.1 in input order, and drops groups below it |
| Ranking.InsertTied | GoogleGeocoder.swift:94 | insertion places the new candidate ahead of every equally likely one and leaves their order alone |
| Ranking.SortKeepsTieOrder | GoogleGeocoder.swift:94 | the sort is stable: equally likely candidates keep their input order |
| Ranking.RankKeepsTieOrder | GoogleGeocoder.swift:94 | among equally likely recommended candidates, the provider's order is kept |
| Ranking.RankLength | GoogleGeocoder.swift:94 | the ranking has as many entries as there are candidates at or above the threshold |
| Ranking.FilterLikelyCount | GoogleGeocoder.swift:94 | the filter keeps as many entries as there are candidates at or above the threshold |
| Ranking.RankOfUnlikelyIsEmpty | GoogleGeocoder.swift:94 | when every candidate is below 0.1, nothing is ranked |
| GoogleGeocoder.Deliver | GoogleGeocoder.swift:64-65 | a converted value reaches the completion as a success exactly when it casts to the requested type; otherwise nothing is delivered |
| GoogleGeocoder.PredictionPlaces | GoogleGeocoder.swift:64 | one place per prediction, in provider order, each built by the prediction constructor |
| GoogleGeocoder.CandidatePlaces | GoogleGeocoder.swift:94 | one place per candidate, in order, each built by the place-detail constructor |
| GoogleGeocoder.ForwardGeocode | GoogleGeocoder.swift:54-68 | it fails exactly when the provider reports an error, and then always with `placeError`; a success lists the predictions' places in order; a missing list gives an empty list; nothing is delivered only when there is no error and the requested type does not accept a list |
| GoogleGeocoder.ReverseGeocode | GoogleGeocoder.swift:70-85 | it fails exactly when the provider reports an error, returns no response or returns no results; a provider error becomes `custom` with its text; no response or no results gives `placeError`; a success is the first address converted; nothing is delivered only when a first address exists and the requested type does not accept one place |
| GoogleGeocoder.GetPlaceRecommendations | GoogleGeocoder.swift:87-99 | it fails exactly when the provider reports an error, and then with `custom` carrying its text; a success lists the ranked candidates' places one for one; nothing is delivered only when there is no error and the requested type does not accept a list |
| GoogleGeocoder.GetPlaceDetails | GoogleGeocoder.swift:101-116 | it fails exactly when the provider reports an error or returns no place; a provider error becomes `custom` with its text; a missing place gives `placeError`; a success is the detail conversion of the fetched place; nothing is delivered only when a place came back and the requested type does not accept one place |
| GoogleGeocoder.FetchData | GoogleGeocoder.swift:24-48 | a provider error on the routed call always ends in failure, generic for forward search and carrying the text otherwise; the success shape (list or single) is fixed by the request kind; nothing is delivered only when the provider succeeded and the requested type has the wrong shape |
| GoogleGeocoder.FetchDataRoutes | GoogleGeocoder.swift:30-47 | forward goes to the autocomplete handler, reverse to the reverse-geocode handler, recommendations to the likelihood handler and by-id to the detail handler (with the coordinate-only field selector), each fed by its own provider call |
| GoogleGeocoder.ReverseSucceedsWithFirstAddress | GoogleGeocoder.swift:77-83 | with no error and a first address, a single-place decode succeeds with that address converted |
| GoogleGeocoder.DetailsSucceedWithFetchedPlace | GoogleGeocoder.swift:108-114 | with no error and a fetched place, a single-place decode succeeds with its detail conversion |
| GoogleGeocoder.DispatchUsesOnlyRoutedCall | GoogleGeocoder.swift:30-47 | each request kind consults exactly one provider call: providers that agree on that call give the same outcome, whatever the other three calls answer |
| GoogleGeocoder.ReverseUsesOnlyFirstAddress | GoogleGeocoder.swift:77-82 | two reverse-geocode answers with the same first address give the same outcome; later addresses never matter |
| GoogleGeocoder.RecommendationsAreRankedLikelyPlaces | GoogleGeocoder.swift:94-95 | a successful recommendation has one place per candidate at or above 0.1; its places are the detail conversions of a most-likely-first permutation of exactly those candidates, with equally likely candidates in provider order |
| GoogleGeocoder.UnlikelyCandidatesGiveNoRecommendations | GoogleGeocoder.swift:87-99 | candidates that are all below 0.1 give a successful empty list |
| GoogleGeocoder.Fetch | GoogleGeocoder.swift:24-48 | the decode type is chosen by the request kind, so every request yields a result; that result is the one the source delivers for any decode type under which it delivers at all |
| Scenarios.ForwardKeepsPredictionOrder | GoogleGeocoder.swift:54-68 | predictions p1, p2 become places with ids p1, p2 in that order, without coordinates |
| Scenarios.ReverseWithoutResultsFails | GoogleGeocoder.swift:77-79 | a reverse geocode whose answer has no results fails with `placeError` |
| Scenarios.DetailTransportErrorIsCarried | GoogleGeocoder.swift:104-106 | a detail fetch failing with "network unreachable" fails with `custom("network unreachable")` |
| Scenarios.ForwardTransportErrorIsGeneric | GoogleGeocoder.swift:60-62 | the same provider error on a forward search fails with `placeError` |
| Scenarios.RecommendationsDropAndOrder | GoogleGeocoder.swift:94 | candidates A 0.05, B 0.9 and C 0.3 give the places of B then C |
| Scenarios.MismatchedDecodeTypeStalls | GoogleGeocoder.swift:64-66 | a forward search decoded as a single place delivers nothing, although the provider answered without error |
| Scenarios.FetchAlwaysCompletes | GoogleGeocoder.swift:24-48 | decoded as the type its request kind produces, every request is delivered |

## Left out

- The Combine plumbing (`Deferred`, `Future`, `.receive(on: DispatchQueue.main)`, `eraseToAnyPublisher`, `asResult` at GoogleGeocoder.swift:124-133) is left out. Delivery on the main thread is scheduling behaviour, not sequential logic.
- The provider SDK calls (`GMSPlacesClient.shared()`, `findAutocompletePredictions`, `reverseGeocodeCoordinate`, `findPlaceLikelihoodsFromCurrentLocation`, `fetchPlace`) are foreign. They are the four functions of a `Provider` value, and the handlers receive what those functions answer.
- The session token (`BaseApplicationDelegate.getGMSSessionToken()`) and the `["IN"]` country filter on the forward search are left out. They are pass-through parameters to the provider and are folded into the provider functions. The detail fetch's fixed `.coordinate` field selector is kept as `CoordinateField`.
- The `[weak self]` guard (GoogleGeocoder.swift:27-29) is left out. It is memory management. A deallocated geocoder would also deliver nothing.
- `Array<GMSMarker>.getPlaces` (GoogleDataModel.swift:65-71) is left out. It casts UI views.
- Coordinate rounding, `Double.rounded(toPlaces:)`, `CLLocationCoordinate2D.fallback()` and the coordinate `==` on raw doubles (GoogleDataModel.swift:73-96) are left out. Coordinates are an exact pair of reals with structural equality, so NaN and IEEE rounding are not modelled.
- GoogleDataModel.SamePlaceIffDifferOnlyInIgnoredFields: texts are compared as sequences of code points, so canonically equivalent but differently normalised strings (U+00E9 against "e" followed by U+0301) are equal under Swift's `String ==` and unequal here. The same holds for `GoogleDataModel.SamePlace` and the lemmas built on it. Unicode normalisation is not modelled.
- Styling inside attributed strings (predictions' full and primary texts) is not modelled; only their plain text is kept.
- Likelihoods are exact reals compared with the threshold 0.1. The double nearest to 0.1 is not modelled.
- The generic decode type is reduced to four classes: a single place, a list of places, `Any` (accepts both) and an unrelated type (accepts neither). Other Swift types that a place might bridge or cast to are not modelled.
- Setting `state`, `city` or `country` after construction is a datatype update on the immutable record. No enrichment step is modelled.

## Findings

| source | as written | input that shows it | evidently intended | confidence | as-written member | corrected member |
|---|---|---|---|---|---|---|
| GoogleGeocoder.swift:64-66 | each handler delivers a success only when `value as? T` succeeds, and otherwise never calls its completion, so the publisher never finishes | `fetchData(for: .forward("Main St"), decodeType: GooglePlace.self)` with the provider answering an empty prediction list and no error | every request completes, with the result shape fixed by the request kind | medium, not executed | Scenarios.MismatchedDecodeTypeStalls | GoogleGeocoder.Fetch |
