/** The older copy of Networking.swift, kept inside the app's own package directory.
    Its error types and request types are the package copy's, without
    `FailureReason.value`; its `loadRequest` chain is written out here again, as it is
    written out again there, and proved to publish the same values. What differs is
    the publisher's seed: an empty list rather than the demo data. */
module NetworkingLegacy {
  import opened Wrappers
  import opened Foundation
  import opened Networking

  /** The older copy's `loadRequest`: data task, `mapError`, `tryMap`, `mapError`,
      `decode`, `map`, `mapError`, `catch`, then the sink's `first`/`map`/`sorted`. */
  function LoadResult(o: TransportOutcome, p: Platform): Published {
    var checked := RequireData(Transported(o)).MapError(
      (_: NetworkingError) => NetworkingError(FailureReason.EmptyData(ZeroByteResource)));
    match DecodeStage(checked, p.parseJson).MapError((_: ChainError) => NetworkingError(DecodingFailed))
    case Success(response) => Success(Listed(response, p))
    case Failure(error) => Failure(error)
  }

  /** Both copies publish the same value for every outcome of the data task. */
  lemma SameAsPackageCopy(o: TransportOutcome, p: Platform)
    ensures LoadResult(o, p) == Networking.LoadResult(o, p)
  {
  }

  /** In this copy too every failure is published as `decodingFailed`, zero bytes
      always fail, and a success is the first group sorted by cuisine. */
  lemma FailuresCollapseToDecodingFailed(o: TransportOutcome, p: Platform)
    ensures LoadResult(o, p).Failure? <==>
      o.TransportFailed? || |o.data| == 0 || ParseResponse(o.data, p).None?
    ensures LoadResult(o, p).Failure? ==> LoadResult(o, p).error == NetworkingError(DecodingFailed)
    ensures LoadResult(o, p).Success? ==> SortedByCuisine(LoadResult(o, p).value)
  {
    SameAsPackageCopy(o, p);
    Networking.FailuresCollapseToDecodingFailed(o, p);
  }

  /** This copy's static state at start-up: the publisher holds `.success([])`. */
  method NewService(platform: Platform) returns (s: Service)
    ensures fresh(s) && fresh(s.recipeModelPublisher) && s.Valid() && s.platform == platform
    ensures s.recipeModelPublisher.sent == [Success([])] && s.recipeModelPublisher.Value() == Success([])
    ensures s.recipeModelPublisher.offsets == [] && s.cancellables == [] && s.completed == {}
  {
    s := new Service(platform, Success([]));
  }
}
