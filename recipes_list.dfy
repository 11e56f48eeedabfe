/** RecipesListViewModel.swift: the recipe list's state, the sink that folds each
    published result into it, and the routing of reload actions to `loadRequest`. */
module RecipesList {
  import opened Wrappers
  import opened Foundation
  import opened Combine
  import opened StateManagement
  import Models
  import opened Networking

  /** The list's state: the recipes shown, the error to show, and a flag that flips
      whenever the view should scroll back to the top. */
  datatype ObservableItems = ObservableItems(
    recipes: seq<Models.ObservableItems>,
    networkingError: Option<NetworkingError>,
    scrollToTop: bool)

  datatype Action = Reload(requestType: RequestType)

  /** `ObservableItems()`: every member at its default. */
  const Initial: ObservableItems := ObservableItems([], None, false)

  /** The error shown for an empty list: `emptyData(zeroByteResource)`. */
  const EmptyDataError: NetworkingError := NetworkingError(FailureReason.EmptyData(ZeroByteResource))

  /** What the result sink does to the state, as a function of the state and the result. */
  function Reduce(s: ObservableItems, r: Published): ObservableItems {
    match r
    case Success(response) =>
      var cleared := s.(networkingError := None).(recipes := response);
      if |response| == 0 then cleared.(networkingError := Some(EmptyDataError))
      else cleared.(scrollToTop := !cleared.scrollToTop)
    case Failure(error) => s.(networkingError := Some(error))
  }

  /** The three outcomes: a non-empty list replaces the recipes, clears the error and
      flips the flag; an empty list empties the recipes and shows `emptyData`, leaving the
      flag; a failure shows the error and leaves recipes and flag as they were. */
  lemma ReduceOutcomes(s: ObservableItems, r: Published)
    ensures r.Success? && |r.value| > 0 ==>
      Reduce(s, r) == ObservableItems(r.value, None, !s.scrollToTop)
    ensures r.Success? && |r.value| == 0 ==>
      Reduce(s, r) == ObservableItems([], Some(EmptyDataError), s.scrollToTop)
    ensures r.Failure? ==>
      Reduce(s, r) == ObservableItems(s.recipes, Some(r.error), s.scrollToTop)
  {
  }

  /** The state after the sink has handled `rs`, oldest first, starting from `Initial`. */
  function Replay(rs: seq<Published>): ObservableItems
    decreases |rs|
  {
    if rs == [] then Initial else Reduce(Replay(rs[..|rs| - 1]), rs[|rs| - 1])
  }

  /** The list carried by the latest success in `rs`, or none if there is no success. */
  function LatestList(rs: seq<Published>): seq<Models.ObservableItems>
    decreases |rs|
  {
    if rs == [] then []
    else if rs[|rs| - 1].Success? then rs[|rs| - 1].value
    else LatestList(rs[..|rs| - 1])
  }

  /** How many results in `rs` were non-empty successes. */
  function LoadedCount(rs: seq<Published>): nat
    decreases |rs|
  {
    if rs == [] then 0
    else LoadedCount(rs[..|rs| - 1]) + (if rs[|rs| - 1].Success? && |rs[|rs| - 1].value| > 0 then 1 else 0)
  }

  /** The latest completion wins: the recipes shown are those of the latest success,
      whatever failures came after it and whatever came before. */
  lemma {:induction false} ReplayShowsLatestList(rs: seq<Published>)
    ensures Replay(rs).recipes == LatestList(rs)
    decreases |rs|
  {
    if rs != [] {
      ReplayShowsLatestList(rs[..|rs| - 1]);
    }
  }

  /** The flag has flipped once per non-empty success. */
  lemma {:induction false} ReplayScrollParity(rs: seq<Published>)
    ensures Replay(rs).scrollToTop <==> LoadedCount(rs) % 2 == 1
    decreases |rs|
  {
    if rs != [] {
      ReplayScrollParity(rs[..|rs| - 1]);
    }
  }

  /** No error is shown exactly when nothing has arrived yet or the latest result was a
      non-empty list; otherwise the error shown is the latest result's. */
  lemma ReplayShowsLatestError(rs: seq<Published>)
    ensures Replay(rs).networkingError.None? <==>
      rs == [] || (rs[|rs| - 1].Success? && |rs[|rs| - 1].value| > 0)
    ensures rs != [] && rs[|rs| - 1].Failure? ==> Replay(rs).networkingError == Some(rs[|rs| - 1].error)
    ensures rs != [] && rs[|rs| - 1] == Success([]) ==> Replay(rs).networkingError == Some(EmptyDataError)
  {
  }

  /** If every list that arrives is sorted by cuisine, the list shown is too. */
  lemma {:induction false} ShownListIsSorted(rs: seq<Published>)
    requires forall i :: 0 <= i < |rs| && rs[i].Success? ==> SortedByCuisine(rs[i].value)
    ensures SortedByCuisine(Replay(rs).recipes)
    decreases |rs|
  {
    ReplayShowsLatestList(rs);
    if rs != [] && !rs[|rs| - 1].Success? {
      var prefix := rs[..|rs| - 1];
      assert forall i :: 0 <= i < |prefix| ==> prefix[i] == rs[i];
      ShownListIsSorted(prefix);
      ReplayShowsLatestList(prefix);
    }
  }

  /** The URL a reload of `t` loads: `url(for: t) ?? URL(fileURLWithPath: "")`. */
  function Target(bundle: map<string, Url>, t: RequestType): (u: Url)
    ensures ResourceFile(t) !in bundle ==> u == FileUrl("")
    ensures ResourceFile(t) in bundle ==> u == bundle[ResourceFile(t)]
  {
    UrlFor(bundle, t).GetOr(FileUrl(""))
  }

  /** The URLs that the actions `actions` load, in order. */
  function Targets(bundle: map<string, Url>, actions: seq<Action>): (urls: seq<Url>)
    ensures |urls| == |actions|
    ensures forall i :: 0 <= i < |actions| ==> urls[i] == Target(bundle, actions[i].requestType)
    decreases |actions|
  {
    if actions == [] then []
    else Targets(bundle, actions[..|actions| - 1]) + [Target(bundle, actions[|actions| - 1].requestType)]
  }

  /** The first steps of `init()`: seed the publisher with the demo data, request all
      recipes, and subscribe to the publisher's results. */
  method SeedAndRequest(service: Service, bundle: map<string, Url>) returns (results: nat)
    requires service.Valid()
    modifies service, service.recipeModelPublisher
    ensures service.Valid()
    ensures service.recipeModelPublisher.sent ==
      old(service.recipeModelPublisher.sent) + [InitialValue(service.platform.parseUrl)]
    ensures service.cancellables == old(service.cancellables) + [Target(bundle, AllRecipes)]
    ensures service.completed == old(service.completed)
    ensures results == |old(service.recipeModelPublisher.offsets)|
    ensures service.recipeModelPublisher.offsets ==
      old(service.recipeModelPublisher.offsets) + [|service.recipeModelPublisher.sent| - 1]
  {
    var publisher := service.recipeModelPublisher;
    publisher.Send(InitialValue(service.platform.parseUrl));
    service.LoadRequest(Target(bundle, AllRecipes));
    results := publisher.Subscribe();
  }

  /** `super.init(observableItems: ObservableItems())` and the action subscription: the
      default state with a fresh action publisher, listened to, and both subscriptions kept. */
  method NewListWrapper(results: Token) returns (w: ViewModelWrapper<ObservableItems, Action>, actions: nat)
    ensures fresh(w) && fresh(w.actionPublisher) && w.Valid()
    ensures actions < |w.actionPublisher.offsets| && w.actionPublisher.offsets[actions] == |w.actionPublisher.sent|
    ensures w.observableItems == Initial
    ensures w.cancellables == {results, Token(w.actionPublisher, actions)} && |w.cancellables| == 2
  {
    var channel := new PassthroughSubject<Action>();
    w := new ViewModelWrapper(Initial, channel);
    actions := channel.Subscribe();
    w.cancellables := {results, Token(channel, actions)};
    assert results != Token(channel, actions);
  }

  /** The steps of `init()` before the view model exists: seed and request, wrap the default
      state with a fresh action publisher, subscribe to it, and keep both
      subscriptions in the wrapper's `cancellables`. */
  method Start(service: Service, bundle: map<string, Url>)
    returns (w: ViewModelWrapper<ObservableItems, Action>, results: nat, actions: nat)
    requires service.Valid()
    modifies service, service.recipeModelPublisher
    ensures service.Valid() && w.Valid() && fresh(w) && fresh(w.actionPublisher)
    ensures service.recipeModelPublisher.sent ==
      old(service.recipeModelPublisher.sent) + [InitialValue(service.platform.parseUrl)]
    ensures service.cancellables == old(service.cancellables) + [Target(bundle, AllRecipes)]
    ensures service.completed == old(service.completed)
    ensures results == |old(service.recipeModelPublisher.offsets)|
    ensures service.recipeModelPublisher.offsets ==
      old(service.recipeModelPublisher.offsets) + [|service.recipeModelPublisher.sent| - 1]
    ensures actions < |w.actionPublisher.offsets| && w.actionPublisher.offsets[actions] == |w.actionPublisher.sent|
    ensures w.observableItems == Initial
    ensures w.cancellables == {Token(service.recipeModelPublisher, results), Token(w.actionPublisher, actions)}
    ensures |w.cancellables| == 2
  {
    results := SeedAndRequest(service, bundle);
    w, actions := NewListWrapper(Token(service.recipeModelPublisher, results));
  }

  /** `RecipesList.ViewModel`: the wrapper around the list state, with its two sinks.
      The result sink handles what the publisher holds for it up to `resultsHandled`; the
      action sink has turned the first `actionsHandled` actions into requests. */
  class ViewModel {
    const wrapper: ViewModelWrapper<ObservableItems, Action>
    const service: Service
    const bundle: map<string, Url>
    const resultSubscription: nat
    const actionSubscription: nat
    ghost const requestsBefore: nat
    var resultsHandled: nat
    var actionsHandled: nat

    ghost predicate Valid()
      reads this, wrapper, wrapper.actionPublisher, service, service.recipeModelPublisher
    {
      && wrapper.Valid() && service.Valid()
      && resultSubscription < |service.recipeModelPublisher.offsets|
      && actionSubscription < |wrapper.actionPublisher.offsets|
      && Token(service.recipeModelPublisher, resultSubscription) in wrapper.cancellables
      && Token(wrapper.actionPublisher, actionSubscription) in wrapper.cancellables
      && resultsHandled <= |service.recipeModelPublisher.Received(resultSubscription)|
      && wrapper.observableItems == Replay(service.recipeModelPublisher.Received(resultSubscription)[..resultsHandled])
      && actionsHandled <= |wrapper.actionPublisher.Received(actionSubscription)|
      && |service.cancellables| == requestsBefore + actionsHandled
      && service.cancellables[requestsBefore..] ==
         Targets(bundle, wrapper.actionPublisher.Received(actionSubscription)[..actionsHandled])
    }

    /** The results the sink has been handed so far. */
    function Results(): seq<Published>
      reads this, service, service.recipeModelPublisher
      requires service.Valid() && resultSubscription < |service.recipeModelPublisher.offsets|
    {
      service.recipeModelPublisher.Received(resultSubscription)
    }

    /** The actions the action sink has been handed so far. */
    function Actions(): seq<Action>
      reads this, wrapper, wrapper.actionPublisher
      requires wrapper.actionPublisher.Valid() && actionSubscription < |wrapper.actionPublisher.offsets|
    {
      wrapper.actionPublisher.Received(actionSubscription)
    }

    /** `init()`: seed the publisher with the demo data, request all recipes, wrap the
        default state with a fresh action publisher, then subscribe to results and actions. */
    constructor (service: Service, bundle: map<string, Url>)
      requires service.Valid()
      modifies service, service.recipeModelPublisher
      ensures Valid() && this.service == service && this.bundle == bundle
      ensures fresh(wrapper) && fresh(wrapper.actionPublisher)
      ensures service.recipeModelPublisher.sent ==
        old(service.recipeModelPublisher.sent) + [InitialValue(service.platform.parseUrl)]
      ensures service.cancellables == old(service.cancellables) + [Target(bundle, AllRecipes)]
      ensures service.completed == old(service.completed)
      ensures resultSubscription == |old(service.recipeModelPublisher.offsets)|
      ensures service.recipeModelPublisher.offsets ==
        old(service.recipeModelPublisher.offsets) + [|service.recipeModelPublisher.sent| - 1]
      ensures Results() == [InitialValue(service.platform.parseUrl)] && Actions() == []
      ensures resultsHandled == 0 && actionsHandled == 0
      ensures wrapper.observableItems == Initial && |wrapper.cancellables| == 2
    {
      var w, results, actions := Start(service, bundle);
      this.wrapper := w;
      this.service := service;
      this.bundle := bundle;
      resultSubscription, actionSubscription := results, actions;
      requestsBefore := |service.cancellables|;
      resultsHandled, actionsHandled := 0, 0;
    }

    /** The body of the result sink: clear the error, take the list, then either show
        `emptyData` or flip the scroll flag; a failure only sets the error. */
    method HandleResult(r: Published)
      requires wrapper.Valid()
      modifies wrapper
      ensures wrapper.Valid() && wrapper.cancellables == old(wrapper.cancellables)
      ensures wrapper.observableItems == Reduce(old(wrapper.observableItems), r)
    {
      match r {
        case Success(response) =>
          wrapper.observableItems := wrapper.observableItems.(networkingError := None);
          wrapper.observableItems := wrapper.observableItems.(recipes := response);
          if |response| == 0 {
            wrapper.observableItems := wrapper.observableItems.(networkingError := Some(EmptyDataError));
          } else {
            wrapper.observableItems := wrapper.observableItems.(scrollToTop := !wrapper.observableItems.scrollToTop);
          }
        case Failure(error) =>
          wrapper.observableItems := wrapper.observableItems.(networkingError := Some(error));
      }
    }

    /** A turn of the main queue for the result sink: handle the next result, if any. */
    method ReceiveResult() returns (handled: bool)
      requires Valid()
      modifies this, wrapper
      ensures Valid() && actionsHandled == old(actionsHandled)
      ensures wrapper.cancellables == old(wrapper.cancellables)
      ensures handled <==> old(resultsHandled) < |Results()|
      ensures handled ==> resultsHandled == old(resultsHandled) + 1
      ensures handled ==> wrapper.observableItems == Reduce(old(wrapper.observableItems), Results()[old(resultsHandled)])
      ensures !handled ==> resultsHandled == old(resultsHandled) && wrapper.observableItems == old(wrapper.observableItems)
      ensures wrapper.observableItems == Replay(Results()[..resultsHandled])
    {
      var received := service.recipeModelPublisher.Received(resultSubscription);
      if resultsHandled < |received| {
        HandleResult(received[resultsHandled]);
        assert received[..resultsHandled + 1][..resultsHandled] == received[..resultsHandled];
        resultsHandled := resultsHandled + 1;
        handled := true;
      } else {
        handled := false;
      }
    }

    /** A turn of the main queue for the action sink: a pending `.reload(requestType)`
        starts exactly one `loadRequest`, for `url(for: requestType) ?? URL(fileURLWithPath: "")`. */
    method ReceiveAction() returns (handled: bool)
      requires Valid()
      modifies this, service
      ensures Valid() && resultsHandled == old(resultsHandled)
      ensures handled <==> old(actionsHandled) < |Actions()|
      ensures handled ==> actionsHandled == old(actionsHandled) + 1
      ensures handled ==>
        service.cancellables == old(service.cancellables) + [Target(bundle, Actions()[old(actionsHandled)].requestType)]
      ensures !handled ==> actionsHandled == old(actionsHandled) && service.cancellables == old(service.cancellables)
      ensures service.completed == old(service.completed)
    {
      var received := wrapper.actionPublisher.Received(actionSubscription);
      if actionsHandled < |received| {
        ghost var before := service.cancellables;
        match received[actionsHandled] {
          case Reload(requestType) =>
            service.LoadRequest(Target(bundle, requestType));
        }
        var url := Target(bundle, received[actionsHandled].requestType);
        assert service.cancellables == before + [url];
        assert service.cancellables[requestsBefore..] == before[requestsBefore..] + [url];
        assert received[..actionsHandled + 1][..actionsHandled] == received[..actionsHandled];
        actionsHandled := actionsHandled + 1;
        handled := true;
      } else {
        handled := false;
      }
    }

    /** `sendReloadAction(requestType:)`: sends `.reload(requestType)` on the action publisher. */
    method SendReloadAction(requestType: RequestType)
      requires Valid()
      modifies wrapper.actionPublisher
      ensures Valid()
      ensures wrapper.actionPublisher.sent == old(wrapper.actionPublisher.sent) + [Reload(requestType)]
      ensures wrapper.actionPublisher.offsets == old(wrapper.actionPublisher.offsets)
      ensures Actions() == old(Actions()) + [Reload(requestType)]
      ensures wrapper.observableItems == old(wrapper.observableItems)
    {
      wrapper.actionPublisher.Send(Reload(requestType));
      assert Actions()[..actionsHandled] == old(Actions())[..actionsHandled];
    }

    /** The data task of request `i` ends with `o`, and its sink publishes the result. */
    method CompleteRequest(i: nat, o: TransportOutcome)
      requires Valid() && i < |service.cancellables| && i !in service.completed
      modifies service, service.recipeModelPublisher
      ensures Valid()
      ensures Results() == old(Results()) + [LoadResult(o, service.platform)]
      ensures service.completed == old(service.completed) + {i}
      ensures service.cancellables == old(service.cancellables)
      ensures service.recipeModelPublisher.sent == old(service.recipeModelPublisher.sent) + [LoadResult(o, service.platform)]
      ensures service.recipeModelPublisher.offsets == old(service.recipeModelPublisher.offsets)
    {
      service.Complete(i, o);
      assert Results()[..resultsHandled] == old(Results())[..resultsHandled];
    }
  }
}
