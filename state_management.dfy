/** `ViewModelWrapper`: a reference-typed container around a value-typed state
    (`observableItems`), an action channel and the set of subscriptions it keeps alive. */
module StateManagement {
  import opened Combine

  /** An `AnyCancellable`: the subscription `index` taken on the subject `publisher`. */
  datatype Token = Token(publisher: object, index: nat)

  class ViewModelWrapper<S, A> {
    var observableItems: S
    const actionPublisher: PassthroughSubject<A>
    var cancellables: set<Token>

    /** Every subscription kept on the own action channel names a subscription that exists. */
    ghost predicate Valid()
      reads this, actionPublisher
    {
      && actionPublisher.Valid()
      && forall t :: t in cancellables && t.publisher == actionPublisher ==> t.index < |actionPublisher.offsets|
    }

    /** `init(observableItems:actionPublisher:)` with an action publisher passed in. */
    constructor (observableItems: S, actionPublisher: PassthroughSubject<A>)
      requires actionPublisher.Valid()
      ensures Valid()
      ensures this.observableItems == observableItems && this.actionPublisher == actionPublisher
      ensures cancellables == {}
    {
      this.observableItems := observableItems;
      this.actionPublisher := actionPublisher;
      cancellables := {};
    }

    /** `init(observableItems:)`: the default argument creates a fresh action publisher. */
    constructor WithNewPublisher(observableItems: S)
      ensures Valid()
      ensures this.observableItems == observableItems
      ensures fresh(actionPublisher) && actionPublisher.sent == [] && actionPublisher.offsets == []
      ensures cancellables == {}
    {
      this.observableItems := observableItems;
      actionPublisher := new PassthroughSubject<A>();
      cancellables := {};
    }

    /** The dynamic-member subscript: reads the field `keyPath` selects from the state. */
    function Read<T>(keyPath: S -> T): (r: T)
      reads this
      ensures r == keyPath(observableItems)
    {
      keyPath(observableItems)
    }

    /** `bind(actions:)`: subscribes a listener to the action channel, keeps the
        subscription in `cancellables` and returns the wrapper itself. The listener is
        named by its subscription: what it is handed is `actionPublisher.Received(listener)`. */
    method Bind() returns (self: ViewModelWrapper<S, A>, listener: nat)
      requires Valid()
      modifies this, actionPublisher
      ensures Valid() && self == this
      ensures observableItems == old(observableItems)
      ensures actionPublisher.sent == old(actionPublisher.sent)
      ensures actionPublisher.offsets == old(actionPublisher.offsets) + [|actionPublisher.sent|]
      ensures listener == |old(actionPublisher.offsets)| && actionPublisher.Received(listener) == []
      ensures Token(actionPublisher, listener) !in old(cancellables)
      ensures cancellables == old(cancellables) + {Token(actionPublisher, listener)}
      ensures |cancellables| == |old(cancellables)| + 1
    {
      listener := actionPublisher.Subscribe();
      cancellables := cancellables + {Token(actionPublisher, listener)};
      self := this;
    }
  }

  /** A dynamic-member read sees the state and nothing else: a step that leaves
      `observableItems` alone (`bind`, an action sent on the channel, a subscription
      taken) leaves every read as it was, whatever else it changed. */
  twostate lemma ReadsSurviveStateKeepingSteps<S, A, T>(w: ViewModelWrapper<S, A>, keyPath: S -> T)
    requires old(w.observableItems) == w.observableItems
    ensures w.Read(keyPath) == old(w.Read(keyPath))
  {
  }

  /** Two wrappers holding the same state answer every read alike, whatever their
      channels and subscriptions. */
  lemma ReadsDependOnlyOnState<S, A, T>(v: ViewModelWrapper<S, A>, w: ViewModelWrapper<S, A>, keyPath: S -> T)
    requires v.observableItems == w.observableItems
    ensures v.Read(keyPath) == w.Read(keyPath)
  {
  }
}
