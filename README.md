# FetchRecipes core in Dafny

FetchRecipes is a recipe list app. It reads a JSON resource of recipe groups (from
the app bundle, one file per request type). It decodes the resource, keeps the first
group, turns each record into a recipe view model and sorts the list by cuisine. Then
it publishes the result on a shared Combine subject. The list screen's view model
folds every published result into its state: the recipes, the error to display, and
a scroll-to-top flag. A reload action from the screen starts a new load.

This project models that core and proves what it promises:

- `wrappers.dfy`: `Option` and `Result`.
- `foundation.dfy`: the Foundation values the core handles. These are URLs, `URLError`
  (as code and description) and JSON documents.
- `combine.dfy`: delivery semantics of `PassthroughSubject` and `CurrentValueSubject`.
  Each subject keeps the history of values sent through it. Each subscription keeps the
  position where it started, and it receives the history from there on.
- `state_management.dfy`: `ViewModelWrapper` as a class. It has a mutable
  `observableItems`, an action publisher and a set of subscriptions (`cancellables`).
- `models.dfy`: `RecipeShape` with its synthesised JSON decoding and encoding,
  `Recipe.ObservableItems`, and the projection `toViewModel`.
- `string_order.dfy`: Swift's `String <` as lexicographic order on characters, with
  the order facts that sorting needs.
- `networking.dfy`: the package copy of `Networking`. It holds the error types,
  `RequestType`, the `loadRequest` chain from a finished data task to the published
  value, the sort by cuisine, `demoData`, and the static publisher and cancellables.
  The static members are modelled as a `Service` object.
- `networking_legacy.dfy`: the older copy of `Networking`. Its chain is proved to
  publish the same values as the package copy. Its publisher starts from `.success([])`.
- `recipes_list.dfy`: the list screen's state, the reducer its result sink applies, and
  the view model that routes reload actions to `loadRequest`.

The runtime pieces the code calls are parameters of the model, in
`Networking.Platform`: the JSON parser (`parseJson`), `URL(string:)` (`parseUrl`) and the
iteration order of a decoded dictionary (`iterationOrder`). Swift leaves that order
unspecified, but it visits every key exactly once; `Networking.ValidOrder` states this,
and the lemmas about which group is published assume it. The bundle is given as a map from resource file names to URLs. How a
data task ends is an input: a `URLError`, or the bytes received. Asynchrony is
modelled by explicit steps. `Service.Complete` models a data task finishing.
`RecipesList.ViewModel.ReceiveResult` and `ReceiveAction` each model one turn of the
main queue for one sink.

What the code does, where it may surprise a reader:

- Each `mapError` replaces every error that comes before it. So every failed load is
  published as `decodingFailed`: transport errors, zero-byte data and undecodable JSON
  alike (`FailuresCollapseToDecodingFailed`).
- A request type with no bundled resource loads `URL(fileURLWithPath: "")` (`Targets`).
  That load's failure is whatever its data task yields.
- A record needs all four of `name`, `cuisine`, `photo_url_large` and `photo_url_small`,
  as strings, and nothing checks that they are non-empty. The synthesised decoder also
  fails on an optional member that is present with a value that is neither null nor a
  string (`Models.Decode`).
- `loadRequest` returns nothing: it sends its result into a shared static publisher,
  and the model does the same (`Networking.Service`).
- Error equality compares the rendered messages (`Networking.Equal`).

## Model

| member | source | states |
|---|---|---|
| Networking.Value | Packages/Networking/Sources/Networking/Networking.swift:17-30 | every failure reason has a code between 1 and 5 |
| Networking.ValueIdentifiesCase | Packages/Networking/Sources/Networking/Networking.swift:17-30 | two reasons have the same code exactly when they are the same case, so the five codes are distinct |
| Networking.EqualIffSameCaseAndDetail | Packages/Networking/Sources/Networking/Networking.swift:36-58 | errors compare equal by `toString` exactly when they are the same case with the same interpolated detail; no two cases ever render alike |
| Networking.DecodingFailuresAreEqual | Packages/Networking/Sources/Networking/Networking.swift:36-51 | any two `decodingFailed` errors are equal and read "Malformed Data" |
| Networking.RawValueRoundTrip | Packages/Networking/Sources/Networking/Networking.swift:61-66 | `init?(rawValue:)` gives back the request type from its raw value |
| Networking.FromRawValueInverse | Packages/Networking/Sources/Networking/Networking.swift:61-66 | a string accepted by `init?(rawValue:)` is the raw value of the type it yields |
| Networking.RawValuesDistinct | FetchRecipes/Packages/Networking/Sources/Networking/Networking.swift:45-50 | different request types have different raw values |
| Networking.UrlForLooksUpOwnResource | Packages/Networking/Sources/Networking/Networking.swift:68-70 | `url(for:)` finds whatever URL the bundle holds for the type's own `<rawValue>.json`, finds nothing once that resource is gone, and is unaffected by every other resource |
| Networking.ResourceFilesDistinct | Packages/Networking/Sources/Networking/Networking.swift:61-70 | different request types never look up the same resource |
| Networking.DecodeEach | Packages/Networking/Sources/Networking/Networking.swift:89 | an array of records decodes exactly when every element decodes, to the decoded elements in order |
| Networking.DecodeEncodeRecords | Packages/Networking/Sources/Networking/Networking.swift:89 | an array of encoded records decodes as `[RecipeShape]` to the same records in the same order |
| Networking.DecodeEncodeResponse | Packages/Networking/Sources/Networking/Networking.swift:89 | the JSON object of any `[String: [RecipeShape]]` decodes back to it: the same group names, each with its records in order |
| Networking.FirstKey | Packages/Networking/Sources/Networking/Networking.swift:101 | `first` yields a key of the dictionary, and yields none exactly when the iteration order lists none of its keys |
| Networking.FirstGroupExists | Packages/Networking/Sources/Networking/Networking.swift:101 | `first` of a non-empty dictionary always yields a group, whatever the iteration order |
| Networking.InsertByCuisine | Packages/Networking/Sources/Networking/Networking.swift:101-103 | inserting into a list sorted by cuisine adds exactly one copy of the recipe and keeps the list sorted |
| Networking.SortByCuisine | Packages/Networking/Sources/Networking/Networking.swift:101-103 | `sorted { $0.cuisine < $1.cuisine }` returns a permutation of its input, non-decreasing by cuisine |
| Networking.SortedByCuisinePairwise | Packages/Networking/Sources/Networking/Networking.swift:101-103 | in a sorted list no later recipe has a cuisine less than an earlier one's |
| Networking.SortedCuisinesAreDetermined | Packages/Networking/Sources/Networking/Networking.swift:101-103 | any two sorted permutations of the same recipes list the same cuisines in the same order, whatever the sort does with ties |
| Networking.ResortingKeepsCuisineOrder | Packages/Networking/Sources/Networking/Networking.swift:101-103 | sorting an already sorted list leaves its cuisine order unchanged |
| Networking.FailuresCollapseToDecodingFailed | Packages/Networking/Sources/Networking/Networking.swift:80-92 | a load fails exactly when the transport fails, the data is empty or does not decode, and every failure is published as `decodingFailed` |
| Networking.TransportErrorReportsDecodingCode | Packages/Networking/Sources/Networking/Networking.swift:81-91 | a transport error is published with code 3 (`decodingFailed`), not 2 (`sessionFailed`) |
| Networking.ZeroBytesNeverDecoded | Packages/Networking/Sources/Networking/Networking.swift:83-88 | zero bytes always give a failure, the same one whatever the JSON parser |
| Networking.SuccessIsSortedFirstGroup | Packages/Networking/Sources/Networking/Networking.swift:97-105 | a success came from non-empty decodable data; its list is sorted by cuisine, has the first group's length, is a permutation of the group's views, and any other sorted permutation has the same cuisine order |
| Networking.DecodedResponsePublishesFirstGroup | Packages/Networking/Sources/Networking/Networking.swift:97-105 | data that decodes is always published as a success; a non-empty response publishes as many views as its first group has records, and the list is empty exactly when there are no groups or that group is empty |
| Networking.NoGroupsPublishesEmpty | Packages/Networking/Sources/Networking/Networking.swift:101-103 | a decoded object with no groups publishes `.success([])` |
| Networking.SingleRecordGroupPublishesIt | Packages/Networking/Sources/Networking/Networking.swift:89-103 | a response with one group of one valid record publishes exactly that record's view |
| Networking.DemoViewsIsOneRecipe | Packages/Networking/Sources/Networking/Networking.swift:121-137 | `demoData` survives its encode/decode round trip and is the one sample recipe |
| Networking.InitialValueIsDemoRecipe | Packages/Networking/Sources/Networking/Networking.swift:76 | the publisher's seed `.success(demoData ?? [])` is a success holding exactly one recipe, the sample |
| Networking.NewService | Packages/Networking/Sources/Networking/Networking.swift:72-76 | the static state starts with the publisher holding the demo seed, no subscribers and no stored sinks |
| Networking.Service.constructor | Packages/Networking/Sources/Networking/Networking.swift:72-76 | a fresh publisher holding exactly the seed, and an empty `cancellables` |
| Networking.Service.LoadRequest | Packages/Networking/Sources/Networking/Networking.swift:78-109 | `loadRequest` stores one more sink, for the given URL, and publishes nothing yet |
| Networking.Service.Complete | Packages/Networking/Sources/Networking/Networking.swift:94-109 | when a request's data task ends, its sink sends exactly the chain's result, once, to every subscriber |
| NetworkingLegacy.SameAsPackageCopy | FetchRecipes/Packages/Networking/Sources/Networking/Networking.swift:84-118 | the older copy's `loadRequest` publishes the same value as the package copy for every outcome |
| NetworkingLegacy.FailuresCollapseToDecodingFailed | FetchRecipes/Packages/Networking/Sources/Networking/Networking.swift:86-112 | in the older copy too, a load fails exactly on transport error, zero bytes or undecodable data, every failure is `decodingFailed`, and a success is sorted by cuisine |
| NetworkingLegacy.NewService | FetchRecipes/Packages/Networking/Sources/Networking/Networking.swift:56-60 | the older copy's publisher starts from `.success([])` |
| Models.Decode | Packages/Models/Sources/Models/Recipe.swift:12-19 | a record decodes exactly when the four required members are strings and each optional member is absent, null or a string; the required fields are copied from the JSON, and each optional field holds the member's string when there is one and nil when it is absent or null |
| Models.Encode | Packages/Models/Sources/Models/Recipe.swift:12-19 | encoding writes every required member and no member outside the record's seven keys |
| Models.DecodeEncode | Packages/Models/Sources/Models/Recipe.swift:12-19 | decoding an encoded record gives the record back |
| Models.OptionalMembersMayBeAbsent | Packages/Models/Sources/Models/Recipe.swift:13-19 | removing `uuid`, `source_url` and `youtube_url` from a decodable record leaves it decodable, with those fields nil and the rest unchanged |
| Models.RequiredMemberMissingFails | Packages/Models/Sources/Models/Recipe.swift:14-17 | a record without `name`, `cuisine`, `photo_url_large` or `photo_url_small` does not decode |
| Models.MakeItemsDefaults | Packages/Models/Sources/Models/Recipe.swift:36-50 | given only name and cuisine, all four URLs are nil |
| Models.ViewFieldsComeFromRecord | Packages/Models/Sources/Models/Recipe.swift:60-66 | the view copies name and cuisine verbatim and parses the photo from the large URL and the thumbnail from the small one |
| Models.AbsentOptionalsParseEmpty | Packages/Models/Sources/Models/Recipe.swift:67-68 | each of the source and video URLs is parsed on its own: from its string when present, from "" when absent, so an absent one is nil whenever "" does not parse, and nothing fails |
| Models.UuidIsDropped | Packages/Models/Sources/Models/Recipe.swift:60-69 | records that differ only in `uuid` have the same view |
| Models.DecodedViewShowsJson | Packages/Models/Sources/Models/Recipe.swift:12-23 | the view of a decoded record shows the JSON's name and cuisine strings |
| Models.MakeViewModel | Packages/Models/Sources/Models/Recipe.swift:60-72 | `init(recipeShape:)` makes a fresh wrapper holding the record's view, with a fresh, empty action publisher |
| StateManagement.ViewModelWrapper.constructor | Packages/StateManagement/Sources/StateManagement/ViewModelWrapper.swift:23-29 | `init` stores exactly the given state and action publisher, and `cancellables` starts empty |
| StateManagement.ViewModelWrapper.WithNewPublisher | Packages/StateManagement/Sources/StateManagement/ViewModelWrapper.swift:17-29 | without an action publisher argument a fresh one is created, with nothing sent and no subscribers |
| StateManagement.ReadsSurviveStateKeepingSteps | Packages/StateManagement/Sources/StateManagement/ViewModelWrapper.swift:32-34 | a step that leaves the state alone, such as `bind` or sending an action, leaves every dynamic-member read as it was |
| StateManagement.ReadsDependOnlyOnState | Packages/StateManagement/Sources/StateManagement/ViewModelWrapper.swift:32-34 | two wrappers holding the same state answer every dynamic-member read alike, whatever their channels and subscriptions |
| StateManagement.ViewModelWrapper.Bind | Packages/StateManagement/Sources/StateManagement/ViewModelWrapper.swift:43-48 | `bind` adds exactly one new subscription to `cancellables`, starting at the end of the action history, leaves the state alone and returns the wrapper itself |
| Combine.PassthroughSubject.Send | Packages/StateManagement/Sources/StateManagement/ViewModelWrapper.swift:12-15 | an action sent on the action publisher is appended to what every existing listener has received, so a bound listener receives every action sent after `bind` |
| RecipesList.ReduceOutcomes | FetchRecipes/ViewModels/RecipesListViewModel.swift:51-62 | a non-empty list replaces the recipes, clears the error and flips the scroll flag; an empty list empties the recipes and shows `emptyData(zeroByteResource)` with the flag unchanged; a failure sets only the error |
| RecipesList.ReplayShowsLatestList | FetchRecipes/ViewModels/RecipesListViewModel.swift:46-63 | after any sequence of results the recipes shown are those of the latest success, whatever failed later |
| RecipesList.ReplayScrollParity | FetchRecipes/ViewModels/RecipesListViewModel.swift:55-59 | the scroll flag is set exactly when an odd number of non-empty lists has arrived |
| RecipesList.ReplayShowsLatestError | FetchRecipes/ViewModels/RecipesListViewModel.swift:52-61 | no error is shown exactly when nothing has arrived or the latest result is a non-empty list; otherwise the error is the latest failure's, or `emptyData` for an empty list |
| RecipesList.ShownListIsSorted | FetchRecipes/ViewModels/RecipesListViewModel.swift:52-54 | when every list that arrives is sorted by cuisine, the list shown is sorted |
| RecipesList.Targets | FetchRecipes/ViewModels/RecipesListViewModel.swift:65-73 | the requests a run of reload actions starts are, one for one and in order, the bundle's URL for each request type, or the empty file URL when the bundle has none |
| RecipesList.SeedAndRequest | FetchRecipes/ViewModels/RecipesListViewModel.swift:39-41 | the publisher receives the demo seed, then one `loadRequest` for `allRecipes` is started; the new subscription is added after all earlier ones, which are kept, and starts at the seed |
| RecipesList.NewListWrapper | FetchRecipes/ViewModels/RecipesListViewModel.swift:42-73 | `self.init(observableItems: .init(), actionPublisher: ...)` holds the default state and a fresh action publisher, whose listener starts at the end of its (empty) history, and the wrapper keeps exactly the result subscription and the action subscription |
| RecipesList.Start | FetchRecipes/ViewModels/RecipesListViewModel.swift:38-74 | after the seed and the first request, the wrapper holds the default state and a fresh action publisher, and keeps exactly the two new subscriptions; the shared publisher keeps every earlier subscription |
| RecipesList.ViewModel.constructor | FetchRecipes/ViewModels/RecipesListViewModel.swift:38-74 | construction sends the demo seed, then requests `allRecipes`, then starts from the default state with both sinks subscribed and stored, the result sink holding just the seed; the shared publisher's earlier subscriptions are kept |
| RecipesList.ViewModel.HandleResult | FetchRecipes/ViewModels/RecipesListViewModel.swift:51-62 | the sink's in-place updates leave the state that `Reduce` gives |
| RecipesList.ViewModel.ReceiveResult | FetchRecipes/ViewModels/RecipesListViewModel.swift:46-63 | each turn handles the next published result if there is one, keeps the stored subscriptions, and the state is always the fold of all results handled so far |
| RecipesList.ViewModel.ReceiveAction | FetchRecipes/ViewModels/RecipesListViewModel.swift:65-73 | a pending `.reload(requestType)` starts exactly one `loadRequest`, for that type's target |
| RecipesList.ViewModel.SendReloadAction | FetchRecipes/ViewModels/RecipesListViewModel.swift:78-80 | `sendReloadAction` sends exactly `.reload(requestType)` on the action publisher, to every existing listener, and changes neither the subscriptions nor the state |
| RecipesList.ViewModel.CompleteRequest | FetchRecipes/ViewModels/RecipesListViewModel.swift:46-49 | a finished request appends its chain result to what the result sink will receive, keeps the stored requests and the publisher's subscriptions, and keeps the view model's invariant |

## Left out

- Data tasks, `URLSession` and the files they read are not modelled. How a data task ends is an input of `Networking.Service.Complete`.
- `Bundle.main.url(forResource:withExtension:)` is modelled as a lookup in a given map from resource file names to URLs.
- `JSONDecoder`'s parsing of bytes is a parameter, and so are `URL(string:)` and dictionary iteration order. `JSONEncoder` is modelled by the JSON document it produces.
- Combine schedulers, demand, completion and cancellation are not modelled. `receive(on: DispatchQueue.main)` becomes explicit delivery steps, and an `AnyCancellable` becomes a token naming its subscription.
- The `[weak self]` capture in the result sink is not modelled: the view model is assumed alive.
- `URLError` descriptions are modelled as plain strings; the exact text Swift interpolates for a `URLError` is not.
- `Networking.ToString`: the text of the `other` case interpolates an arbitrary `Error`, modelled as its description string.
- Networking.SortByCuisine: the model sorts by insertion, but it promises only what any sort promises (sorted, and a permutation). Swift's sort is not documented as stable, so no order among recipes of equal cuisine is promised.
- Swift's `String <` compares by Unicode canonical ordering. The model compares characters lexicographically, without normalisation.
- The older copy's two `print` calls are left out: they are output only.
- The commented-out generic `request` in the older copy is not part of this model.
- `Recipe.ViewModel.mock` and the list's `static url` and `static demo` are fixed sample instances; they are left out.
- Networking.MapToView and RecipesList.ObservableItems: `toViewModel` builds a `Recipe.ViewModel`, a class instance with its own mutable state and its own action publisher. The model publishes and stores the state value of each (`Models.ObservableItems`) instead, so object identity and the per-recipe publishers are not captured, and the permutation facts about the sorted list are about those values.
- `Recipe.Action` has no cases. The wrapper is generic in its action type, so nothing of it needs modelling.
- SwiftUI views, layout, the sticky-header scroll view, the image cache and the package manifests are presentation or build configuration, not part of this model.
- The `@Published` change notifications to SwiftUI observers are not modelled; the state is read with `Read`.
