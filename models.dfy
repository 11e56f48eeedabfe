/** Recipe.swift: the wire record `RecipeShape`, its JSON coding, and its projection
    onto the state of a recipe view model (`Recipe.ObservableItems`). */
module Models {
  import opened Wrappers
  import opened Foundation
  import opened StateManagement
  import Combine

  /** A recipe as the JSON resource carries it. */
  datatype RecipeShape = RecipeShape(
    uuid: Option<string>,
    name: string,
    cuisine: string,
    photoUrlLarge: string,
    photoUrlSmall: string,
    sourceUrl: Option<string>,
    youtubeUrl: Option<string>)

  /** The members a record cannot do without, and those it may leave out. */
  const RequiredKeys: set<string> := {"name", "cuisine", "photo_url_large", "photo_url_small"}
  const OptionalKeys: set<string> := {"uuid", "source_url", "youtube_url"}

  predicate HasString(fields: map<string, Json>, key: string) {
    key in fields && fields[key].JString?
  }

  predicate AbsentNullOrString(fields: map<string, Json>, key: string) {
    key !in fields || fields[key].JNull? || fields[key].JString?
  }

  /** `decode(String.self, forKey:)`: the member must be there and be a string. */
  function DecodeString(fields: map<string, Json>, key: string): Option<string> {
    if HasString(fields, key) then Some(fields[key].s) else None
  }

  /** `decodeIfPresent(String.self, forKey:)`: absent or null gives nil, a string gives
      that string, anything else fails. */
  function DecodeStringIfPresent(fields: map<string, Json>, key: string): Option<Option<string>> {
    if key !in fields || fields[key].JNull? then Some(None)
    else if fields[key].JString? then Some(Some(fields[key].s))
    else None
  }

  /** The synthesised `init(from:)` of `RecipeShape`. */
  function Decode(fields: map<string, Json>): (r: Option<RecipeShape>)
    ensures r.Some? <==>
      && (forall k :: k in RequiredKeys ==> HasString(fields, k))
      && (forall k :: k in OptionalKeys ==> AbsentNullOrString(fields, k))
    ensures r.Some? ==>
      && r.value.name == fields["name"].s
      && r.value.cuisine == fields["cuisine"].s
      && r.value.photoUrlLarge == fields["photo_url_large"].s
      && r.value.photoUrlSmall == fields["photo_url_small"].s
    ensures r.Some? ==>
      && r.value.uuid == (if HasString(fields, "uuid") then Some(fields["uuid"].s) else None)
      && r.value.sourceUrl == (if HasString(fields, "source_url") then Some(fields["source_url"].s) else None)
      && r.value.youtubeUrl == (if HasString(fields, "youtube_url") then Some(fields["youtube_url"].s) else None)
  {
    var uuid := DecodeStringIfPresent(fields, "uuid");
    var name := DecodeString(fields, "name");
    var cuisine := DecodeString(fields, "cuisine");
    var large := DecodeString(fields, "photo_url_large");
    var small := DecodeString(fields, "photo_url_small");
    var source := DecodeStringIfPresent(fields, "source_url");
    var youtube := DecodeStringIfPresent(fields, "youtube_url");
    if uuid.Some? && name.Some? && cuisine.Some? && large.Some? && small.Some? && source.Some? && youtube.Some?
    then Some(RecipeShape(uuid.value, name.value, cuisine.value, large.value, small.value, source.value, youtube.value))
    else None
  }

  /** The synthesised `encode(to:)`: optional members that are nil are left out. */
  function Encode(r: RecipeShape): (fields: map<string, Json>)
    ensures RequiredKeys <= fields.Keys <= RequiredKeys + OptionalKeys
  {
    var required := map[
      "name" := JString(r.name),
      "cuisine" := JString(r.cuisine),
      "photo_url_large" := JString(r.photoUrlLarge),
      "photo_url_small" := JString(r.photoUrlSmall)];
    var withUuid := if r.uuid.Some? then required["uuid" := JString(r.uuid.value)] else required;
    var withSource := if r.sourceUrl.Some? then withUuid["source_url" := JString(r.sourceUrl.value)] else withUuid;
    if r.youtubeUrl.Some? then withSource["youtube_url" := JString(r.youtubeUrl.value)] else withSource
  }

  /** Decoding what was encoded gives the record back. */
  lemma DecodeEncode(r: RecipeShape)
    ensures Decode(Encode(r)) == Some(r)
  {
  }

  /** A record decodes without its optional members: dropping them loses only them. */
  lemma OptionalMembersMayBeAbsent(fields: map<string, Json>)
    requires Decode(fields).Some?
    ensures Decode(fields - OptionalKeys) ==
      Some(Decode(fields).value.(uuid := None, sourceUrl := None, youtubeUrl := None))
  {
    var rest := fields - OptionalKeys;
    assert forall k :: k in RequiredKeys ==> k in rest && rest[k] == fields[k];
  }

  /** A record that lacks any required member does not decode. */
  lemma RequiredMemberMissingFails(fields: map<string, Json>, key: string)
    requires key in RequiredKeys
    ensures Decode(fields - {key}).None?
  {
    assert !HasString(fields - {key}, key);
  }

  /** The state of a recipe view model. */
  datatype ObservableItems = ObservableItems(
    name: string,
    cuisine: string,
    photoUrl: Option<Url>,
    thumbnailUrl: Option<Url>,
    sourceUrl: Option<Url>,
    youtubeUrl: Option<Url>)

  /** `ObservableItems.init`, whose URL parameters default to nil. */
  function MakeItems(name: string, cuisine: string,
                     photoUrl: Option<Url> := None, thumbnailUrl: Option<Url> := None,
                     sourceUrl: Option<Url> := None, youtubeUrl: Option<Url> := None): (r: ObservableItems)
    ensures r.name == name && r.cuisine == cuisine
    ensures r.photoUrl == photoUrl && r.thumbnailUrl == thumbnailUrl
    ensures r.sourceUrl == sourceUrl && r.youtubeUrl == youtubeUrl
  {
    ObservableItems(name, cuisine, photoUrl, thumbnailUrl, sourceUrl, youtubeUrl)
  }

  /** Given only a name and a cuisine, the initialiser leaves every URL nil. */
  lemma MakeItemsDefaults(name: string, cuisine: string)
    ensures MakeItems(name, cuisine) == ObservableItems(name, cuisine, None, None, None, None)
  {
  }

  /** `toViewModel` / `init(recipeShape:)`: the state of the view model for a record.
      `parseUrl` is `URL(string:)`; an absent optional string is parsed as "". */
  function ToViewModel(r: RecipeShape, parseUrl: string -> Option<Url>): (v: ObservableItems)
  {
    MakeItems(
      r.name,
      r.cuisine,
      parseUrl(r.photoUrlLarge),
      parseUrl(r.photoUrlSmall),
      parseUrl(r.sourceUrl.GetOr("")),
      parseUrl(r.youtubeUrl.GetOr("")))
  }

  /** What each field of the view is made from: name and cuisine verbatim, the photo from
      the large URL, the thumbnail from the small one. */
  lemma ViewFieldsComeFromRecord(r: RecipeShape, parseUrl: string -> Option<Url>)
    ensures ToViewModel(r, parseUrl).name == r.name && ToViewModel(r, parseUrl).cuisine == r.cuisine
    ensures ToViewModel(r, parseUrl).photoUrl == parseUrl(r.photoUrlLarge)
    ensures ToViewModel(r, parseUrl).thumbnailUrl == parseUrl(r.photoUrlSmall)
  {
  }

  /** An absent source or video URL is parsed from the empty string, each on its own;
      when `URL(string:)` rejects "" the view has no such URL, and nothing fails. A present
      one is parsed from its own text. */
  lemma AbsentOptionalsParseEmpty(r: RecipeShape, parseUrl: string -> Option<Url>)
    ensures r.sourceUrl.None? ==> ToViewModel(r, parseUrl).sourceUrl == parseUrl("")
    ensures r.youtubeUrl.None? ==> ToViewModel(r, parseUrl).youtubeUrl == parseUrl("")
    ensures r.sourceUrl.None? && parseUrl("").None? ==> ToViewModel(r, parseUrl).sourceUrl.None?
    ensures r.youtubeUrl.None? && parseUrl("").None? ==> ToViewModel(r, parseUrl).youtubeUrl.None?
    ensures r.sourceUrl.Some? ==> ToViewModel(r, parseUrl).sourceUrl == parseUrl(r.sourceUrl.value)
    ensures r.youtubeUrl.Some? ==> ToViewModel(r, parseUrl).youtubeUrl == parseUrl(r.youtubeUrl.value)
  {
  }

  /** The projection drops `uuid`: records that differ only there give the same view. */
  lemma UuidIsDropped(r: RecipeShape, s: RecipeShape, parseUrl: string -> Option<Url>)
    requires r.(uuid := None) == s.(uuid := None)
    ensures ToViewModel(r, parseUrl) == ToViewModel(s, parseUrl)
  {
    assert r.name == s.name && r.cuisine == s.cuisine && r.sourceUrl == s.sourceUrl;
  }

  /** The view of a decoded record shows the JSON's name and cuisine strings. */
  lemma DecodedViewShowsJson(fields: map<string, Json>, parseUrl: string -> Option<Url>)
    requires Decode(fields).Some?
    ensures ToViewModel(Decode(fields).value, parseUrl).name == fields["name"].s
    ensures ToViewModel(Decode(fields).value, parseUrl).cuisine == fields["cuisine"].s
  {
  }

  /** `Recipe.ViewModel(recipeShape:)`: a fresh wrapper holding the record's view state
      and a fresh action publisher. */
  method MakeViewModel<A>(r: RecipeShape, parseUrl: string -> Option<Url>)
    returns (vm: ViewModelWrapper<ObservableItems, A>)
    ensures fresh(vm) && fresh(vm.actionPublisher) && vm.Valid()
    ensures vm.observableItems == ToViewModel(r, parseUrl)
    ensures vm.cancellables == {} && vm.actionPublisher.sent == []
  {
    var publisher := new Combine.PassthroughSubject<A>();
    vm := new ViewModelWrapper(ToViewModel(r, parseUrl), publisher);
  }
}
