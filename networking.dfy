/** Networking.swift (the package copy): the error taxonomy, the request types, the
    `loadRequest` chain from a finished data task to the value it publishes, the demo
    data, and the static publisher and cancellables that `loadRequest` updates. */
module Networking {
  import opened Wrappers
  import opened Foundation
  import opened StringOrder
  import opened Models
  import opened Combine

  // ---------------------------------------------------------------- errors

  datatype FailureReason =
    | InvalidUrl(urlError: UrlError)
    | SessionFailed(urlError: UrlError)
    | DecodingFailed
    | EmptyData(urlError: UrlError)
    | Other(description: string)

  /** Whether two reasons are the same case, whatever they carry. */
  predicate SameCase(a: FailureReason, b: FailureReason) {
    && a.InvalidUrl? == b.InvalidUrl?
    && a.SessionFailed? == b.SessionFailed?
    && a.DecodingFailed? == b.DecodingFailed?
    && a.EmptyData? == b.EmptyData?
    && a.Other? == b.Other?
  }

  /** `FailureReason.value`: the numeric code of each case. */
  function Value(k: FailureReason): (code: int)
    ensures 1 <= code <= 5
  {
    match k
    case InvalidUrl(_) => 1
    case SessionFailed(_) => 2
    case DecodingFailed => 3
    case EmptyData(_) => 4
    case Other(_) => 5
  }

  /** The code identifies the case: equal codes exactly for equal cases. */
  lemma ValueIdentifiesCase(a: FailureReason, b: FailureReason)
    ensures Value(a) == Value(b) <==> SameCase(a, b)
  {
  }

  datatype NetworkingError = NetworkingError(kind: FailureReason)

  /** The fixed text that starts each case's message. */
  function Prefix(k: FailureReason): string {
    match k
    case InvalidUrl(_) => "Invalid URL "
    case SessionFailed(_) => "SessionFailed "
    case DecodingFailed => "Malformed Data"
    case EmptyData(_) => "Empty Data "
    case Other(_) => "Other "
  }

  /** The interpolated part of each case's message ("" for `decodingFailed`). */
  function Detail(k: FailureReason): string {
    match k
    case InvalidUrl(u) => u.description
    case SessionFailed(u) => u.description
    case DecodingFailed => ""
    case EmptyData(u) => u.description
    case Other(d) => d
  }

  /** `toString` (also `errorDescription`). */
  function ToString(e: NetworkingError): (text: string)
  {
    Prefix(e.kind) + Detail(e.kind)
  }

  /** `==` on `NetworkingError`: equal rendered text. */
  predicate Equal(a: NetworkingError, b: NetworkingError) {
    ToString(a) == ToString(b)
  }

  /** Equality by text is equality of case and of interpolated detail: the five
      prefixes start with five different letters, so no two cases ever render alike. */
  lemma EqualIffSameCaseAndDetail(a: NetworkingError, b: NetworkingError)
    ensures Equal(a, b) <==> SameCase(a.kind, b.kind) && Detail(a.kind) == Detail(b.kind)
  {
    var p, q := Prefix(a.kind), Prefix(b.kind);
    if SameCase(a.kind, b.kind) {
      assert p == q;
      if Equal(a, b) {
        assert Detail(a.kind) == ToString(a)[|p|..] == ToString(b)[|q|..] == Detail(b.kind);
      }
    } else {
      assert ToString(a)[0] == p[0] && ToString(b)[0] == q[0] && p[0] != q[0];
    }
  }

  /** Any two `decodingFailed` errors are equal, and read "Malformed Data". */
  lemma DecodingFailuresAreEqual(a: NetworkingError, b: NetworkingError)
    requires a.kind.DecodingFailed? && b.kind.DecodingFailed?
    ensures Equal(a, b) && ToString(a) == "Malformed Data"
  {
  }

  // ---------------------------------------------------------------- requests

  datatype RequestType = AllRecipes | MalformedData | EmptyData | DemoData

  /** The raw value of each request type: the name of a bundled JSON resource. */
  function RawValue(t: RequestType): string {
    match t
    case AllRecipes => "AllRecipes"
    case MalformedData => "MalformedRecipes"
    case EmptyData => "EmptyRecipes"
    case DemoData => "DemoRecipes"
  }

  /** The `init?(rawValue:)` that a `String`-backed enum comes with. */
  function FromRawValue(s: string): Option<RequestType> {
    if s == "AllRecipes" then Some(AllRecipes)
    else if s == "MalformedRecipes" then Some(MalformedData)
    else if s == "EmptyRecipes" then Some(RequestType.EmptyData)
    else if s == "DemoRecipes" then Some(DemoData)
    else None
  }

  lemma RawValueRoundTrip(t: RequestType)
    ensures FromRawValue(RawValue(t)) == Some(t)
  {
  }

  lemma FromRawValueInverse(s: string)
    requires FromRawValue(s).Some?
    ensures RawValue(FromRawValue(s).value) == s
  {
  }

  /** The four raw values are pairwise distinct. */
  lemma RawValuesDistinct(a: RequestType, b: RequestType)
    requires a != b
    ensures RawValue(a) != RawValue(b)
  {
    RawValueRoundTrip(a);
    RawValueRoundTrip(b);
  }

  /** The file `url(for:)` asks the bundle for. */
  function ResourceFile(t: RequestType): string {
    RawValue(t) + ".json"
  }

  /** `url(for:)`: the bundle's URL for the request type's JSON resource, if it has one.
      The bundle is given as the map from its resource files to their URLs. */
  function UrlFor(bundle: map<string, Url>, t: RequestType): (u: Option<Url>)
    ensures u.Some? <==> ResourceFile(t) in bundle
    ensures u.Some? ==> u.value == bundle[ResourceFile(t)]
  {
    if ResourceFile(t) in bundle then Some(bundle[ResourceFile(t)]) else None
  }

  /** `url(for:)` looks at the type's own resource and at nothing else: adding or
      replacing that resource is what it finds, and any other resource leaves it as it was. */
  lemma UrlForLooksUpOwnResource(bundle: map<string, Url>, t: RequestType, name: string, u: Url)
    ensures UrlFor(bundle[ResourceFile(t) := u], t) == Some(u)
    ensures name != ResourceFile(t) ==> UrlFor(bundle[name := u], t) == UrlFor(bundle, t)
    ensures UrlFor(bundle - {ResourceFile(t)}, t) == None
  {
  }

  /** Different request types never look up the same resource. */
  lemma ResourceFilesDistinct(a: RequestType, b: RequestType)
    requires a != b
    ensures ResourceFile(a) != ResourceFile(b)
  {
    RawValuesDistinct(a, b);
  }

  // ---------------------------------------------------------------- decoding

  /** The decoded response: `[String: [RecipeShape]]`. */
  type Response = map<string, seq<RecipeShape>>

  /** One array element decoded as a `RecipeShape`. */
  function DecodeElement(j: Json): Option<RecipeShape> {
    if j.JObject? then Decode(j.fields) else None
  }

  /** An array of records decoded element by element; one bad element fails it all. */
  function DecodeEach(items: seq<Json>): (r: Option<seq<RecipeShape>>)
    ensures r.Some? <==> forall i :: 0 <= i < |items| ==> DecodeElement(items[i]).Some?
    ensures r.Some? ==> |r.value| == |items|
    ensures r.Some? ==> forall i :: 0 <= i < |items| ==> DecodeElement(items[i]) == Some(r.value[i])
    decreases |items|
  {
    if items == [] then Some([])
    else
      var head := DecodeElement(items[0]);
      var tail := DecodeEach(items[1..]);
      assert forall i :: 0 <= i < |items[1..]| ==> items[1..][i] == items[i + 1];
      if head.Some? && tail.Some? then Some([head.value] + tail.value) else None
  }

  /** `[RecipeShape]` from JSON: an array whose every element decodes. */
  function DecodeRecords(j: Json): Option<seq<RecipeShape>> {
    if j.JArray? then DecodeEach(j.items) else None
  }

  /** An array holding one valid record decodes to that record alone. */
  lemma SingletonArrayDecodes(fields: map<string, Json>)
    requires Decode(fields).Some?
    ensures DecodeRecords(JArray([JObject(fields)])) == Some([Decode(fields).value])
  {
    var items := [JObject(fields)];
    assert items[1..] == [];
    assert DecodeEach(items[1..]) == Some([]);
    assert [Decode(fields).value] + [] == [Decode(fields).value];
  }

  /** `[String: [RecipeShape]]` from JSON: an object whose every member decodes. */
  function DecodeResponse(j: Json): (r: Option<Response>)
    ensures r.Some? <==> j.JObject? && forall k :: k in j.fields ==> DecodeRecords(j.fields[k]).Some?
    ensures r.Some? ==> r.value.Keys == j.fields.Keys
    ensures r.Some? ==> forall k :: k in r.value ==> DecodeRecords(j.fields[k]) == Some(r.value[k])
  {
    if j.JObject? && forall k :: k in j.fields ==> DecodeRecords(j.fields[k]).Some? then
      Some(map k | k in j.fields :: DecodeRecords(j.fields[k]).value)
    else
      None
  }

  /** The JSON an array of records is written as: each record as `encode(to:)` writes it. */
  function EncodeRecords(rs: seq<RecipeShape>): Json {
    JArray(seq(|rs|, i requires 0 <= i < |rs| => JObject(Encode(rs[i]))))
  }

  /** An array of encoded records decodes to those records, in order. */
  lemma DecodeEncodeRecords(rs: seq<RecipeShape>)
    ensures DecodeRecords(EncodeRecords(rs)) == Some(rs)
  {
    var items := EncodeRecords(rs).items;
    forall i | 0 <= i < |items|
      ensures DecodeElement(items[i]) == Some(rs[i])
    {
      DecodeEncode(rs[i]);
    }
    assert |items| == |rs|;
    assert DecodeEach(items).Some?;
    var decoded := DecodeEach(items).value;
    assert |decoded| == |rs|;
    assert forall i :: 0 <= i < |rs| ==> decoded[i] == rs[i];
    assert decoded == rs;
    assert DecodeRecords(EncodeRecords(rs)) == DecodeEach(items);
  }

  /** An object whose every member decodes to the same-named group of `r` decodes to `r`. */
  lemma DecodeResponseFrom(fields: map<string, Json>, r: Response)
    requires fields.Keys == r.Keys
    requires forall k :: k in fields ==> DecodeRecords(fields[k]) == Some(r[k])
    ensures DecodeResponse(JObject(fields)) == Some(r)
  {
    var decoded := map k | k in fields :: DecodeRecords(fields[k]).value;
    assert DecodeResponse(JObject(fields)) == Some(decoded);
    assert decoded == r;
  }

  /** The JSON object a `[String: [RecipeShape]]` is written as. */
  function EncodeResponse(r: Response): Json {
    JObject(map k | k in r :: EncodeRecords(r[k]))
  }

  /** Decoding the JSON of a response gives the response back: same groups, each with
      the same records in the same order. */
  lemma DecodeEncodeResponse(r: Response)
    ensures DecodeResponse(EncodeResponse(r)) == Some(r)
  {
    var fields := EncodeResponse(r).fields;
    assert fields.Keys == r.Keys;
    forall k | k in fields
      ensures DecodeRecords(fields[k]) == Some(r[k])
    {
      DecodeEncodeRecords(r[k]);
    }
    DecodeResponseFrom(fields, r);
  }

  // ---------------------------------------------------------------- the chain

  /** How a data task ends: with a URLError, or with the bytes of the response. */
  datatype TransportOutcome = TransportFailed(error: UrlError) | Delivered(data: seq<bv8>)

  /** What the runtime contributes: JSON parsing of bytes, `URL(string:)`, and the
      iteration order of a decoded dictionary (which Swift leaves unspecified). */
  datatype Platform = Platform(
    parseJson: seq<bv8> -> Option<Json>,
    parseUrl: string -> Option<Url>,
    iterationOrder: Response -> seq<string>)

  /** `dataTaskPublisher(for:)` followed by `mapError { sessionFailed($0) }`. */
  function Transported(o: TransportOutcome): Result<seq<bv8>, NetworkingError> {
    match o
    case TransportFailed(e) => Failure(NetworkingError(SessionFailed(e)))
    case Delivered(data) => Success(data)
  }

  /** The `tryMap` guard: zero bytes throw `emptyData(zeroByteResource)`. */
  function RequireData(r: Result<seq<bv8>, NetworkingError>): Result<seq<bv8>, NetworkingError> {
    match r
    case Success(data) =>
      if |data| > 0 then Success(data) else Failure(NetworkingError(FailureReason.EmptyData(ZeroByteResource)))
    case Failure(e) => Failure(e)
  }

  /** After `.decode`, a failure is any `Error`: one thrown upstream, or the decoder's own. */
  datatype ChainError = Thrown(error: NetworkingError) | DecodingError

  /** Swift's dictionaries promise no order, but iterating one visits each of its keys
      exactly once. */
  ghost predicate ValidOrder(p: Platform) {
    forall r: Response :: multiset(p.iterationOrder(r)) == multiset(r.Keys)
  }

  /** `.decode(type: [String: [RecipeShape]].self, decoder: JSONDecoder())`. */
  function DecodeStage(r: Result<seq<bv8>, NetworkingError>, parseJson: seq<bv8> -> Option<Json>)
    : Result<Response, ChainError>
  {
    match r
    case Failure(e) => Failure(Thrown(e))
    case Success(data) =>
      match parseJson(data)
      case None => Failure(DecodingError)
      case Some(j) =>
        match DecodeResponse(j)
        case None => Failure(DecodingError)
        case Some(response) => Success(response)
  }

  /** What the sink receives: the whole chain with its three `mapError`s and the final
      `catch` that turns the failure into a `.failure` value. Each `mapError` replaces
      whatever error came before it. */
  function ChainOutput(o: TransportOutcome, p: Platform): Result<Response, NetworkingError> {
    var checked := RequireData(Transported(o)).MapError(
      (_: NetworkingError) => NetworkingError(FailureReason.EmptyData(ZeroByteResource)));
    DecodeStage(checked, p.parseJson).MapError((_: ChainError) => NetworkingError(DecodingFailed))
  }

  /** The bytes decode to a response: parsed as JSON and shaped `[String: [RecipeShape]]`. */
  function ParseResponse(data: seq<bv8>, p: Platform): Option<Response> {
    match p.parseJson(data)
    case None => None
    case Some(j) => DecodeResponse(j)
  }

  /** The key that `Dictionary.first` yields: the first key of the iteration order that
      the dictionary holds. */
  function FirstKey(order: seq<string>, response: Response): (k: Option<string>)
    ensures k.Some? ==> k.value in response && k.value in order
    ensures k.None? <==> forall i :: 0 <= i < |order| ==> order[i] !in response
    decreases |order|
  {
    if order == [] then None
    else if order[0] in response then Some(order[0])
    else
      assert forall i :: 1 <= i < |order| ==> order[i] == order[1..][i - 1];
      FirstKey(order[1..], response)
  }

  /** `response.first?.value`. */
  function FirstGroup(response: Response, p: Platform): Option<seq<RecipeShape>> {
    match FirstKey(p.iterationOrder(response), response)
    case None => None
    case Some(k) => Some(response[k])
  }

  /** `.map(\.toViewModel)`. */
  function MapToView(records: seq<RecipeShape>, parseUrl: string -> Option<Url>): (views: seq<ObservableItems>)
    ensures |views| == |records|
    ensures forall i :: 0 <= i < |records| ==> views[i] == ToViewModel(records[i], parseUrl)
  {
    seq(|records|, i requires 0 <= i < |records| => ToViewModel(records[i], parseUrl))
  }

  // ---------------------------------------------------------------- sorting

  /** The cuisines of a list, in order. */
  function Cuisines(s: seq<ObservableItems>): (c: seq<string>)
    ensures |c| == |s|
  {
    seq(|s|, i requires 0 <= i < |s| => s[i].cuisine)
  }

  /** Non-decreasing: no string is less than the one before it. */
  predicate Ascending(c: seq<string>) {
    forall i :: 0 < i < |c| ==> !Less(c[i], c[i - 1])
  }

  /** Non-decreasing between neighbours gives non-decreasing between any two positions. */
  lemma {:induction false} AscendingAt(c: seq<string>, i: nat, j: nat)
    requires Ascending(c) && i < j < |c|
    ensures !Less(c[j], c[i])
    decreases j - i
  {
    if i + 1 < j {
      AscendingAt(c, i, j - 1);
      NotLessTransitive(c[i], c[j - 1], c[j]);
    }
  }

  /** Non-decreasing by cuisine: the list's cuisines, in order, are ascending. */
  predicate SortedByCuisine(s: seq<ObservableItems>) {
    Ascending(Cuisines(s))
  }

  /** A sorted list stays sorted without its head. */
  lemma SortedTail(s: seq<ObservableItems>)
    requires SortedByCuisine(s) && s != []
    ensures SortedByCuisine(s[1..])
  {
    assert Cuisines(s[1..]) == Cuisines(s)[1..];
    AscendingTail(Cuisines(s));
  }

  /** In a sorted list the second recipe's cuisine is not less than the first's. */
  lemma SortedSecond(s: seq<ObservableItems>)
    requires SortedByCuisine(s)
    ensures |s| > 1 ==> !Less(s[1].cuisine, s[0].cuisine)
  {
    if |s| > 1 {
      assert Cuisines(s)[1] == s[1].cuisine && Cuisines(s)[0] == s[0].cuisine;
    }
  }

  /** A recipe whose cuisine is not above the head of a sorted list can go in front of it. */
  lemma SortedCons(y: ObservableItems, t: seq<ObservableItems>)
    requires SortedByCuisine(t) && (t != [] ==> !Less(t[0].cuisine, y.cuisine))
    ensures SortedByCuisine([y] + t)
  {
    var c := Cuisines([y] + t);
    assert c == [y.cuisine] + Cuisines(t);
    assert t != [] ==> c[1] == t[0].cuisine;
    assert forall i :: 0 < i < |c| ==> c[i] == Cuisines(t)[i - 1];
  }

  /** One step of `InsertByCuisine`: when `x` goes after the head, the head goes back in
      front of the tail with `x` inserted. */
  lemma InsertAfterHead(x: ObservableItems, s: seq<ObservableItems>, rest: seq<ObservableItems>)
    requires SortedByCuisine(s) && s != [] && Less(s[0].cuisine, x.cuisine)
    requires SortedByCuisine(rest) && multiset(rest) == multiset(s[1..]) + multiset{x}
    requires rest != [] && (rest[0] == x || (|s| > 1 && rest[0] == s[1]))
    ensures SortedByCuisine([s[0]] + rest)
    ensures multiset([s[0]] + rest) == multiset(s) + multiset{x}
  {
    Asymmetric(s[0].cuisine, x.cuisine);
    SortedSecond(s);
    SortedCons(s[0], rest);
    assert s == [s[0]] + s[1..];
  }

  /** Puts `x` before the first recipe whose cuisine is not less than its own. */
  function InsertByCuisine(x: ObservableItems, s: seq<ObservableItems>): (r: seq<ObservableItems>)
    requires SortedByCuisine(s)
    ensures |r| == |s| + 1 && multiset(r) == multiset(s) + multiset{x}
    ensures r[0] == x || (|s| > 0 && r[0] == s[0])
    ensures SortedByCuisine(r)
    decreases |s|
  {
    if s == [] then [x]
    else if Less(s[0].cuisine, x.cuisine) then
      SortedTail(s);
      var rest := InsertByCuisine(x, s[1..]);
      InsertAfterHead(x, s, rest);
      [s[0]] + rest
    else
      SortedCons(x, s);
      [x] + s
  }

  /** `sorted { $0.cuisine < $1.cuisine }`. The model sorts by insertion; all that is
      promised of it is what any sort promises: sorted, and a permutation. */
  function SortByCuisine(s: seq<ObservableItems>): (r: seq<ObservableItems>)
    ensures |r| == |s| && multiset(r) == multiset(s)
    ensures SortedByCuisine(r)
    decreases |s|
  {
    if s == [] then []
    else
      assert s == [s[0]] + s[1..];
      InsertByCuisine(s[0], SortByCuisine(s[1..]))
  }

  /** In a sorted list no later recipe has a cuisine less than an earlier one's. */
  lemma SortedByCuisinePairwise(s: seq<ObservableItems>)
    requires SortedByCuisine(s)
    ensures forall i, j :: 0 <= i < j < |s| ==> !Less(s[j].cuisine, s[i].cuisine)
  {
    forall i, j | 0 <= i < j < |s|
      ensures !Less(s[j].cuisine, s[i].cuisine)
    {
      AscendingAt(Cuisines(s), i, j);
    }
  }

  /** Two ascending sequences of the same strings start with the same string: each
      start is at most the other. */
  lemma AscendingHeadsEqual(a: seq<string>, b: seq<string>)
    requires Ascending(a) && Ascending(b) && multiset(a) == multiset(b) && |a| > 0 && |b| > 0
    ensures a[0] == b[0]
  {
    if a[0] != b[0] {
      assert a[0] in multiset(b) && b[0] in multiset(a);
      var k :| 0 < k < |b| && b[k] == a[0];
      var j :| 0 < j < |a| && a[j] == b[0];
      AscendingAt(a, 0, j);
      AscendingAt(b, 0, k);
      Antisymmetric(a[0], b[0]);
    }
  }

  /** Dropping the first string keeps a sequence ascending and takes one copy out. */
  lemma AscendingTail(a: seq<string>)
    requires Ascending(a) && |a| > 0
    ensures Ascending(a[1..]) && multiset(a[1..]) == multiset(a) - multiset{a[0]}
  {
    assert a == [a[0]] + a[1..];
  }

  /** Two ascending sequences of the same strings are the same sequence. */
  lemma {:induction false} AscendingUnique(a: seq<string>, b: seq<string>)
    requires Ascending(a) && Ascending(b) && multiset(a) == multiset(b)
    ensures a == b
    decreases |a|
  {
    assert |a| == |multiset(a)| == |multiset(b)| == |b|;
    if |a| > 0 {
      AscendingHeadsEqual(a, b);
      AscendingTail(a);
      AscendingTail(b);
      AscendingUnique(a[1..], b[1..]);
      assert a == [a[0]] + a[1..] && b == [b[0]] + b[1..];
    }
  }

  lemma CuisinesAppend(s: seq<ObservableItems>, t: seq<ObservableItems>)
    ensures Cuisines(s + t) == Cuisines(s) + Cuisines(t)
  {
  }

  /** Taking out the recipe at `k` takes out one copy of it. */
  lemma RemoveAt(t: seq<ObservableItems>, k: nat)
    requires k < |t|
    ensures multiset(t[..k] + t[k + 1..]) == multiset(t) - multiset{t[k]}
  {
    var before, after := t[..k], t[k + 1..];
    assert t == before + [t[k]] + after;
    assert multiset(t) == multiset(before) + multiset{t[k]} + multiset(after);
  }

  /** ... and one copy of its cuisine. */
  lemma RemoveCuisineAt(t: seq<ObservableItems>, k: nat)
    requires k < |t|
    ensures multiset(Cuisines(t)) == multiset(Cuisines(t[..k] + t[k + 1..])) + multiset{t[k].cuisine}
  {
    var before, after := t[..k], t[k + 1..];
    assert t == (before + [t[k]]) + after;
    CuisinesAppend(before + [t[k]], after);
    CuisinesAppend(before, [t[k]]);
    CuisinesAppend(before, after);
    assert Cuisines([t[k]]) == [t[k].cuisine];
    var cb, ca := Cuisines(before), Cuisines(after);
    assert Cuisines(t) == cb + [t[k].cuisine] + ca;
    assert Cuisines(before + after) == cb + ca;
    assert multiset(Cuisines(t)) == multiset(cb) + multiset{t[k].cuisine} + multiset(ca);
  }

  /** Taking the head off both sides of a permutation, and the head's copy out of the
      other side, leaves a permutation. */
  lemma RemoveMatching(s: seq<ObservableItems>, t: seq<ObservableItems>, k: nat)
    requires multiset(s) == multiset(t) && s != [] && k < |t| && t[k] == s[0]
    ensures multiset(s[1..]) == multiset(t[..k] + t[k + 1..])
  {
    RemoveAt(t, k);
    assert s == [s[0]] + s[1..];
  }

  /** A recipe in the list's multiset sits at some position of the list. */
  lemma PositionOf(t: seq<ObservableItems>, x: ObservableItems) returns (k: nat)
    requires x in multiset(t)
    ensures k < |t| && t[k] == x
  {
    k :| 0 <= k < |t| && t[k] == x;
  }

  /** Multiset bookkeeping for one step of `PermutedCuisines`. */
  lemma AddSameCuisine(cs: seq<string>, ct: seq<string>, rs: seq<string>, rt: seq<string>, c: string)
    requires multiset(cs) == multiset(rs) + multiset{c} && multiset(ct) == multiset(rt) + multiset{c}
    requires multiset(rs) == multiset(rt)
    ensures multiset(cs) == multiset(ct)
  {
  }

  /** The head's cuisine is one copy among the list's cuisines. */
  lemma HeadCuisine(s: seq<ObservableItems>)
    requires s != []
    ensures multiset(Cuisines(s)) == multiset(Cuisines(s[1..])) + multiset{s[0].cuisine}
  {
    RemoveCuisineAt(s, 0);
    assert s[..0] + s[1..] == s[1..];
  }

  /** Permuting a list permutes its cuisines. */
  lemma {:induction false} PermutedCuisines(s: seq<ObservableItems>, t: seq<ObservableItems>)
    requires multiset(s) == multiset(t)
    ensures multiset(Cuisines(s)) == multiset(Cuisines(t))
    decreases |s|
  {
    if s != [] {
      var k := PositionOf(t, s[0]);
      var rest := t[..k] + t[k + 1..];
      RemoveMatching(s, t, k);
      PermutedCuisines(s[1..], rest);
      RemoveCuisineAt(t, k);
      HeadCuisine(s);
      AddSameCuisine(Cuisines(s), Cuisines(t), Cuisines(s[1..]), Cuisines(rest), s[0].cuisine);
    }
  }

  /** However the equal-cuisine recipes end up ordered, any two sorted arrangements of the
      same recipes list the same cuisines in the same order. */
  lemma SortedCuisinesAreDetermined(r: seq<ObservableItems>, s: seq<ObservableItems>)
    requires SortedByCuisine(r) && SortedByCuisine(s) && multiset(r) == multiset(s)
    ensures Cuisines(r) == Cuisines(s)
  {
    PermutedCuisines(r, s);
    AscendingUnique(Cuisines(r), Cuisines(s));
  }

  /** Sorting a list that is already sorted leaves its cuisine order as it was. */
  lemma ResortingKeepsCuisineOrder(s: seq<ObservableItems>)
    requires SortedByCuisine(s)
    ensures Cuisines(SortByCuisine(s)) == Cuisines(s)
  {
    SortedCuisinesAreDetermined(SortByCuisine(s), s);
  }

  // ---------------------------------------------------------------- publishing

  type Published = Result<seq<ObservableItems>, NetworkingError>

  /** `response.first?.value.map(\.toViewModel).sorted { $0.cuisine < $1.cuisine } ?? []`. */
  function Listed(response: Response, p: Platform): seq<ObservableItems> {
    match FirstGroup(response, p)
    case None => []
    case Some(records) => SortByCuisine(MapToView(records, p.parseUrl))
  }

  /** The value the sink of `loadRequest` sends once the data task ends with `o`. */
  function LoadResult(o: TransportOutcome, p: Platform): Published {
    match ChainOutput(o, p)
    case Success(response) => Success(Listed(response, p))
    case Failure(error) => Failure(error)
  }

  /** The request fails exactly when the transport fails, the data is empty, or the data
      does not decode; and whatever went wrong, the published kind is `decodingFailed`,
      because each `mapError` overwrites the kind set before it. */
  lemma FailuresCollapseToDecodingFailed(o: TransportOutcome, p: Platform)
    ensures LoadResult(o, p).Failure? <==>
      o.TransportFailed? || |o.data| == 0 || ParseResponse(o.data, p).None?
    ensures LoadResult(o, p).Failure? ==> LoadResult(o, p).error == NetworkingError(DecodingFailed)
  {
  }

  /** A transport error is published with code 3, not as `sessionFailed` (code 2). */
  lemma TransportErrorReportsDecodingCode(e: UrlError, p: Platform)
    ensures LoadResult(TransportFailed(e), p).Failure?
    ensures Value(LoadResult(TransportFailed(e), p).error.kind) == 3
  {
  }

  /** Zero bytes never reach the JSON parser: the result is a failure whatever the parser. */
  lemma ZeroBytesNeverDecoded(p: Platform, q: Platform)
    ensures LoadResult(Delivered([]), p).Failure?
    ensures LoadResult(Delivered([]), p) == LoadResult(Delivered([]), q)
  {
  }

  /** A successful load publishes the chosen group's records, as views, sorted by cuisine:
      a sorted permutation of them, whose cuisine order no other sort could change. */
  lemma SuccessIsSortedFirstGroup(o: TransportOutcome, p: Platform)
    requires LoadResult(o, p).Success?
    ensures o.Delivered? && |o.data| > 0 && ParseResponse(o.data, p).Some?
    ensures var list := LoadResult(o, p).value;
      var group := FirstGroup(ParseResponse(o.data, p).value, p).GetOr([]);
      && SortedByCuisine(list)
      && |list| == |group|
      && multiset(list) == multiset(MapToView(group, p.parseUrl))
      && forall other :: SortedByCuisine(other) && multiset(other) == multiset(MapToView(group, p.parseUrl))
           ==> Cuisines(other) == Cuisines(list)
  {
    var response := ParseResponse(o.data, p).value;
    var list := LoadResult(o, p).value;
    var views := MapToView(FirstGroup(response, p).GetOr([]), p.parseUrl);
    assert ChainOutput(o, p) == Success(response);
    assert multiset(list) == multiset(views);
    forall other | SortedByCuisine(other) && multiset(other) == multiset(views)
      ensures Cuisines(other) == Cuisines(list)
    {
      SortedCuisinesAreDetermined(other, list);
    }
  }

  /** A decoded object without groups publishes an empty success, not a failure. */
  lemma NoGroupsPublishesEmpty(o: TransportOutcome, p: Platform)
    requires o.Delivered? && |o.data| > 0 && ParseResponse(o.data, p) == Some(map[])
    ensures LoadResult(o, p) == Success([])
  {
  }

  /** A response object with one group holding one valid record publishes that
      record's view, alone. */
  lemma SingleRecordGroupPublishesIt(o: TransportOutcome, p: Platform, key: string, fields: map<string, Json>)
    requires o.Delivered? && |o.data| > 0
    requires p.parseJson(o.data) == Some(JObject(map[key := JArray([JObject(fields)])]))
    requires Decode(fields).Some? && ValidOrder(p)
    ensures LoadResult(o, p) == Success([ToViewModel(Decode(fields).value, p.parseUrl)])
  {
    var record := Decode(fields).value;
    var j := JObject(map[key := JArray([JObject(fields)])]);
    SingletonArrayDecodes(fields);
    var response := map[key := [record]];
    DecodeResponseFrom(j.fields, response);
    assert ChainOutput(o, p) == Success(response);
    FirstGroupExists(response, p);
    var k := FirstKey(p.iterationOrder(response), response);
    assert k == Some(key);
    assert FirstGroup(response, p) == Some([record]);
    var views := MapToView([record], p.parseUrl);
    assert views == [ToViewModel(record, p.parseUrl)];
    var sorted := SortByCuisine(views);
    assert |sorted| == 1 && sorted[0] in multiset(views);
  }

  /** `first` of a non-empty dictionary always yields one of its groups. */
  lemma FirstGroupExists(response: Response, p: Platform)
    requires response != map[] && ValidOrder(p)
    ensures FirstGroup(response, p).Some?
  {
    var k :| k in response;
    var order := p.iterationOrder(response);
    assert k in multiset(response.Keys);
    assert k in multiset(order);
    var i :| 0 <= i < |order| && order[i] == k;
  }

  /** Data that decodes is published as a success; a non-empty response publishes one
      of its groups, as many views as that group has records, and the list is empty
      exactly when there are no groups or that group is empty. */
  lemma DecodedResponsePublishesFirstGroup(o: TransportOutcome, p: Platform)
    requires ValidOrder(p) && o.Delivered? && |o.data| > 0 && ParseResponse(o.data, p).Some?
    ensures LoadResult(o, p).Success?
    ensures var response := ParseResponse(o.data, p).value;
      var first := FirstKey(p.iterationOrder(response), response);
      && (response != map[] ==> first.Some? && |LoadResult(o, p).value| == |response[first.value]|)
      && (LoadResult(o, p).value == [] <==> response == map[] || response[first.value] == [])
  {
    var response := ParseResponse(o.data, p).value;
    assert ChainOutput(o, p) == Success(response);
    if response != map[] {
      FirstGroupExists(response, p);
    }
  }

  // ---------------------------------------------------------------- demo data

  /** `demoRecipes`: one sample record as string-to-string dictionaries. */
  const DemoRecipes: seq<map<string, string>> := [
    map[
      "cuisine" := "Malaysian",
      "name" := "Apam Balik",
      "photo_url_large" := "https://d3jbb8n5wk0qxi.cloudfront.net/photos/b9ab0071-b281-4bee-b361-ec340d405320/large.jpg",
      "photo_url_small" := "https://d3jbb8n5wk0qxi.cloudfront.net/photos/b9ab0071-b281-4bee-b361-ec340d405320/small.jpg",
      "source_url" := "https://www.nyonyacooking.com/recipes/apam-balik~SJ5WuvsDf9WQ",
      "uuid" := "0c6ca6e7-e32a-4053-b824-1dbf749910d8",
      "youtube_url" := "https://www.youtube.com/watch?v=6R8ffRRJcrg"
    ]
  ]

  /** `JSONEncoder().encode` of an array of string dictionaries, as the JSON it denotes. */
  function EncodeRows(rows: seq<map<string, string>>): Json {
    JArray(seq(|rows|, i requires 0 <= i < |rows| => JObject(map k | k in rows[i] :: JString(rows[i][k]))))
  }

  /** The one demo record as `RecipeShape`. */
  const DemoShape: RecipeShape := RecipeShape(
    Some("0c6ca6e7-e32a-4053-b824-1dbf749910d8"),
    "Apam Balik",
    "Malaysian",
    "https://d3jbb8n5wk0qxi.cloudfront.net/photos/b9ab0071-b281-4bee-b361-ec340d405320/large.jpg",
    "https://d3jbb8n5wk0qxi.cloudfront.net/photos/b9ab0071-b281-4bee-b361-ec340d405320/small.jpg",
    Some("https://www.nyonyacooking.com/recipes/apam-balik~SJ5WuvsDf9WQ"),
    Some("https://www.youtube.com/watch?v=6R8ffRRJcrg"))

  /** `demoData`: encode the demo records, decode them as `[RecipeShape]`, map to views;
      `try?` turns a failure into nil. */
  function DemoViews(parseUrl: string -> Option<Url>): Option<seq<ObservableItems>> {
    match DecodeRecords(EncodeRows(DemoRecipes))
    case None => None
    case Some(shapes) => Some(MapToView(shapes, parseUrl))
  }

  /** The demo data decodes, to exactly the one sample recipe. */
  lemma DemoViewsIsOneRecipe(parseUrl: string -> Option<Url>)
    ensures DemoViews(parseUrl) == Some([ToViewModel(DemoShape, parseUrl)])
  {
    var row := DemoRecipes[0];
    var fields := map k | k in row :: JString(row[k]);
    assert EncodeRows(DemoRecipes) == JArray([JObject(fields)]);
    assert fields == Encode(DemoShape);
    DecodeEncode(DemoShape);
    SingletonArrayDecodes(fields);
    assert MapToView([DemoShape], parseUrl) == [ToViewModel(DemoShape, parseUrl)];
  }

  /** The publisher's initial value, `.success(demoData ?? [])`. */
  function InitialValue(parseUrl: string -> Option<Url>): Published {
    Success(DemoViews(parseUrl).GetOr([]))
  }

  lemma InitialValueIsDemoRecipe(parseUrl: string -> Option<Url>)
    ensures InitialValue(parseUrl) == Success([ToViewModel(DemoShape, parseUrl)])
    ensures |InitialValue(parseUrl).value| == 1
  {
    DemoViewsIsOneRecipe(parseUrl);
  }

  // ---------------------------------------------------------------- static state

  /** The static members of `Networking`: `recipeModelPublisher` and `cancellables`. Each
      `loadRequest` stores one sink, named here by the URL it loads; the sink's data task
      ends later, and then, on the main queue, the sink sends its value. */
  class Service {
    const platform: Platform
    const recipeModelPublisher: CurrentValueSubject<Published>
    var cancellables: seq<Url>
    var completed: set<nat>

    ghost predicate Valid()
      reads this, recipeModelPublisher
    {
      recipeModelPublisher.Valid() && forall i :: i in completed ==> i < |cancellables|
    }

    constructor (platform: Platform, seed: Published)
      ensures Valid() && this.platform == platform && fresh(recipeModelPublisher)
      ensures recipeModelPublisher.sent == [seed] && recipeModelPublisher.offsets == []
      ensures cancellables == [] && completed == {}
    {
      this.platform := platform;
      recipeModelPublisher := new CurrentValueSubject<Published>(seed);
      cancellables, completed := [], {};
    }

    /** `loadRequest(with:)`: starts the data task for `url` and stores its sink. */
    method LoadRequest(url: Url)
      requires Valid()
      modifies this
      ensures Valid()
      ensures cancellables == old(cancellables) + [url] && completed == old(completed)
    {
      cancellables := cancellables + [url];
    }

    /** The data task of request `i` ends with `o`; the sink sends what the chain yields. */
    method Complete(i: nat, o: TransportOutcome)
      requires Valid() && i < |cancellables| && i !in completed
      modifies this, recipeModelPublisher
      ensures Valid()
      ensures cancellables == old(cancellables) && completed == old(completed) + {i}
      ensures recipeModelPublisher.sent == old(recipeModelPublisher.sent) + [LoadResult(o, platform)]
      ensures recipeModelPublisher.offsets == old(recipeModelPublisher.offsets)
    {
      match ChainOutput(o, platform) {
        case Success(response) =>
          recipeModelPublisher.Send(Success(Listed(response, platform)));
        case Failure(error) =>
          recipeModelPublisher.Send(Failure(error));
      }
      completed := completed + {i};
    }
  }

  /** The package copy's static state at start-up: the publisher holds the demo recipes. */
  method NewService(platform: Platform) returns (s: Service)
    ensures fresh(s) && fresh(s.recipeModelPublisher) && s.Valid() && s.platform == platform
    ensures s.recipeModelPublisher.sent == [InitialValue(platform.parseUrl)]
    ensures s.recipeModelPublisher.offsets == [] && s.cancellables == [] && s.completed == {}
  {
    s := new Service(platform, InitialValue(platform.parseUrl));
  }
}
