/**
 * The data model of Office365RESTSamples, the older revision of the
 * catalogue: request bodies are JSON objects, the access token is read
 * from the local settings for every item, response bodies are parsed as
 * JSON objects, and its `MethodConverter` compares case-sensitively.
 */
module SamplesData {
  import opened Wrappers
  import opened Exceptions
  import opened Text
  import opened Json
  import opened Http
  import opened Lookup
  import opened Loading
  import opened LocalSettings
  import MethodConverter

  datatype RequestItem = RequestItem(apiUrl: string, verb: string, headers: Object, body: Object)

  datatype DataItem = DataItem(uniqueId: string, title: string, subtitle: string, imagePath: string, request: RequestItem)

  datatype DataGroup = DataGroup(uniqueId: string, title: string, subtitle: string, imagePath: string,
                                 moreInfoText: string, moreInfoUri: string, items: seq<DataItem>)

  /** The response: the absolute response URI, status, headers, and the body parsed as an object, null when empty. */
  datatype ResponseItem = ResponseItem(responseUri: string, status: string, headers: Object, body: Option<Object>)

  /** The `RequestItem` constructor: only GET or POST, in any case, is accepted, and is stored as given. */
  function NewRequestItem(apiUrl: string, verb: string, headers: Object, body: Object): (r: Result<RequestItem, Exception>)
    ensures r.Success? <==> AcceptedMethod(verb)
    ensures r.Success? ==> r.value == RequestItem(apiUrl, verb, headers, body)
    ensures r.Failure? ==> r.error == ArgumentOutOfRange("method")
  {
    if !EqualsIgnoreCase(verb, "GET") && !EqualsIgnoreCase(verb, "POST") then Failure(ArgumentOutOfRange("method"))
    else Success(RequestItem(apiUrl, verb, headers, body))
  }

  /** One element of a group's "Items" array; the token is the "AccessToken" setting, read after the template's prefix. */
  function BuildItem(v: Json, settings: Settings): Result<DataItem, Exception>
  {
    var itemObject :- AsObject(v, "Items");
    var requestObject :- ObjectField(itemObject, "Request");
    var request :- ItemRequest(requestObject, settings);
    var uniqueId :- StringField(itemObject, "UniqueId");
    var title :- StringField(itemObject, "Title");
    var subtitle :- StringField(itemObject, "Subtitle");
    var imagePath :- StringField(itemObject, "ImagePath");
    Success(DataItem(uniqueId, title, subtitle, imagePath, request))
  }

  /** The request of an item template: headers, API URL, method and body, in the order the loader reads them. */
  function ItemRequest(requestObject: Object, settings: Settings): Result<RequestItem, Exception>
  {
    var headers :- AuthorizedHeaders(requestObject, settings);
    var apiUrl :- StringField(requestObject, "ApiUrl");
    var verb :- StringField(requestObject, "Method");
    var body :- ObjectField(requestObject, "Body");
    NewRequestItem(apiUrl, verb, headers, body)
  }

  /** The template's headers with the "AccessToken" setting appended to their Authorization value. */
  function AuthorizedHeaders(requestObject: Object, settings: Settings): Result<Object, Exception>
  {
    var jsonHeaders :- ObjectField(requestObject, "Headers");
    var prefix :- StringField(jsonHeaders, "Authorization");
    var accessToken :- Value(settings, "AccessToken");
    Success(Put(jsonHeaders, "Authorization", JString(prefix + accessToken)))
  }

  function ItemBuilder(settings: Settings): Json -> Result<DataItem, Exception>
  {
    v => BuildItem(v, settings)
  }

  datatype GroupTemplate = GroupTemplate(group: DataGroup, itemValues: seq<Json>)

  function GroupHeader(v: Json): Result<GroupTemplate, Exception>
  {
    var groupObject :- AsObject(v, "Groups");
    var uniqueId :- StringField(groupObject, "UniqueId");
    var title :- StringField(groupObject, "Title");
    var subtitle :- StringField(groupObject, "Subtitle");
    var imagePath :- StringField(groupObject, "ImagePath");
    var moreInfoText :- StringField(groupObject, "MoreInfoText");
    var moreInfoUri :- StringField(groupObject, "MoreInfoUri");
    var itemValues :- ArrayField(groupObject, "Items");
    Success(GroupTemplate(DataGroup(uniqueId, title, subtitle, imagePath, moreInfoText, moreInfoUri, []), itemValues))
  }

  function BuildGroup(v: Json, settings: Settings): Result<DataGroup, Exception>
  {
    var t :- GroupHeader(v);
    var items :- CollectAll(t.itemValues, ItemBuilder(settings));
    Success(t.group.(items := items))
  }

  function GroupBuilder(settings: Settings): Json -> Result<DataGroup, Exception>
  {
    v => BuildGroup(v, settings)
  }

  /** The inputs of one load: the text of InitialData.json and the local settings at that time. */
  datatype LoadInput = LoadInput(jsonText: string, settings: Settings, lib: JsonLib)

  function GroupValues(input: LoadInput): Result<seq<Json>, Exception>
  {
    var root :- ParseObject(input.lib, input.jsonText);
    ArrayField(root, "Groups")
  }

  /** `GetSampleDataAsync`: nothing when groups exist, otherwise a build from the file. */
  function Load(current: seq<DataGroup>, input: LoadInput): Loaded<DataGroup>
  {
    if current != [] then Loaded(current, None)
    else match GroupValues(input)
      case Failure(e) => Loaded([], Some(e))
      case Success(vs) => LoadAll(vs, GroupBuilder(input.settings))
  }

  function GroupId(g: DataGroup): string { g.uniqueId }
  function ItemId(i: DataItem): string { i.uniqueId }
  function GroupItems(g: DataGroup): seq<DataItem> { g.items }

  function FindGroup(groups: seq<DataGroup>, uniqueId: string): Option<DataGroup>
  {
    Single(groups, uniqueId, GroupId)
  }

  function FindItem(groups: seq<DataGroup>, uniqueId: string): Option<DataItem>
  {
    Single(Flatten(groups, GroupItems), uniqueId, ItemId)
  }

  /** The body written to the request stream: the stringified body object, only when the method is exactly "POST". */
  function PostData(request: RequestItem, lib: JsonLib): Option<string>
  {
    if request.verb == "POST" then Some(lib.stringify(request.body)) else None
  }

  /** The response body: null for an empty text, else the text parsed as a JSON object, which throws when it is not one. */
  function ResponseBody(text: string, lib: JsonLib): (r: Result<Option<Object>, Exception>)
    ensures text == "" ==> r == Success(None)
    ensures text != "" ==>
              match lib.parse(text)
              case Some(JObject(ms)) => r == Success(Some(ms))
              case _ => r == Failure(ParseFailure)
  {
    if text == "" then Success(None)
    else
      var body :- ParseObject(lib, text);
      Success(Some(body))
  }

  /** `MethodConverter.Convert` of this file: true only for the exact string "POST". */
  function MethodConvert(value: string): bool
  {
    value == "POST"
  }

  /** The outgoing request: the service resource the API URL is resolved against, and what the template decides. */
  datatype SentRequest = SentRequest(serviceResourceId: string, apiUrl: string, verb: string,
                                     headers: OutgoingHeaders, body: Option<string>)

  datatype Exchange = Exchange(sent: SentRequest, response: ResponseItem)

  /**
   * `GetResponseAsync`: resolve against the "ServiceResourceId" setting,
   * route the headers, send the stringified body for "POST", then build the
   * response item, parsing a non-empty body.
   */
  method GetResponse(request: RequestItem, settings: Settings, outcome: HttpOutcome, lib: JsonLib)
    returns (r: Result<Exchange, Exception>)
    requires WellFormed(outcome)
    ensures "ServiceResourceId" !in settings ==> r == Failure(NullReference("ServiceResourceId"))
    ensures r.Success? <==>
              "ServiceResourceId" in settings && RouteAll(request.headers).Success? && PageOf(outcome).Success? &&
              ResponseBody(PageOf(outcome).value.text, lib).Success?
    ensures "ServiceResourceId" in settings && RouteAll(request.headers).Failure? ==> r == Failure(RouteAll(request.headers).error)
    ensures "ServiceResourceId" in settings && RouteAll(request.headers).Success? && PageOf(outcome).Failure? ==>
              r == Failure(PageOf(outcome).error)
    ensures ("ServiceResourceId" in settings && RouteAll(request.headers).Success? && PageOf(outcome).Success? &&
             ResponseBody(PageOf(outcome).value.text, lib).Failure?) ==> r == Failure(ParseFailure)
    ensures r.Success? ==>
              r.value.sent == SentRequest(settings["ServiceResourceId"], request.apiUrl, request.verb,
                                          RouteAll(request.headers).value, PostData(request, lib))
    ensures r.Success? ==>
              var page := PageOf(outcome).value;
              var response := r.value.response;
              response.responseUri == page.uri && response.status == Status(outcome) &&
              Success(response.body) == ResponseBody(page.text, lib) &&
              |response.headers| == |page.headers| &&
              forall i :: 0 <= i < |page.headers| ==>
                response.headers[i] == Member(page.headers[i].name, JString(page.headers[i].value))
  {
    var serviceResourceId := Value(settings, "ServiceResourceId");
    if serviceResourceId.Failure? {
      return Failure(serviceResourceId.error);
    }
    var routed := RouteHeaders(request.headers);
    if routed.Failure? {
      return Failure(routed.error);
    }
    var sent := SentRequest(serviceResourceId.value, request.apiUrl, request.verb, routed.value, PostData(request, lib));
    var page := PageOf(outcome);
    if page.Failure? {
      return Failure(page.error);
    }
    var body := ResponseBody(page.value.text, lib);
    if body.Failure? {
      return Failure(body.error);
    }
    var headers := CopyResponseHeaders(page.value.headers);
    r := Success(Exchange(sent, ResponseItem(page.value.uri, Status(outcome), headers, body.value)));
  }

  /** One group: its header fields, then its items. */
  method ReadGroup(v: Json, settings: Settings) returns (r: Result<DataGroup, Exception>)
    ensures r == BuildGroup(v, settings)
  {
    var header := GroupHeader(v);
    if header.Failure? {
      return Failure(header.error);
    }
    var items := CollectEach(header.value.itemValues, ItemBuilder(settings));
    if items.Failure? {
      return Failure(items.error);
    }
    r := Success(header.value.group.(items := items.value));
  }

  /** The singleton data source. */
  class DataSource {
    var groups: seq<DataGroup>

    constructor ()
      ensures groups == []
    {
      groups := [];
    }

    /** `GetSampleDataAsync`, the load-once build. */
    method GetSampleData(input: LoadInput) returns (error: Option<Exception>)
      modifies this
      ensures Loaded(groups, error) == Load(old(groups), input)
    {
      if |groups| != 0 {
        return None;
      }
      var parsed := GroupValues(input);
      if parsed.Failure? {
        return Some(parsed.error);
      }
      var vs := parsed.value;
      var build := GroupBuilder(input.settings);
      for i := 0 to |vs|
        invariant LoadAll(vs, build) == Prepend(groups, LoadAll(vs[i..], build))
      {
        LoadAllAt(vs, i, build);
        var group := ReadGroup(vs[i], input.settings);
        if group.Failure? {
          return Some(group.error);
        }
        PrependPrepend(groups, [group.value], LoadAll(vs[i + 1..], build));
        groups := groups + [group.value];
      }
      assert vs[|vs|..] == [];
      error := None;
    }

    method GetGroups(input: LoadInput) returns (r: Result<seq<DataGroup>, Exception>)
      modifies this
      ensures Loaded(groups, if r.Failure? then Some(r.error) else None) == Load(old(groups), input)
      ensures r.Success? ==> r.value == groups
    {
      var error := GetSampleData(input);
      if error.Some? {
        return Failure(error.value);
      }
      r := Success(groups);
    }

    method GetGroup(uniqueId: string, input: LoadInput) returns (r: Result<Option<DataGroup>, Exception>)
      modifies this
      ensures Loaded(groups, if r.Failure? then Some(r.error) else None) == Load(old(groups), input)
      ensures r.Success? ==> r.value == FindGroup(groups, uniqueId)
    {
      var error := GetSampleData(input);
      if error.Some? {
        return Failure(error.value);
      }
      r := Success(FindGroup(groups, uniqueId));
    }

    method GetItem(uniqueId: string, input: LoadInput) returns (r: Result<Option<DataItem>, Exception>)
      modifies this
      ensures Loaded(groups, if r.Failure? then Some(r.error) else None) == Load(old(groups), input)
      ensures r.Success? ==> r.value == FindItem(groups, uniqueId)
    {
      var error := GetSampleData(input);
      if error.Some? {
        return Failure(error.value);
      }
      r := Success(FindItem(groups, uniqueId));
    }
  }

  function TemplateRequest(v: Json): Result<Object, Exception>
  {
    var itemObject :- AsObject(v, "Items");
    ObjectField(itemObject, "Request")
  }

  function TemplateHeaders(v: Json): Result<Object, Exception>
  {
    var requestObject :- TemplateRequest(v);
    ObjectField(requestObject, "Headers")
  }

  /**
   * What a built item's request holds: the template's headers with the
   * Authorization value followed by the "AccessToken" setting, which must
   * therefore exist, and every other header as in the template; the
   * template's body object; and the template's method, as written.
   */
  lemma BuiltItemRequest(v: Json, settings: Settings)
    requires BuildItem(v, settings).Success?
    ensures "AccessToken" in settings
    ensures TemplateRequest(v).Success? && TemplateHeaders(v).Success?
    ensures StringField(TemplateHeaders(v).value, "Authorization").Success?
    ensures var request := BuildItem(v, settings).value.request;
            var template := TemplateHeaders(v).value;
            Get(request.headers, "Authorization") ==
              Some(JString(StringField(template, "Authorization").value + settings["AccessToken"])) &&
            forall k :: k != "Authorization" ==> Get(request.headers, k) == Get(template, k)
    ensures var request := BuildItem(v, settings).value.request;
            ObjectField(TemplateRequest(v).value, "Body") == Success(request.body) &&
            StringField(TemplateRequest(v).value, "Method") == Success(request.verb) && AcceptedMethod(request.verb)
  {
    var itemObject := AsObject(v, "Items").value;
    var requestObject := ObjectField(itemObject, "Request").value;
    assert TemplateRequest(v) == Success(requestObject);
    assert BuildItem(v, settings).value.request == ItemRequest(requestObject, settings).value;
    ItemRequestParts(requestObject, settings);
    AuthorizedHeadersPut(requestObject, settings);
  }

  /** The parts of a request template, as `ItemRequest` reads them. */
  lemma ItemRequestParts(requestObject: Object, settings: Settings)
    requires ItemRequest(requestObject, settings).Success?
    ensures var request := ItemRequest(requestObject, settings).value;
            AuthorizedHeaders(requestObject, settings) == Success(request.headers) &&
            ObjectField(requestObject, "Body") == Success(request.body) &&
            StringField(requestObject, "Method") == Success(request.verb) && AcceptedMethod(request.verb)
  {
  }

  /** Appending the stored token, which must exist, rewrites the Authorization header only. */
  lemma AuthorizedHeadersPut(requestObject: Object, settings: Settings)
    requires AuthorizedHeaders(requestObject, settings).Success?
    ensures "AccessToken" in settings && ObjectField(requestObject, "Headers").Success?
    ensures var template := ObjectField(requestObject, "Headers").value;
            var headers := AuthorizedHeaders(requestObject, settings).value;
            StringField(template, "Authorization").Success? &&
            Get(headers, "Authorization") == Some(JString(StringField(template, "Authorization").value + settings["AccessToken"])) &&
            forall k :: k != "Authorization" ==> Get(headers, k) == Get(template, k)
  {
    var template := ObjectField(requestObject, "Headers").value;
    var prefix := StringField(template, "Authorization").value;
    forall k {
      GetPut(template, "Authorization", JString(prefix + settings["AccessToken"]), k);
    }
  }

  predicate Authorized(item: DataItem, accessToken: string)
  {
    match Get(item.request.headers, "Authorization")
    case Some(JString(value)) => EndsWith(value, accessToken)
    case _ => false
  }

  lemma BuiltGroupInOrder(v: Json, settings: Settings)
    requires BuildGroup(v, settings).Success?
    ensures GroupHeader(v).Success?
    ensures var t := GroupHeader(v).value;
            var g := BuildGroup(v, settings).value;
            g == t.group.(items := g.items) &&
            |g.items| == |t.itemValues| &&
            forall j :: 0 <= j < |g.items| ==> BuildItem(t.itemValues[j], settings) == Success(g.items[j])
  {
    CollectAllInOrder(GroupHeader(v).value.itemValues, ItemBuilder(settings));
  }

  lemma LoadInFileOrderOf(vs: seq<Json>, input: LoadInput)
    requires GroupValues(input) == Success(vs)
    ensures var l := LoadAll(vs, GroupBuilder(input.settings));
            l == Load([], input) &&
            |l.built| <= |vs| &&
            (forall k :: 0 <= k < |l.built| ==> BuildGroup(vs[k], input.settings) == Success(l.built[k])) &&
            (l.error.None? <==> |l.built| == |vs|) &&
            (l.error.Some? ==> BuildGroup(vs[|l.built|], input.settings) == Failure(l.error.value))
  {
    LoadAllInOrder(vs, GroupBuilder(input.settings));
  }

  /** A built item carries the stored access token, which must exist, at the end of its Authorization header. */
  lemma BuiltItemAuthorized(v: Json, settings: Settings)
    requires BuildItem(v, settings).Success?
    ensures "AccessToken" in settings && Authorized(BuildItem(v, settings).value, settings["AccessToken"])
  {
    BuiltItemRequest(v, settings);
    AppendEndsWith(StringField(TemplateHeaders(v).value, "Authorization").value, settings["AccessToken"]);
  }

  /** Every item of a group carries the stored access token, which therefore exists. */
  predicate ItemsAuthorized(items: seq<DataItem>, settings: Settings)
  {
    forall item :: item in items ==> "AccessToken" in settings && Authorized(item, settings["AccessToken"])
  }

  /** Every item of a built group is authorised for the stored access token. */
  lemma BuiltGroupAuthorized(v: Json, settings: Settings)
    requires BuildGroup(v, settings).Success?
    ensures ItemsAuthorized(BuildGroup(v, settings).value.items, settings)
  {
    var g := BuildGroup(v, settings).value;
    BuiltGroupInOrder(v, settings);
    var t := GroupHeader(v).value;
    forall item | item in g.items
      ensures "AccessToken" in settings && Authorized(item, settings["AccessToken"])
    {
      var j :| 0 <= j < |g.items| && g.items[j] == item;
      BuiltItemAuthorized(t.itemValues[j], settings);
    }
  }

  /** Every item of a first load carries the stored access token at the end of its Authorization header. */
  lemma LoadedItemsAuthorized(input: LoadInput)
    ensures forall g :: g in Load([], input).built ==> ItemsAuthorized(g.items, input.settings)
  {
    var l := Load([], input);
    if GroupValues(input).Success? {
      var vs := GroupValues(input).value;
      LoadInFileOrderOf(vs, input);
      forall g | g in l.built
        ensures ItemsAuthorized(g.items, input.settings)
      {
        var k :| 0 <= k < |l.built| && l.built[k] == g;
        BuiltGroupAuthorized(vs[k], input.settings);
      }
    }
  }

  /** A first load yields items only when an "AccessToken" setting exists: without one, every group built is empty. */
  lemma NoTokenNoItems(input: LoadInput)
    ensures forall g :: g in Load([], input).built && g.items != [] ==> "AccessToken" in input.settings
  {
    var l := Load([], input);
    LoadedItemsAuthorized(input);
    forall g | g in l.built && g.items != []
      ensures "AccessToken" in input.settings
    {
      assert ItemsAuthorized(g.items, input.settings);
      assert g.items[0] in g.items;
    }
  }

  lemma FindGroupUnique(groups: seq<DataGroup>, uniqueId: string)
    ensures FindGroup(groups, uniqueId).Some? <==> exists i :: UniqueAt(groups, uniqueId, GroupId, i)
    ensures forall i :: UniqueAt(groups, uniqueId, GroupId, i) ==> FindGroup(groups, uniqueId) == Some(groups[i])
  {
    SingleIffUnique(groups, uniqueId, GroupId);
  }

  lemma FindItemUnique(groups: seq<DataGroup>, uniqueId: string)
    ensures FindItem(groups, uniqueId).Some? <==> exists i :: UniqueAt(Flatten(groups, GroupItems), uniqueId, ItemId, i)
    ensures FindItem(groups, uniqueId).Some? ==>
              FindItem(groups, uniqueId).value.uniqueId == uniqueId &&
              exists g :: g in groups && FindItem(groups, uniqueId).value in g.items
  {
    FlattenSingleUnique(groups, GroupItems, uniqueId, ItemId);
  }

  /**
   * This file's method converter is case-sensitive: it round-trips with
   * `ConvertBack`, normalises exactly "POST" to "POST", and, unlike the
   * ObjectConverters one, leaves the box off for "post".
   */
  lemma MethodConvertCaseSensitive(value: string, isPost: bool)
    ensures MethodConvert(MethodConverter.ConvertBack(isPost)) == isPost
    ensures MethodConverter.ConvertBack(MethodConvert(value)) == "POST" <==> value == "POST"
    ensures !MethodConvert("post") && MethodConverter.Convert("post")
  {
    MethodConverter.ConvertIsPostIgnoringCase("post");
  }
}
