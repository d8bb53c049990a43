/**
 * The data model of Office365RESTAPIExplorer: a singleton data source of
 * groups, each holding items, each item carrying a REST request template
 * read from InitialData.json. Lookups are by `UniqueId`; the catalogue is
 * loaded once, with the signed-in user's access token appended to every
 * template's Authorization header.
 */
module ExplorerData {
  import opened Wrappers
  import opened Exceptions
  import opened Text
  import opened Json
  import opened Http
  import opened Lookup
  import opened Loading

  /** An HTTP request template. Its API URL is relative to the service resource. */
  datatype RequestItem = RequestItem(apiUrl: string, verb: string, headers: Object, body: string)

  /** One operation of a group. */
  datatype DataItem = DataItem(uniqueId: string, title: string, subtitle: string, imagePath: string, request: RequestItem)

  /** A SharePoint entity (lists, list items, files) and its operations. */
  datatype DataGroup = DataGroup(uniqueId: string, title: string, subtitle: string, imagePath: string,
                                 moreInfoText: string, moreInfoUri: string, items: seq<DataItem>)

  /** What a REST call brought back; `body` is null (None) for an empty response. */
  datatype ResponseItem = ResponseItem(responseUri: string, status: string, headers: Object, body: Option<string>)

  /** The `RequestItem` constructor: only GET or POST, in any case, is accepted, and is stored as given. */
  function NewRequestItem(apiUrl: string, verb: string, headers: Object, body: string): (r: Result<RequestItem, Exception>)
    ensures r.Success? <==> AcceptedMethod(verb)
    ensures r.Success? ==> r.value == RequestItem(apiUrl, verb, headers, body)
    ensures r.Failure? ==> r.error == ArgumentOutOfRange("method")
  {
    if !EqualsIgnoreCase(verb, "GET") && !EqualsIgnoreCase(verb, "POST") then Failure(ArgumentOutOfRange("method"))
    else Success(RequestItem(apiUrl, verb, headers, body))
  }

  /** The body of a template: a JSON object is stringified, a JSON string kept raw, any other kind is not supported. */
  function RequestBody(requestObject: Object, lib: JsonLib): (r: Result<string, Exception>)
    ensures Get(requestObject, "Body").None? ==> r == Failure(KeyNotFound("Body"))
    ensures Get(requestObject, "Body").Some? ==>
              match Get(requestObject, "Body").value
              case JObject(ms) => r == Success(lib.stringify(ms))
              case JString(s) => r == Success(s)
              case _ => r == Failure(NotSupported)
  {
    var body :- Field(requestObject, "Body");
    if body.JObject? then Success(lib.stringify(body.members))
    else if body.JString? then Success(body.s)
    else Failure(NotSupported)
  }

  /** One element of a group's "Items" array, read field by field in the order the loader reads them. */
  function BuildItem(v: Json, accessToken: string, lib: JsonLib): Result<DataItem, Exception>
  {
    var itemObject :- AsObject(v, "Items");
    var requestObject :- ObjectField(itemObject, "Request");
    var request :- ItemRequest(requestObject, accessToken, lib);
    var uniqueId :- StringField(itemObject, "UniqueId");
    var title :- StringField(itemObject, "Title");
    var subtitle :- StringField(itemObject, "Subtitle");
    var imagePath :- StringField(itemObject, "ImagePath");
    Success(DataItem(uniqueId, title, subtitle, imagePath, request))
  }

  /** The request of an item template: headers, body, API URL and method, in the order the loader reads them. */
  function ItemRequest(requestObject: Object, accessToken: string, lib: JsonLib): Result<RequestItem, Exception>
  {
    var headers :- AuthorizedHeaders(requestObject, accessToken);
    var body :- RequestBody(requestObject, lib);
    var apiUrl :- StringField(requestObject, "ApiUrl");
    var verb :- StringField(requestObject, "Method");
    NewRequestItem(apiUrl, verb, headers, body)
  }

  /** The template's headers with the access token appended to their Authorization value. */
  function AuthorizedHeaders(requestObject: Object, accessToken: string): Result<Object, Exception>
  {
    var jsonHeaders :- ObjectField(requestObject, "Headers");
    var prefix :- StringField(jsonHeaders, "Authorization");
    Success(Put(jsonHeaders, "Authorization", JString(prefix + accessToken)))
  }

  function ItemBuilder(accessToken: string, lib: JsonLib): Json -> Result<DataItem, Exception>
  {
    v => BuildItem(v, accessToken, lib)
  }

  /** A group as constructed before its items are added, with the item array still to walk. */
  datatype GroupTemplate = GroupTemplate(group: DataGroup, itemValues: seq<Json>)

  function GroupHeader(v: Json): Result<GroupTemplate, Exception>
  {
    var groupObject :- AsObject(v, "Groups");
    var uniqueId :- StringField(groupObject, "UniqueId");
    var title :- StringField(groupObject, "Title");
    var subtitle :- StringField(groupObject, "Subtitle");
    var imagePath :- StringField(groupObject, "ImagePath");
    var moreInfoText :- StringField(groupObject, "MoreInfoText");
    var moreInfoUri :- StringField(groupObject, "MoreInfoUri");
    var itemValues :- ArrayField(groupObject, "Items");
    Success(GroupTemplate(DataGroup(uniqueId, title, subtitle, imagePath, moreInfoText, moreInfoUri, []), itemValues))
  }

  /** One element of the "Groups" array with all its items. */
  function BuildGroup(v: Json, accessToken: string, lib: JsonLib): Result<DataGroup, Exception>
  {
    var t :- GroupHeader(v);
    var items :- CollectAll(t.itemValues, ItemBuilder(accessToken, lib));
    Success(t.group.(items := items))
  }

  function GroupBuilder(accessToken: string, lib: JsonLib): Json -> Result<DataGroup, Exception>
  {
    v => BuildGroup(v, accessToken, lib)
  }

  /**
   * The inputs of one load: the text of InitialData.json and the outcome of
   * the token acquisition that every load performs, an access token or the
   * exception it threw.
   */
  datatype LoadInput = LoadInput(jsonText: string, acquired: Result<string, Exception>, lib: JsonLib)

  /** `JsonObject.Parse(jsonText)["Groups"].GetArray()`. */
  function GroupValues(input: LoadInput): Result<seq<Json>, Exception>
  {
    var root :- ParseObject(input.lib, input.jsonText);
    ArrayField(root, "Groups")
  }

  /**
   * `GetSampleDataAsync` on a data source holding `current`: the token is
   * acquired first, and a throw there aborts the call; then nothing happens
   * when groups exist, else the groups are built from the file.
   */
  function Load(current: seq<DataGroup>, input: LoadInput): Loaded<DataGroup>
  {
    if input.acquired.Failure? then Loaded(current, Some(input.acquired.error))
    else if current != [] then Loaded(current, None)
    else match GroupValues(input)
      case Failure(e) => Loaded([], Some(e))
      case Success(vs) => LoadAll(vs, GroupBuilder(input.acquired.value, input.lib))
  }

  function GroupId(g: DataGroup): string { g.uniqueId }
  function ItemId(i: DataItem): string { i.uniqueId }
  function GroupItems(g: DataGroup): seq<DataItem> { g.items }

  /** `GetGroupAsync`'s search. */
  function FindGroup(groups: seq<DataGroup>, uniqueId: string): Option<DataGroup>
  {
    Single(groups, uniqueId, GroupId)
  }

  /** `GetItemAsync`'s search, over the items of all groups. */
  function FindItem(groups: seq<DataGroup>, uniqueId: string): Option<DataItem>
  {
    Single(Flatten(groups, GroupItems), uniqueId, ItemId)
  }

  /** The body written to the request stream: only when the method is exactly "POST". */
  function PostData(request: RequestItem): Option<string>
  {
    if request.verb == "POST" then Some(request.body) else None
  }

  /** The response body: null when the response text is empty, the text otherwise. */
  function ResponseBody(text: string): Option<string>
  {
    if text == "" then None else Some(text)
  }

  /** The part of the outgoing `HttpWebRequest` the template decides. */
  datatype SentRequest = SentRequest(apiUrl: string, verb: string, headers: OutgoingHeaders, body: Option<string>)

  datatype Exchange = Exchange(sent: SentRequest, response: ResponseItem)

  /**
   * `GetResponseAsync`: send the template's headers and, for "POST", its
   * body; then build the response item from how the call ended.
   */
  method GetResponse(request: RequestItem, outcome: HttpOutcome) returns (r: Result<Exchange, Exception>)
    requires WellFormed(outcome)
    ensures r.Success? <==> RouteAll(request.headers).Success? && PageOf(outcome).Success?
    ensures RouteAll(request.headers).Failure? ==> r == Failure(RouteAll(request.headers).error)
    ensures RouteAll(request.headers).Success? && PageOf(outcome).Failure? ==> r == Failure(PageOf(outcome).error)
    ensures r.Success? ==>
              r.value.sent == SentRequest(request.apiUrl, request.verb, RouteAll(request.headers).value, PostData(request))
    ensures r.Success? ==>
              var page := PageOf(outcome).value;
              var response := r.value.response;
              response.responseUri == page.uri && response.status == Status(outcome) &&
              (response.body.None? <==> page.text == "") &&
              (response.body.Some? ==> response.body.value == page.text) &&
              |response.headers| == |page.headers| &&
              forall i :: 0 <= i < |page.headers| ==>
                response.headers[i] == Member(page.headers[i].name, JString(page.headers[i].value))
  {
    var routed := RouteHeaders(request.headers);
    if routed.Failure? {
      return Failure(routed.error);
    }
    var sent := SentRequest(request.apiUrl, request.verb, routed.value, PostData(request));
    var page := PageOf(outcome);
    if page.Failure? {
      return Failure(page.error);
    }
    var headers := CopyResponseHeaders(page.value.headers);
    r := Success(Exchange(sent, ResponseItem(page.value.uri, Status(outcome), headers, ResponseBody(page.value.text))));
  }

  /** One group: its header fields, then its items. */
  method ReadGroup(v: Json, accessToken: string, lib: JsonLib) returns (r: Result<DataGroup, Exception>)
    ensures r == BuildGroup(v, accessToken, lib)
  {
    var header := GroupHeader(v);
    if header.Failure? {
      return Failure(header.error);
    }
    var items := CollectEach(header.value.itemValues, ItemBuilder(accessToken, lib));
    if items.Failure? {
      return Failure(items.error);
    }
    r := Success(header.value.group.(items := items.value));
  }

  /** The singleton data source. */
  class DataSource {
    var groups: seq<DataGroup>

    constructor ()
      ensures groups == []
    {
      groups := [];
    }

    /** `Clear`: forget the catalogue, so that the next load rebuilds it. */
    method Clear()
      modifies this
      ensures groups == []
    {
      groups := [];
    }

    /** `GetSampleDataAsync`, the load-once build. */
    method GetSampleData(input: LoadInput) returns (error: Option<Exception>)
      modifies this
      ensures Loaded(groups, error) == Load(old(groups), input)
    {
      if input.acquired.Failure? {
        return Some(input.acquired.error);
      }
      var accessToken := input.acquired.value;
      if |groups| != 0 {
        return None;
      }
      var parsed := GroupValues(input);
      if parsed.Failure? {
        return Some(parsed.error);
      }
      var vs := parsed.value;
      var build := GroupBuilder(accessToken, input.lib);
      for i := 0 to |vs|
        invariant LoadAll(vs, build) == Prepend(groups, LoadAll(vs[i..], build))
      {
        LoadAllAt(vs, i, build);
        var group := ReadGroup(vs[i], accessToken, input.lib);
        if group.Failure? {
          return Some(group.error);
        }
        PrependPrepend(groups, [group.value], LoadAll(vs[i + 1..], build));
        groups := groups + [group.value];
      }
      assert vs[|vs|..] == [];
      error := None;
    }

    /** `GetGroupsAsync`: load, then all groups. */
    method GetGroups(input: LoadInput) returns (r: Result<seq<DataGroup>, Exception>)
      modifies this
      ensures Loaded(groups, if r.Failure? then Some(r.error) else None) == Load(old(groups), input)
      ensures r.Success? ==> r.value == groups
    {
      var error := GetSampleData(input);
      if error.Some? {
        return Failure(error.value);
      }
      r := Success(groups);
    }

    /** `GetGroupAsync`: load, then the group with that id if exactly one has it. */
    method GetGroup(uniqueId: string, input: LoadInput) returns (r: Result<Option<DataGroup>, Exception>)
      modifies this
      ensures Loaded(groups, if r.Failure? then Some(r.error) else None) == Load(old(groups), input)
      ensures r.Success? ==> r.value == FindGroup(groups, uniqueId)
    {
      var error := GetSampleData(input);
      if error.Some? {
        return Failure(error.value);
      }
      r := Success(FindGroup(groups, uniqueId));
    }

    /** `GetItemAsync`: load, then the item with that id if exactly one item of all groups has it. */
    method GetItem(uniqueId: string, input: LoadInput) returns (r: Result<Option<DataItem>, Exception>)
      modifies this
      ensures Loaded(groups, if r.Failure? then Some(r.error) else None) == Load(old(groups), input)
      ensures r.Success? ==> r.value == FindItem(groups, uniqueId)
    {
      var error := GetSampleData(input);
      if error.Some? {
        return Failure(error.value);
      }
      r := Success(FindItem(groups, uniqueId));
    }
  }

  /** The request object of an item template, as the loader reaches it. */
  function TemplateRequest(v: Json): Result<Object, Exception>
  {
    var itemObject :- AsObject(v, "Items");
    ObjectField(itemObject, "Request")
  }

  /** The header object of an item template. */
  function TemplateHeaders(v: Json): Result<Object, Exception>
  {
    var requestObject :- TemplateRequest(v);
    ObjectField(requestObject, "Headers")
  }

  /**
   * What a built item's request holds: the template's headers with the
   * Authorization value followed by the load's access token and every
   * other header as in the template; the body as `RequestBody` reads it,
   * so a JSON object or a JSON string; and the template's method, as
   * written, which is GET or POST ignoring case.
   */
  lemma BuiltItemRequest(v: Json, accessToken: string, lib: JsonLib)
    requires BuildItem(v, accessToken, lib).Success?
    ensures TemplateRequest(v).Success? && TemplateHeaders(v).Success?
    ensures StringField(TemplateHeaders(v).value, "Authorization").Success?
    ensures var request := BuildItem(v, accessToken, lib).value.request;
            var template := TemplateHeaders(v).value;
            Get(request.headers, "Authorization") ==
              Some(JString(StringField(template, "Authorization").value + accessToken)) &&
            forall k :: k != "Authorization" ==> Get(request.headers, k) == Get(template, k)
    ensures var request := BuildItem(v, accessToken, lib).value.request;
            RequestBody(TemplateRequest(v).value, lib) == Success(request.body) &&
            Get(TemplateRequest(v).value, "Body").Some? &&
            (Get(TemplateRequest(v).value, "Body").value.JObject? || Get(TemplateRequest(v).value, "Body").value.JString?)
    ensures var request := BuildItem(v, accessToken, lib).value.request;
            StringField(TemplateRequest(v).value, "Method") == Success(request.verb) && AcceptedMethod(request.verb)
  {
    var itemObject := AsObject(v, "Items").value;
    var requestObject := ObjectField(itemObject, "Request").value;
    assert TemplateRequest(v) == Success(requestObject);
    assert BuildItem(v, accessToken, lib).value.request == ItemRequest(requestObject, accessToken, lib).value;
    ItemRequestParts(requestObject, accessToken, lib);
    AuthorizedHeadersPut(requestObject, accessToken);
  }

  /** The parts of a request template, as `ItemRequest` reads them. */
  lemma ItemRequestParts(requestObject: Object, accessToken: string, lib: JsonLib)
    requires ItemRequest(requestObject, accessToken, lib).Success?
    ensures var request := ItemRequest(requestObject, accessToken, lib).value;
            AuthorizedHeaders(requestObject, accessToken) == Success(request.headers) &&
            RequestBody(requestObject, lib) == Success(request.body) &&
            StringField(requestObject, "Method") == Success(request.verb) && AcceptedMethod(request.verb)
  {
  }

  /** Appending the token rewrites the Authorization header only. */
  lemma AuthorizedHeadersPut(requestObject: Object, accessToken: string)
    requires AuthorizedHeaders(requestObject, accessToken).Success?
    ensures ObjectField(requestObject, "Headers").Success?
    ensures var template := ObjectField(requestObject, "Headers").value;
            var headers := AuthorizedHeaders(requestObject, accessToken).value;
            StringField(template, "Authorization").Success? &&
            Get(headers, "Authorization") == Some(JString(StringField(template, "Authorization").value + accessToken)) &&
            forall k :: k != "Authorization" ==> Get(headers, k) == Get(template, k)
  {
    var template := ObjectField(requestObject, "Headers").value;
    var prefix := StringField(template, "Authorization").value;
    forall k {
      GetPut(template, "Authorization", JString(prefix + accessToken), k);
    }
  }

  /** An item is authorised for a token when its Authorization header is a string ending with that token. */
  predicate Authorized(item: DataItem, accessToken: string)
  {
    match Get(item.request.headers, "Authorization")
    case Some(JString(value)) => EndsWith(value, accessToken)
    case _ => false
  }

  /** How a built group relates to its template: the header fields, then one item per template item, in file order. */
  lemma BuiltGroupInOrder(v: Json, accessToken: string, lib: JsonLib)
    requires BuildGroup(v, accessToken, lib).Success?
    ensures GroupHeader(v).Success?
    ensures var t := GroupHeader(v).value;
            var g := BuildGroup(v, accessToken, lib).value;
            g == t.group.(items := g.items) &&
            |g.items| == |t.itemValues| &&
            forall j :: 0 <= j < |g.items| ==> BuildItem(t.itemValues[j], accessToken, lib) == Success(g.items[j])
  {
    CollectAllInOrder(GroupHeader(v).value.itemValues, ItemBuilder(accessToken, lib));
  }

  /**
   * A first load keeps file order: group k is built from the k-th element
   * of "Groups"; when the load stops early, the element it stopped at is
   * the one that threw.
   */
  lemma LoadInFileOrderOf(vs: seq<Json>, accessToken: string, input: LoadInput)
    requires input.acquired == Success(accessToken)
    requires GroupValues(input) == Success(vs)
    ensures var l := LoadAll(vs, GroupBuilder(accessToken, input.lib));
            l == Load([], input) &&
            |l.built| <= |vs| &&
            (forall k :: 0 <= k < |l.built| ==> BuildGroup(vs[k], accessToken, input.lib) == Success(l.built[k])) &&
            (l.error.None? <==> |l.built| == |vs|) &&
            (l.error.Some? ==> BuildGroup(vs[|l.built|], accessToken, input.lib) == Failure(l.error.value))
  {
    LoadAllInOrder(vs, GroupBuilder(accessToken, input.lib));
  }

  /**
   * Once the catalogue is loaded, later calls never change it, but each of
   * them still acquires a token first, and fails exactly when that throws.
   */
  lemma ReloadKeepsGroups(current: seq<DataGroup>, input: LoadInput)
    requires current != []
    ensures Load(current, input).built == current
    ensures Load(current, input).error.Some? <==> input.acquired.Failure?
    ensures input.acquired.Failure? ==> Load(current, input).error == Some(input.acquired.error)
  {
  }

  /** A built item carries the load's access token at the end of its Authorization header. */
  lemma BuiltItemAuthorized(v: Json, accessToken: string, lib: JsonLib)
    requires BuildItem(v, accessToken, lib).Success?
    ensures Authorized(BuildItem(v, accessToken, lib).value, accessToken)
  {
    BuiltItemRequest(v, accessToken, lib);
    AppendEndsWith(StringField(TemplateHeaders(v).value, "Authorization").value, accessToken);
  }

  /** Every item of a built group is authorised for the load's access token. */
  lemma BuiltGroupAuthorized(v: Json, accessToken: string, lib: JsonLib)
    requires BuildGroup(v, accessToken, lib).Success?
    ensures forall item :: item in BuildGroup(v, accessToken, lib).value.items ==> Authorized(item, accessToken)
  {
    var g := BuildGroup(v, accessToken, lib).value;
    BuiltGroupInOrder(v, accessToken, lib);
    var t := GroupHeader(v).value;
    forall item | item in g.items
      ensures Authorized(item, accessToken)
    {
      var j :| 0 <= j < |g.items| && g.items[j] == item;
      BuiltItemAuthorized(t.itemValues[j], accessToken, lib);
    }
  }

  /**
   * Every item of every group a first load builds carries that load's
   * access token, which was therefore acquired, at the end of its
   * Authorization header.
   */
  lemma LoadedItemsAuthorized(input: LoadInput)
    ensures forall g, item :: g in Load([], input).built && item in g.items ==>
              input.acquired.Success? && Authorized(item, input.acquired.value)
  {
    var l := Load([], input);
    if input.acquired.Success? && GroupValues(input).Success? {
      var vs := GroupValues(input).value;
      LoadInFileOrderOf(vs, input.acquired.value, input);
      forall g, item | g in l.built && item in g.items
        ensures input.acquired.Success? && Authorized(item, input.acquired.value)
      {
        var k :| 0 <= k < |l.built| && l.built[k] == g;
        BuiltGroupAuthorized(vs[k], input.acquired.value, input.lib);
      }
    }
  }

  /** `GetGroupAsync` returns a group exactly when one group, and no other, has that id; it is that group. */
  lemma FindGroupUnique(groups: seq<DataGroup>, uniqueId: string)
    ensures FindGroup(groups, uniqueId).Some? <==> exists i :: UniqueAt(groups, uniqueId, GroupId, i)
    ensures forall i :: UniqueAt(groups, uniqueId, GroupId, i) ==> FindGroup(groups, uniqueId) == Some(groups[i])
  {
    SingleIffUnique(groups, uniqueId, GroupId);
  }

  /**
   * `GetItemAsync` searches the items of all groups: it returns an item
   * exactly when one item of the whole catalogue has that id, and the item
   * returned belongs to one of the groups.
   */
  lemma FindItemUnique(groups: seq<DataGroup>, uniqueId: string)
    ensures FindItem(groups, uniqueId).Some? <==> exists i :: UniqueAt(Flatten(groups, GroupItems), uniqueId, ItemId, i)
    ensures FindItem(groups, uniqueId).Some? ==>
              FindItem(groups, uniqueId).value.uniqueId == uniqueId &&
              exists g :: g in groups && FindItem(groups, uniqueId).value in g.items
  {
    FlattenSingleUnique(groups, GroupItems, uniqueId, ItemId);
  }

  /**
   * Validation and the body rule disagree: of the methods the constructor
   * accepts, only the exact "POST" has its body written; every GET spelling
   * and every other spelling of "post" is sent without one.
   */
  lemma PostDataExact(apiUrl: string, verb: string, headers: Object, body: string)
    ensures (NewRequestItem(apiUrl, verb, headers, body).Success? &&
             PostData(NewRequestItem(apiUrl, verb, headers, body).value) == Some(body)) <==> verb == "POST"
    ensures (NewRequestItem(apiUrl, verb, headers, body).Success? &&
             PostData(NewRequestItem(apiUrl, verb, headers, body).value).None?) <==>
              EqualsIgnoreCase(verb, "GET") || (EqualsIgnoreCase(verb, "POST") && verb != "POST")
  {
    if verb == "POST" {
      assert EqualsIgnoreCase(verb, "POST");
    }
  }

  /** "post" passes the constructor's case-insensitive check, yet such a request is sent without its body. */
  lemma LowerCasePostSendsNoBody(apiUrl: string, headers: Object, body: string)
    ensures NewRequestItem(apiUrl, "post", headers, body).Success?
    ensures PostData(NewRequestItem(apiUrl, "post", headers, body).value) == None
  {
    AcceptedMethodSpelling("post");
  }
}
