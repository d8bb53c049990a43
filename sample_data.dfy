/**
 * `SampleDataSource` of Office365RESTSamples: the sample catalogue read
 * from SampleData.json. Its items carry an endpoint resolved against the
 * stored service resource and two flags, Get and Post, of which the
 * constructor sets exactly one.
 */
module SampleData {
  import opened Wrappers
  import opened Exceptions
  import opened Text
  import opened Json
  import opened Http
  import opened Lookup
  import opened Loading
  import opened LocalSettings

  /** `new Uri(new Uri(serviceResourceId), endPoint)`, kept as its two parts. */
  datatype EndPoint = EndPoint(serviceResourceId: string, relative: string)

  datatype SampleDataItem = SampleDataItem(uniqueId: string, title: string, subtitle: string, imagePath: string,
                                           endPoint: EndPoint, get: bool, post: bool, headers: Object, body: Json)

  datatype SampleDataGroup = SampleDataGroup(uniqueId: string, title: string, subtitle: string, imagePath: string,
                                             items: seq<SampleDataItem>)

  /** What the `SampleDataItem` constructor makes of its arguments: Get for any casing of GET, else Post for any casing of POST, else a throw. */
  function NewItem(uniqueId: string, title: string, subtitle: string, imagePath: string,
                   endPoint: EndPoint, verb: string, headers: Object, body: Json): Result<SampleDataItem, Exception>
  {
    if EqualsIgnoreCase(verb, "GET") then
      Success(SampleDataItem(uniqueId, title, subtitle, imagePath, endPoint, true, false, headers, body))
    else if EqualsIgnoreCase(verb, "POST") then
      Success(SampleDataItem(uniqueId, title, subtitle, imagePath, endPoint, false, true, headers, body))
    else Failure(ArgumentOutOfRange("method"))
  }

  /**
   * The `SampleDataItem` constructor as written: both flags start false and
   * at most one of them is then set. An item exists exactly for GET or POST
   * in any case, and it has exactly one flag, the one its method names.
   */
  method ConstructItem(uniqueId: string, title: string, subtitle: string, imagePath: string,
                       endPoint: EndPoint, verb: string, headers: Object, body: Json)
    returns (r: Result<SampleDataItem, Exception>)
    ensures r == NewItem(uniqueId, title, subtitle, imagePath, endPoint, verb, headers, body)
    ensures r.Success? <==> AcceptedMethod(verb)
    ensures r.Failure? ==> r.error == ArgumentOutOfRange("method")
    ensures r.Success? ==> r.value.get != r.value.post
    ensures r.Success? ==> (r.value.get <==> EqualsIgnoreCase(verb, "GET")) &&
                           (r.value.post <==> EqualsIgnoreCase(verb, "POST"))
    ensures r.Success? ==>
              r.value.uniqueId == uniqueId && r.value.title == title && r.value.subtitle == subtitle &&
              r.value.imagePath == imagePath && r.value.endPoint == endPoint &&
              r.value.headers == headers && r.value.body == body
  {
    var get := false;
    var post := false;
    if EqualsIgnoreCase(verb, "GET") {
      get := true;
    } else if EqualsIgnoreCase(verb, "POST") {
      post := true;
    } else {
      return Failure(ArgumentOutOfRange("method"));
    }
    NoMethodIsBoth(verb);
    r := Success(SampleDataItem(uniqueId, title, subtitle, imagePath, endPoint, get, post, headers, body));
  }

  /** No string is both GET and POST ignoring case, so the order of the two tests never matters. */
  lemma NoMethodIsBoth(verb: string)
    ensures !(EqualsIgnoreCase(verb, "GET") && EqualsIgnoreCase(verb, "POST"))
  {
    if EqualsIgnoreCase(verb, "GET") {
      assert |ToLower(verb)| == 3;
      assert |ToLower("POST")| == 4;
    }
  }

  /** Whatever the method, a constructed item has exactly one flag, and it is the one the method names. */
  lemma ExactlyOneFlag(uniqueId: string, title: string, subtitle: string, imagePath: string,
                       endPoint: EndPoint, verb: string, headers: Object, body: Json)
    requires NewItem(uniqueId, title, subtitle, imagePath, endPoint, verb, headers, body).Success?
    ensures var item := NewItem(uniqueId, title, subtitle, imagePath, endPoint, verb, headers, body).value;
            item.get != item.post && (item.get <==> EqualsIgnoreCase(verb, "GET")) &&
            (item.post <==> EqualsIgnoreCase(verb, "POST"))
  {
    NoMethodIsBoth(verb);
  }

  /** One element of a group's "Items" array, read in the order the loader reads it. */
  function BuildItem(v: Json, settings: Settings): Result<SampleDataItem, Exception>
  {
    var itemObject :- AsObject(v, "Items");
    var serviceResourceId :- Value(settings, "ServiceResourceId");
    var endPoint :- StringField(itemObject, "EndPoint");
    var uniqueId :- StringField(itemObject, "UniqueId");
    var title :- StringField(itemObject, "Title");
    var subtitle :- StringField(itemObject, "Subtitle");
    var imagePath :- StringField(itemObject, "ImagePath");
    var verb :- StringField(itemObject, "Method");
    var headers :- ObjectField(itemObject, "Headers");
    var body :- Field(itemObject, "Body");
    NewItem(uniqueId, title, subtitle, imagePath, EndPoint(serviceResourceId, endPoint), verb, headers, body)
  }

  function ItemBuilder(settings: Settings): Json -> Result<SampleDataItem, Exception>
  {
    v => BuildItem(v, settings)
  }

  datatype GroupTemplate = GroupTemplate(group: SampleDataGroup, itemValues: seq<Json>)

  function GroupHeader(v: Json): Result<GroupTemplate, Exception>
  {
    var groupObject :- AsObject(v, "Groups");
    var uniqueId :- StringField(groupObject, "UniqueId");
    var title :- StringField(groupObject, "Title");
    var subtitle :- StringField(groupObject, "Subtitle");
    var imagePath :- StringField(groupObject, "ImagePath");
    var itemValues :- ArrayField(groupObject, "Items");
    Success(GroupTemplate(SampleDataGroup(uniqueId, title, subtitle, imagePath, []), itemValues))
  }

  function BuildGroup(v: Json, settings: Settings): Result<SampleDataGroup, Exception>
  {
    var t :- GroupHeader(v);
    var items :- CollectAll(t.itemValues, ItemBuilder(settings));
    Success(t.group.(items := items))
  }

  function GroupBuilder(settings: Settings): Json -> Result<SampleDataGroup, Exception>
  {
    v => BuildGroup(v, settings)
  }

  /** The inputs of one load: the text of SampleData.json and the local settings. */
  datatype LoadInput = LoadInput(jsonText: string, settings: Settings, lib: JsonLib)

  function GroupValues(input: LoadInput): Result<seq<Json>, Exception>
  {
    var root :- ParseObject(input.lib, input.jsonText);
    ArrayField(root, "Groups")
  }

  function Load(current: seq<SampleDataGroup>, input: LoadInput): Loaded<SampleDataGroup>
  {
    if current != [] then Loaded(current, None)
    else match GroupValues(input)
      case Failure(e) => Loaded([], Some(e))
      case Success(vs) => LoadAll(vs, GroupBuilder(input.settings))
  }

  function GroupId(g: SampleDataGroup): string { g.uniqueId }
  function ItemId(i: SampleDataItem): string { i.uniqueId }
  function GroupItems(g: SampleDataGroup): seq<SampleDataItem> { g.items }

  function FindGroup(groups: seq<SampleDataGroup>, uniqueId: string): Option<SampleDataGroup>
  {
    Single(groups, uniqueId, GroupId)
  }

  function FindItem(groups: seq<SampleDataGroup>, uniqueId: string): Option<SampleDataItem>
  {
    Single(Flatten(groups, GroupItems), uniqueId, ItemId)
  }

  /** One group: its header fields, then its items. */
  method ReadGroup(v: Json, settings: Settings) returns (r: Result<SampleDataGroup, Exception>)
    ensures r == BuildGroup(v, settings)
  {
    var header := GroupHeader(v);
    if header.Failure? {
      return Failure(header.error);
    }
    var items := CollectEach(header.value.itemValues, ItemBuilder(settings));
    if items.Failure? {
      return Failure(items.error);
    }
    r := Success(header.value.group.(items := items.value));
  }

  /** The singleton sample data source. */
  class SampleDataSource {
    var groups: seq<SampleDataGroup>

    constructor ()
      ensures groups == []
    {
      groups := [];
    }

    /** `GetSampleDataAsync`, the load-once build. */
    method GetSampleData(input: LoadInput) returns (error: Option<Exception>)
      modifies this
      ensures Loaded(groups, error) == Load(old(groups), input)
    {
      if |groups| != 0 {
        return None;
      }
      var parsed := GroupValues(input);
      if parsed.Failure? {
        return Some(parsed.error);
      }
      var vs := parsed.value;
      var build := GroupBuilder(input.settings);
      for i := 0 to |vs|
        invariant LoadAll(vs, build) == Prepend(groups, LoadAll(vs[i..], build))
      {
        LoadAllAt(vs, i, build);
        var group := ReadGroup(vs[i], input.settings);
        if group.Failure? {
          return Some(group.error);
        }
        PrependPrepend(groups, [group.value], LoadAll(vs[i + 1..], build));
        groups := groups + [group.value];
      }
      assert vs[|vs|..] == [];
      error := None;
    }

    method GetGroups(input: LoadInput) returns (r: Result<seq<SampleDataGroup>, Exception>)
      modifies this
      ensures Loaded(groups, if r.Failure? then Some(r.error) else None) == Load(old(groups), input)
      ensures r.Success? ==> r.value == groups
    {
      var error := GetSampleData(input);
      if error.Some? {
        return Failure(error.value);
      }
      r := Success(groups);
    }

    method GetGroup(uniqueId: string, input: LoadInput) returns (r: Result<Option<SampleDataGroup>, Exception>)
      modifies this
      ensures Loaded(groups, if r.Failure? then Some(r.error) else None) == Load(old(groups), input)
      ensures r.Success? ==> r.value == FindGroup(groups, uniqueId)
    {
      var error := GetSampleData(input);
      if error.Some? {
        return Failure(error.value);
      }
      r := Success(FindGroup(groups, uniqueId));
    }

    method GetItem(uniqueId: string, input: LoadInput) returns (r: Result<Option<SampleDataItem>, Exception>)
      modifies this
      ensures Loaded(groups, if r.Failure? then Some(r.error) else None) == Load(old(groups), input)
      ensures r.Success? ==> r.value == FindItem(groups, uniqueId)
    {
      var error := GetSampleData(input);
      if error.Some? {
        return Failure(error.value);
      }
      r := Success(FindItem(groups, uniqueId));
    }
  }

  /**
   * What a built item holds: the endpoint joins the stored service
   * resource, which must therefore exist, with the template's relative
   * "EndPoint"; headers and body are the template's, unchanged; and
   * exactly one flag is set.
   */
  lemma BuiltItem(v: Json, settings: Settings)
    requires BuildItem(v, settings).Success?
    ensures "ServiceResourceId" in settings && v.JObject?
    ensures var item := BuildItem(v, settings).value;
            StringField(v.members, "EndPoint").Success? &&
            item.endPoint == EndPoint(settings["ServiceResourceId"], StringField(v.members, "EndPoint").value) &&
            ObjectField(v.members, "Headers") == Success(item.headers) &&
            Field(v.members, "Body") == Success(item.body) &&
            item.get != item.post
  {
    var itemObject := v.members;
    var verb := StringField(itemObject, "Method").value;
    NoMethodIsBoth(verb);
  }

  lemma BuiltGroupInOrder(v: Json, settings: Settings)
    requires BuildGroup(v, settings).Success?
    ensures GroupHeader(v).Success?
    ensures var t := GroupHeader(v).value;
            var g := BuildGroup(v, settings).value;
            g == t.group.(items := g.items) &&
            |g.items| == |t.itemValues| &&
            forall j :: 0 <= j < |g.items| ==> BuildItem(t.itemValues[j], settings) == Success(g.items[j])
  {
    CollectAllInOrder(GroupHeader(v).value.itemValues, ItemBuilder(settings));
  }

  lemma LoadInFileOrderOf(vs: seq<Json>, input: LoadInput)
    requires GroupValues(input) == Success(vs)
    ensures var l := LoadAll(vs, GroupBuilder(input.settings));
            l == Load([], input) &&
            |l.built| <= |vs| &&
            (forall k :: 0 <= k < |l.built| ==> BuildGroup(vs[k], input.settings) == Success(l.built[k])) &&
            (l.error.None? <==> |l.built| == |vs|) &&
            (l.error.Some? ==> BuildGroup(vs[|l.built|], input.settings) == Failure(l.error.value))
  {
    LoadAllInOrder(vs, GroupBuilder(input.settings));
  }

  /** An item is well formed for a service resource when it has exactly one flag and its endpoint is based on that resource. */
  predicate WellFormedItem(item: SampleDataItem, serviceResourceId: string)
  {
    item.get != item.post && item.endPoint.serviceResourceId == serviceResourceId
  }

  /** Every item of a built group is well formed for the stored service resource, which exists when the group has items. */
  lemma BuiltGroupWellFormed(v: Json, settings: Settings)
    requires BuildGroup(v, settings).Success?
    ensures var g := BuildGroup(v, settings).value;
            g.items != [] ==> "ServiceResourceId" in settings
    ensures var g := BuildGroup(v, settings).value;
            forall item :: item in g.items ==> WellFormedItem(item, settings["ServiceResourceId"])
  {
    BuiltGroupInOrder(v, settings);
    var t := GroupHeader(v).value;
    var g := BuildGroup(v, settings).value;
    if g.items != [] {
      BuiltItem(t.itemValues[0], settings);
    }
    forall item | item in g.items
      ensures WellFormedItem(item, settings["ServiceResourceId"])
    {
      var j :| 0 <= j < |g.items| && g.items[j] == item;
      BuiltItem(t.itemValues[j], settings);
    }
  }

  /**
   * Every item of a first load has exactly one of Get and Post and an
   * endpoint based on the stored service resource; without that setting
   * no group that was built has any item.
   */
  lemma LoadedItemsWellFormed(input: LoadInput)
    ensures forall g :: g in Load([], input).built && g.items != [] ==> "ServiceResourceId" in input.settings
    ensures forall g, item :: g in Load([], input).built && item in g.items ==>
              WellFormedItem(item, input.settings["ServiceResourceId"])
  {
    var l := Load([], input);
    if GroupValues(input).Success? {
      var vs := GroupValues(input).value;
      LoadInFileOrderOf(vs, input);
      forall g | g in l.built
        ensures g.items != [] ==> "ServiceResourceId" in input.settings
        ensures forall item :: item in g.items ==> WellFormedItem(item, input.settings["ServiceResourceId"])
      {
        var k :| 0 <= k < |l.built| && l.built[k] == g;
        BuiltGroupWellFormed(vs[k], input.settings);
      }
    }
  }

  lemma FindGroupUnique(groups: seq<SampleDataGroup>, uniqueId: string)
    ensures FindGroup(groups, uniqueId).Some? <==> exists i :: UniqueAt(groups, uniqueId, GroupId, i)
    ensures forall i :: UniqueAt(groups, uniqueId, GroupId, i) ==> FindGroup(groups, uniqueId) == Some(groups[i])
  {
    SingleIffUnique(groups, uniqueId, GroupId);
  }

  lemma FindItemUnique(groups: seq<SampleDataGroup>, uniqueId: string)
    ensures FindItem(groups, uniqueId).Some? <==> exists i :: UniqueAt(Flatten(groups, GroupItems), uniqueId, ItemId, i)
    ensures FindItem(groups, uniqueId).Some? ==>
              FindItem(groups, uniqueId).value.uniqueId == uniqueId &&
              exists g :: g in groups && FindItem(groups, uniqueId).value in g.items
  {
    FlattenSingleUnique(groups, GroupItems, uniqueId, ItemId);
  }
}
