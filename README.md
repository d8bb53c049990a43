# Office 365 REST API Explorer: a verified model of its core

This project models, in Dafny, the parts of the Office 365 REST API Explorer
and of its older sibling, Office365RESTSamples, that make decisions rather
than I/O. It covers three parts.

1. **The REST-request catalogue**: the `DataSource` of both `RESTDataSource.cs`
   revisions and the `SampleDataSource`. Each holds a singleton list of groups.
   A group holds items, and an item carries a request template read from a
   JSON file. The models cover:
   - the load-once build, with groups and items appended in file order and
     the access token appended to every template's Authorization header;
   - lookups that answer only on a unique `UniqueId`;
   - the GET/POST validation of request methods;
   - the rules `GetResponseAsync` applies around its HTTP call: header
     routing by lower-cased name, a body only for an exact `"POST"`, and the
     response-header copy.
2. **The value converters**: `MethodConverter` in both `ObjectConverters.cs`
   files, the case-sensitive `MethodConverter` of the Samples
   `RESTDataSource.cs`, and the Explorer `BodyConverter`.
3. **The token logic**:
   - `Office365Helper`: the cache search, the sign-in decision between a
     fresh token, a refresh and discovery, the settings it writes, the
     logout guard and the lazily created discovery context;
   - `AuthenticationHelper.EnsureAccessTokenAvailableAsync`: its choice of
     authority and its rebinding of the static `AuthenticationContext`.

These choices hold throughout the model:
- JSON values are a datatype. Objects are member sequences in enumeration
  order.
- Parsing, `Stringify` and indented serialisation are functions passed in as
  a `JsonLib`.
- .NET exceptions are values of `Exceptions.Exception`, carried in a
  `Result`.
- The local settings are a `map<string, string>`.
- Time is an integer.
- The identity provider (ADAL and the discovery service) is a scripted
  oracle. Each call is logged and answered by the next reply of a script,
  and every property is proved for all scripts.

Where the code changes state step by step, the model is imperative too:
- the classes `DataSource`, `SampleDataSource`, `Office365Helper` and
  `AuthenticationHelper` hold the state;
- their methods use the source's loops and assignments;
- each method is proved equal to a specification function, and the lemmas
  are about that function.

The model follows the code as written:
- a token counts as expired when `ExpiresOn <= now`, with no skew margin;
- no token-changed notification is raised, and nothing is cleared on
  failure;
- `SignIn` matches cache items against the *stored* "ServiceResourceId"
  setting, not against its argument;
- acquisition goes to the authority of the *first* cached item, whatever
  resource that item is for.

## Model

| member | source | states |
|---|---|---|
| `Text.ToLower` | Office365RESTAPIExplorer/DataModel/RESTDataSource.cs:236 | lower-casing keeps the length and folds each character on its own |
| `Text.EqualsIgnoreCaseIff` | Office365RESTAPIExplorer/DataModel/RESTDataSource.cs:59-60 | two strings compare equal ignoring case exactly when they have the same length and agree letter by letter after folding |
| `Json.GetPut` | Office365RESTAPIExplorer/DataModel/RESTDataSource.cs:345-346 | after `jsonHeaders["Authorization"] = v`, reading that key gives `v` and every other key reads as before |
| `Json.PutInPlace` | Office365RESTAPIExplorer/DataModel/RESTDataSource.cs:345-346 | overwriting an existing header keeps the object's size and key order, and adding a new one appends it at the end |
| `Json.Field` | Office365RESTAPIExplorer/DataModel/RESTDataSource.cs:329-380 | the JSON indexer gives the first member under the key, or throws KeyNotFound for a missing key |
| `Json.ParseObject` | Office365RESTAPIExplorer/DataModel/RESTDataSource.cs:324 | `JsonObject.Parse` succeeds exactly when the text parses to a JSON object, and otherwise throws |
| `LocalSettings.Value` | Office365RESTSamples/DataModel/RESTDataSource.cs:320 | `Values[key].ToString()` gives the stored string when the key exists, and otherwise a null dereference naming the key |
| `Lookup.SingleIffUnique` | Office365RESTAPIExplorer/DataModel/RESTDataSource.cs:207-209 | the `Count() == 1` search answers exactly when one element, and no other, has the id, and then answers that element |
| `Lookup.FlattenHolds` | Office365RESTAPIExplorer/DataModel/RESTDataSource.cs:216 | `SelectMany` over the groups holds exactly the items of some group |
| `Lookup.FlattenSingleUnique` | Office365RESTAPIExplorer/DataModel/RESTDataSource.cs:216-218 | the search over the items of all groups answers exactly when one item of the whole collection has the id; that item has the id and belongs to one of the groups |
| `Loading.LoadAllInOrder` | Office365RESTAPIExplorer/DataModel/RESTDataSource.cs:326-386 | the k-th group appended is built from the k-th array element; a load that throws stops at the element that threw, with what came before it kept |
| `Loading.LoadAllCompletes` | Office365RESTAPIExplorer/DataModel/RESTDataSource.cs:326-386 | the build stops early exactly when some element fails to build |
| `Loading.CollectAllInOrder` | Office365RESTAPIExplorer/DataModel/RESTDataSource.cs:339-382 | a group's items are all built, one per template and in order, or the group throws the first item's exception |
| `Loading.CollectEach` | Office365RESTAPIExplorer/DataModel/RESTDataSource.cs:339-382 | the item loop computes exactly the all-or-first-failure collection |
| `Http.RouteHeaders` | Office365RESTAPIExplorer/DataModel/RESTDataSource.cs:232-248 | the header loop computes exactly the routing fold over the template's headers, stopping at the first header whose value is not a string |
| `Http.RouteAllSucceeds` | Office365RESTAPIExplorer/DataModel/RESTDataSource.cs:232-248 | routing throws exactly when some header value is not a JSON string |
| `Http.RouteAllFolded` | Office365RESTAPIExplorer/DataModel/RESTDataSource.cs:236-243 | `Accept` and `ContentType` hold the value of the last header whose lower-cased name is "accept", resp. "content-type", and are unset when there is none |
| `Http.RouteAllOthers` | Office365RESTAPIExplorer/DataModel/RESTDataSource.cs:244-246 | `Headers` holds exactly the other headers, each under its original name with its last value |
| `Http.AcceptedMethodSpelling` | Office365RESTSamples/DataModel/RESTDataSource.cs:51-54 | the accepted methods are exactly the spellings of "get" and "post" in any mix of cases |
| `Http.CopyResponseHeaders` | Office365RESTAPIExplorer/DataModel/RESTDataSource.cs:300-305 | the response header object has one entry per response header, in order, each a string under the header's name |
| `Http.CopiedHeaderLookup` | Office365RESTSamples/DataModel/RESTDataSource.cs:281-286 | reading a copied header by name gives that header's value |
| `Http.HeaderValueAt` | Office365RESTSamples/DataModel/RESTDataSource.cs:285 | `responseHeaders[key]` for a listed key gives that header's value |
| `MethodConverter.ConvertIsPostIgnoringCase` | Office365RESTAPIExplorer/DataModel/ObjectConverters.cs:76 | the POST box is on exactly for the four-letter spellings of "post" in any case |
| `MethodConverter.RoundTrip` | Office365RESTSamples/DataModel/ObjectConverters.cs:40-50 | `Convert(ConvertBack(b)) == b` for both booleans, and both methods given back pass request validation |
| `MethodConverter.Normalises` | Office365RESTAPIExplorer/DataModel/ObjectConverters.cs:73-83 | `ConvertBack(Convert(s))` is "POST" exactly for the spellings of "post" and "GET" otherwise, and normalising twice changes nothing |
| `MethodConverter.AcceptedMethodShown` | Office365RESTSamples/DataModel/ObjectConverters.cs:43 | for a method the templates accept, the box is on exactly when the method is not a GET |
| `BodyConverter.Convert` | Office365RESTAPIExplorer/DataModel/ObjectConverters.cs:42-58 | null shows as "{}", JSON object text shows indented, and any other text shows unchanged |
| `BodyConverter.RoundTrip` | Office365RESTAPIExplorer/DataModel/ObjectConverters.cs:60-64 | a body that is not JSON object text survives display and edit unchanged, and a null body comes back as "{}" |
| `ExplorerData.NewRequestItem` | Office365RESTAPIExplorer/DataModel/RESTDataSource.cs:54-67 | a request item exists exactly for GET or POST ignoring case, stores the method as given, and otherwise throws ArgumentOutOfRange |
| `ExplorerData.RequestBody` | Office365RESTAPIExplorer/DataModel/RESTDataSource.cs:348-363 | an object body is stringified, a string body is kept raw, any other kind throws NotSupported, and a missing one throws KeyNotFound |
| `ExplorerData.BuiltItemRequest` | Office365RESTAPIExplorer/DataModel/RESTDataSource.cs:339-374 | a built item's Authorization header is the template's value followed by the load's token, with the other headers as in the template; its body is the template's object or string; its method is the template's, accepted |
| `ExplorerData.BuiltGroupInOrder` | Office365RESTAPIExplorer/DataModel/RESTDataSource.cs:326-384 | a built group has the template's fields and one item per template item, in file order |
| `ExplorerData.LoadInFileOrderOf` | Office365RESTAPIExplorer/DataModel/RESTDataSource.cs:322-386 | once the token is acquired, a first load appends one group per "Groups" element in file order and stops only at an element that throws |
| `ExplorerData.ReloadKeepsGroups` | Office365RESTAPIExplorer/DataModel/RESTDataSource.cs:318-323 | once groups exist, a load never changes them, yet it still acquires a token first and fails, with that exception, exactly when the acquisition throws |
| `ExplorerData.LoadedItemsAuthorized` | Office365RESTAPIExplorer/DataModel/RESTDataSource.cs:318-346 | every item of every group a first load builds has an Authorization header ending with the access token that load acquired |
| `ExplorerData.FindGroupUnique` | Office365RESTAPIExplorer/DataModel/RESTDataSource.cs:203-210 | `GetGroupAsync` finds a group exactly when one group, and no other, has the id, and it finds that group |
| `ExplorerData.FindItemUnique` | Office365RESTAPIExplorer/DataModel/RESTDataSource.cs:212-219 | `GetItemAsync` finds an item exactly when one item across all groups has the id; the item has that id and belongs to one of the groups |
| `ExplorerData.PostDataExact` | Office365RESTAPIExplorer/DataModel/RESTDataSource.cs:251-260 | for every method string, measured against the constructor's case-insensitive check: a request is created and its body written exactly for the upper-case "POST"; it is created and sent without a body exactly for the GET spellings and the other spellings of "post" |
| `ExplorerData.LowerCasePostSendsNoBody` | Office365RESTAPIExplorer/DataModel/RESTDataSource.cs:251 | "post" passes validation, yet such a request is sent without its body |
| `ExplorerData.GetResponse` | Office365RESTAPIExplorer/DataModel/RESTDataSource.cs:221-308 | it sends the routed headers and the POST body; the response keeps the URI and status; the body is null exactly for empty text; the headers are copied in order; a throw while routing, or a missing `we.Response`, is passed on |
| `ExplorerData.ReadGroup` | Office365RESTAPIExplorer/DataModel/RESTDataSource.cs:328-384 | one pass of the group loop builds exactly the group its specification gives, or throws its exception |
| `ExplorerData.DataSource.constructor` | Office365RESTAPIExplorer/DataModel/RESTDataSource.cs:184 | the data source starts with no groups |
| `ExplorerData.DataSource.Clear` | Office365RESTAPIExplorer/DataModel/RESTDataSource.cs:198-201 | `Clear` empties the groups, so the next load rebuilds them |
| `ExplorerData.DataSource.GetSampleData` | Office365RESTAPIExplorer/DataModel/RESTDataSource.cs:311-388 | it acquires a token first and fails, with the groups unchanged, when that throws; then with groups present it changes nothing; otherwise the groups become what the file loads, and what a throw leaves behind is kept |
| `ExplorerData.DataSource.GetGroups` | Office365RESTAPIExplorer/DataModel/RESTDataSource.cs:191-196 | it loads, then returns all groups |
| `ExplorerData.DataSource.GetGroup` | Office365RESTAPIExplorer/DataModel/RESTDataSource.cs:203-210 | it loads, then returns the uniquely matching group |
| `ExplorerData.DataSource.GetItem` | Office365RESTAPIExplorer/DataModel/RESTDataSource.cs:212-219 | it loads, then returns the uniquely matching item across all groups |
| `SamplesData.NewRequestItem` | Office365RESTSamples/DataModel/RESTDataSource.cs:46-58 | the older constructor also accepts exactly GET or POST ignoring case and stores the method as given |
| `SamplesData.ResponseBody` | Office365RESTSamples/DataModel/RESTDataSource.cs:276-279 | an empty response gives a null body; other text is parsed as a JSON object, and text that is not one throws |
| `SamplesData.GetResponse` | Office365RESTSamples/DataModel/RESTDataSource.cs:206-289 | with no stored "ServiceResourceId" it throws at once; otherwise it sends the routed headers and, for exactly "POST", the stringified body; it parses the response body and copies the headers in order; a header value that is not a string, a missing `we.Response` or a response body that is not a JSON object throws that exception |
| `SamplesData.BuiltItemRequest` | Office365RESTSamples/DataModel/RESTDataSource.cs:313-336 | a built item's Authorization is the template's value followed by the stored "AccessToken", which must exist; its body is the template's object and its method the template's, accepted |
| `SamplesData.BuiltGroupInOrder` | Office365RESTSamples/DataModel/RESTDataSource.cs:303-344 | a built group has the template's fields and one item per template item, in file order |
| `SamplesData.LoadInFileOrderOf` | Office365RESTSamples/DataModel/RESTDataSource.cs:291-345 | a first load appends one group per "Groups" element in file order and stops only at an element that throws |
| `SamplesData.LoadedItemsAuthorized` | Office365RESTSamples/DataModel/RESTDataSource.cs:319-320 | every item of every group a first load builds has an Authorization header ending with the stored access token, which therefore exists |
| `SamplesData.NoTokenNoItems` | Office365RESTSamples/DataModel/RESTDataSource.cs:320 | a built group has items only when an "AccessToken" setting exists, because reading a missing one throws |
| `SamplesData.FindGroupUnique` | Office365RESTSamples/DataModel/RESTDataSource.cs:188-195 | a group is returned exactly on a unique id match |
| `SamplesData.FindItemUnique` | Office365RESTSamples/DataModel/RESTDataSource.cs:197-204 | an item is returned exactly on a unique id match across all groups |
| `SamplesData.MethodConvertCaseSensitive` | Office365RESTSamples/DataModel/RESTDataSource.cs:364-377 | this converter round-trips with `ConvertBack`, normalises to "POST" only the exact "POST", and leaves "post" off where the ObjectConverters one turns it on |
| `SamplesData.ReadGroup` | Office365RESTSamples/DataModel/RESTDataSource.cs:305-343 | one pass of the group loop builds exactly the specified group |
| `SamplesData.DataSource.constructor` | Office365RESTSamples/DataModel/RESTDataSource.cs:175 | the data source starts with no groups |
| `SamplesData.DataSource.GetSampleData` | Office365RESTSamples/DataModel/RESTDataSource.cs:291-345 | it returns at once when groups exist, otherwise the groups become what the file loads |
| `SamplesData.DataSource.GetGroups` | Office365RESTSamples/DataModel/RESTDataSource.cs:181-186 | it loads, then returns all groups |
| `SamplesData.DataSource.GetGroup` | Office365RESTSamples/DataModel/RESTDataSource.cs:188-195 | it loads, then returns the uniquely matching group |
| `SamplesData.DataSource.GetItem` | Office365RESTSamples/DataModel/RESTDataSource.cs:197-204 | it loads, then returns the uniquely matching item |
| `SampleData.ConstructItem` | Office365RESTSamples/DataModel/SampleDataSource.cs:30-50 | the constructor, flag by flag: an item exists exactly for GET or POST ignoring case; Get is set exactly for GET and Post exactly for POST, so exactly one of them; every other argument is stored; any other method throws ArgumentOutOfRange |
| `SampleData.NoMethodIsBoth` | Office365RESTSamples/DataModel/SampleDataSource.cs:41-44 | no method is both GET and POST ignoring case, so the order of the two tests is immaterial |
| `SampleData.ExactlyOneFlag` | Office365RESTSamples/DataModel/SampleDataSource.cs:39-46 | every constructed item has exactly one of Get and Post, the one its method names |
| `SampleData.BuiltItem` | Office365RESTSamples/DataModel/SampleDataSource.cs:157-172 | a built item's endpoint joins the stored "ServiceResourceId", which must exist, with the template's relative "EndPoint"; its headers and body are the template's; exactly one flag is set |
| `SampleData.BuiltGroupInOrder` | Office365RESTSamples/DataModel/SampleDataSource.cs:147-175 | a built group has the template's fields and one item per template item, in file order |
| `SampleData.BuiltGroupWellFormed` | Office365RESTSamples/DataModel/SampleDataSource.cs:155-173 | every item of a built group has one flag and an endpoint based on the stored service resource |
| `SampleData.LoadInFileOrderOf` | Office365RESTSamples/DataModel/SampleDataSource.cs:135-176 | a first load appends one group per "Groups" element in file order and stops only at an element that throws |
| `SampleData.LoadedItemsWellFormed` | Office365RESTSamples/DataModel/SampleDataSource.cs:147-175 | every loaded item has exactly one flag and an endpoint based on the stored service resource; with none stored, no built group has items |
| `SampleData.FindGroupUnique` | Office365RESTSamples/DataModel/SampleDataSource.cs:117-124 | a group is returned exactly on a unique id match |
| `SampleData.FindItemUnique` | Office365RESTSamples/DataModel/SampleDataSource.cs:126-133 | an item is returned exactly on a unique id match across all groups |
| `SampleData.ReadGroup` | Office365RESTSamples/DataModel/SampleDataSource.cs:149-174 | one pass of the group loop builds exactly the specified group |
| `SampleData.SampleDataSource.constructor` | Office365RESTSamples/DataModel/SampleDataSource.cs:104 | the data source starts with no groups |
| `SampleData.SampleDataSource.GetSampleData` | Office365RESTSamples/DataModel/SampleDataSource.cs:135-176 | it returns at once when groups exist, otherwise the groups become what the file loads |
| `SampleData.SampleDataSource.GetGroups` | Office365RESTSamples/DataModel/SampleDataSource.cs:110-115 | it loads, then returns all groups |
| `SampleData.SampleDataSource.GetGroup` | Office365RESTSamples/DataModel/SampleDataSource.cs:117-124 | it loads, then returns the uniquely matching group |
| `SampleData.SampleDataSource.GetItem` | Office365RESTSamples/DataModel/SampleDataSource.cs:126-133 | it loads, then returns the uniquely matching item |
| `Identity.Answer` | Office365RESTSamples/Office365Helper.cs:50-51 | a provider call is logged after the earlier ones and answered by the next reply of the script; a reply that returns installs its token cache, and one that throws leaves the cache as it was |
| `Office365.FindTokenFirst` | Office365RESTSamples/Office365Helper.cs:82-89 | the cache search returns the first item, in cache order, whose resource is the stored "ServiceResourceId"; it throws KeyNotFound when there is none, an empty cache included, and a null dereference when items exist but no resource is stored |
| `Office365.FoundIsCached` | Office365RESTSamples/Office365Helper.cs:84-88 | a token the search returns is in the cache and is for the stored resource |
| `Office365.EnsureContextFollows` | Office365RESTSamples/Office365Helper.cs:24-27 | the discovery context is created only when there is none, by one call, and an existing one is reused with no call |
| `Office365.GetTokenReady` | Office365RESTSamples/Office365Helper.cs:75-90 | with the context in place, reading the cache makes no provider call and changes nothing |
| `Office365.FreshTokenNoCall` | Office365RESTSamples/Office365Helper.cs:31-40 | a found token with `ExpiresOn` after now means no provider call; only the account and resource settings are written |
| `Office365.ExpiredTokenRefreshes` | Office365RESTSamples/Office365Helper.cs:33-37 | a token that expires now or earlier leads first to a refresh exchange with that item's own refresh token, client id and resource; a failed exchange fails the sign-in with the settings untouched |
| `Office365.CacheMissDiscovers` | Office365RESTSamples/Office365Helper.cs:42-53 | with no token cached for the stored resource, the calls are exactly discovery of the given resource, then, if discovery returned, silent acquisition for the discovered user |
| `Office365.DiscoveryFollows` | Office365RESTSamples/Office365Helper.cs:48-53 | the discovery path keeps the settings, creates no context, and its token is what the cache search then finds |
| `Office365.CachedPathFollows` | Office365RESTSamples/Office365Helper.cs:29-46 | the try block keeps the settings, creates no context, and its token is what the cache search then finds |
| `Office365.SignInEffects` | Office365RESTSamples/Office365Helper.cs:17-57 | a sign-in creates the context at most once, as its first call; on success "ServiceResourceId" keeps its value and "UserAccount" is the account of a cached token for it, with every other setting kept; on failure no setting changes; with no resource stored it always fails |
| `Office365.LogoutEffects` | Office365RESTSamples/Office365Helper.cs:59-73 | with no stored account, logout does nothing; otherwise it logs out exactly that account, as its last call, and "UserAccount" and all other settings stay |
| `Office365.Office365Helper.constructor` | Office365RESTSamples/Office365Helper.cs:16 | the helper starts with no discovery context |
| `Office365.Office365Helper.Call` | Office365RESTSamples/Office365Helper.cs:36 | one provider call, logged and answered by the oracle |
| `Office365.Office365Helper.EnsureDiscoveryContext` | Office365RESTSamples/Office365Helper.cs:77-80 | the lazy creation leaves the state its specification gives |
| `Office365.Office365Helper.GetTokenFromCache` | Office365RESTSamples/Office365Helper.cs:75-90 | the `foreach` search returns exactly what the first-match specification gives |
| `Office365.Office365Helper.SignIn` | Office365RESTSamples/Office365Helper.cs:17-57 | the sign-in leaves exactly the state and result of its specification, whose properties are the lemmas above |
| `Office365.Office365Helper.Logout` | Office365RESTSamples/Office365Helper.cs:59-73 | the logout leaves exactly the state and result of its specification |
| `Authentication.AcquisitionResult` | Office365RESTAPIExplorer/Helpers/AuthenticationHelper.cs:53-55 | the provider's result is returned as it is: its token and user on success, a failure when it throws |
| `Authentication.AuthenticationHelper.constructor` | Office365RESTAPIExplorer/Helpers/AuthenticationHelper.cs:22-32 | the client id, return URI and authorization URI are the configured ones, and no context is bound yet |
| `Authentication.AuthenticationHelper.EnsureAccessTokenAvailable` | Office365RESTAPIExplorer/Helpers/AuthenticationHelper.cs:38-56 | with an empty cache, acquisition uses the authorization URI followed by "/Common"; otherwise it uses the first cached item's authority; it passes the resource, client id, return URI and prompt behaviour unchanged, returns the provider's result as it is, and leaves the context bound to the authority used |

## Left out

- URI handling: `new Uri(...)`, relative resolution and `UriFormatException` are library behaviour.
  - API URLs and `MoreInfoUri` are kept as the strings read.
  - A sample item's endpoint is kept as the pair (service resource, relative endpoint).
- ExplorerData.GetResponse: the request URI is not stated, because URI resolution is left out. The same holds for `SamplesData.GetResponse` beyond naming the stored service resource.
- HTTP and stream I/O: creating the `HttpWebRequest`, writing the request stream, UTF-8 encoding, reading and disposing the response stream, and the `WebException` machinery. The outcome of a call is an input (`Http.HttpOutcome`).
- `WebHeaderCollection` semantics: names compared case-insensitively, and restricted headers that throw. `Headers` is a map keyed by the exact original name, and response headers are assumed to have distinct names.
- JSON parsing, `Stringify`, indented serialisation (`JsonConvert.SerializeObject`), and both `JsonObjectConverter` classes. These are foreign libraries, passed in as the functions of a `JsonLib`. Enumeration order of a `JsonObject` is modelled as member order.
- Culture rules: `CurrentCultureIgnoreCase`, the culture-sensitive case-sensitive `String.Compare`, and `ToLower()` are modelled as ASCII letter folding and exact equality.
- Reading InitialData.json and SampleData.json: the file text is an input to each load, so a failure to read the file is not modelled.
- The Explorer load's token comes from a parameterless `EnsureAccessTokenAvailableAsync` overload that is not part of this model. Its outcome, a token or an exception, is an input to each load.
  - Like the source, every Explorer load acquires the token before it checks `Groups.Count`, and a throw there aborts the call even when groups exist (`ReloadKeepsGroups`).
  - The Explorer also reads the file before that check. Because file reading is left out, that order does not show.
- The Samples loaders check `_groups.Count` before they read the file. The model takes the text as given, so that order does not show either.
- `lock (this.Groups)`, `async`/`await` and the static singletons. The loads run sequentially, and each singleton is one object.
- UI plumbing: `INotifyPropertyChanged`, the `Response` property of `DataItem`, and `ToString`.
- `GetGroupsAsync` returns the live collection; the model returns the groups at that moment.
- The unused `ServiceEndpointUri` in `SignIn`.
- ADAL and discovery internals, and OAuth itself. Every provider call is answered by a scripted oracle whose replies can rewrite the token cache. Every provider exception is one value, `ProviderFailure`, and an exhausted script throws.
- Exception messages are not modelled, only the exception kinds.
- `DateTimeOffset` is an integer clock shared by `ExpiresOn` and now.
