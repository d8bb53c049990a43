/**
 * The parts of `GetResponseAsync` that are not I/O, shared by both
 * RESTDataSource revisions: routing a request template's headers onto the
 * outgoing request, and copying the response headers into a JSON object.
 */
module Http {
  import opened Wrappers
  import opened Exceptions
  import opened Text
  import opened Json

  /** The header-bearing fields of the outgoing `HttpWebRequest`: `Accept`, `ContentType` and `Headers`. */
  datatype OutgoingHeaders = OutgoingHeaders(accept: Option<string>, contentType: Option<string>, headers: map<string, string>)

  const NoHeaders := OutgoingHeaders(None, None, map[])

  /** A header name that the switch sends to the `Headers` collection. */
  predicate IsOther(key: string) {
    ToLower(key) != "accept" && ToLower(key) != "content-type"
  }

  /** One pass of the header loop: switch on the lower-cased key, then assign `header.Value.GetString()`. */
  function RouteHeader(h: OutgoingHeaders, m: Member): Result<OutgoingHeaders, Exception>
  {
    var s :- AsString(m.value, m.key);
    if ToLower(m.key) == "accept" then Success(h.(accept := Some(s)))
    else if ToLower(m.key) == "content-type" then Success(h.(contentType := Some(s)))
    else Success(h.(headers := h.headers[m.key := s]))
  }

  /** The whole header loop over the template's headers, in enumeration order. */
  function RouteAll(ms: seq<Member>): Result<OutgoingHeaders, Exception>
  {
    if ms == [] then Success(NoHeaders)
    else
      var h :- RouteAll(ms[..|ms| - 1]);
      RouteHeader(h, ms[|ms| - 1])
  }

  /** The header loop of `GetResponseAsync`. */
  method RouteHeaders(ms: seq<Member>) returns (r: Result<OutgoingHeaders, Exception>)
    ensures r == RouteAll(ms)
  {
    var h := NoHeaders;
    for i := 0 to |ms|
      invariant RouteAll(ms[..i]) == Success(h)
    {
      assert ms[..i + 1][..i] == ms[..i];
      var routed := RouteHeader(h, ms[i]);
      if routed.Failure? {
        RouteAllFailureSticks(ms, i + 1);
        return routed;
      }
      h := routed.value;
    }
    assert ms[..|ms|] == ms;
    r := Success(h);
  }

  /**
   * `s` is the string value of the last header whose lower-cased name is
   * `name`, or None if there is no such header: what a field that every
   * such header overwrites ends up holding.
   */
  ghost predicate LastFolded(ms: seq<Member>, name: string, s: Option<string>)
  {
    if s.None? then forall i :: 0 <= i < |ms| ==> ToLower(ms[i].key) != name
    else exists i :: 0 <= i < |ms| && ToLower(ms[i].key) == name && ms[i].value == JString(s.value) &&
                     forall j :: i < j < |ms| ==> ToLower(ms[j].key) != name
  }

  /** `s` is the string value of the last header whose name is exactly `key`. */
  ghost predicate LastExact(ms: seq<Member>, key: string, s: string)
  {
    exists i :: 0 <= i < |ms| && ms[i].key == key && ms[i].value == JString(s) &&
                forall j :: i < j < |ms| ==> ms[j].key != key
  }

  /** The header loop throws exactly when some header value is not a JSON string. */
  lemma {:induction false} RouteAllSucceeds(ms: seq<Member>)
    ensures RouteAll(ms).Success? <==> forall i :: 0 <= i < |ms| ==> ms[i].value.JString?
  {
    if ms != [] {
      var pre := ms[..|ms| - 1];
      RouteAllSucceeds(pre);
      assert forall i :: 0 <= i < |pre| ==> pre[i] == ms[i];
    }
  }

  /** Once the header loop has thrown, the rest of the headers do not matter. */
  lemma {:induction false} RouteAllFailureSticks(ms: seq<Member>, i: nat)
    requires i <= |ms|
    requires RouteAll(ms[..i]).Failure?
    ensures RouteAll(ms) == RouteAll(ms[..i])
  {
    if i < |ms| {
      var pre := ms[..|ms| - 1];
      assert pre[..i] == ms[..i];
      RouteAllFailureSticks(pre, i);
    } else {
      assert ms[..i] == ms;
    }
  }

  lemma RouteAllLast(ms: seq<Member>)
    requires ms != []
    requires RouteAll(ms).Success?
    ensures RouteAll(ms[..|ms| - 1]).Success?
    ensures RouteAll(ms) == RouteHeader(RouteAll(ms[..|ms| - 1]).value, ms[|ms| - 1])
    ensures ms[|ms| - 1].value.JString?
  {
  }

  /**
   * Routing by lower-cased name: `Accept` holds the last header named
   * "accept" in any case and `ContentType` the last one named
   * "content-type".
   */
  lemma {:induction false} RouteAllFolded(ms: seq<Member>)
    requires RouteAll(ms).Success?
    ensures LastFolded(ms, "accept", RouteAll(ms).value.accept)
    ensures LastFolded(ms, "content-type", RouteAll(ms).value.contentType)
  {
    if ms != [] {
      var n := |ms| - 1;
      RouteAllLast(ms);
      var pre, m := ms[..n], ms[n];
      assert ms == pre + [m];
      RouteAllFolded(pre);
      var hp := RouteAll(pre).value;
      var h := RouteAll(ms).value;
      LastFoldedStep(pre, m, "accept", hp.accept, h.accept);
      LastFoldedStep(pre, m, "content-type", hp.contentType, h.contentType);
    }
  }

  /** What `Headers` holds after the loop has seen the headers `ms`. */
  ghost predicate OthersRouted(ms: seq<Member>, hs: map<string, string>)
  {
    (forall k :: k in hs <==> IsOther(k) && exists i :: 0 <= i < |ms| && ms[i].key == k) &&
    (forall k :: k in hs ==> LastExact(ms, k, hs[k]))
  }

  /**
   * Every other header lands in `Headers` under its original name, holding
   * the value of the last header with exactly that name; `Headers` holds
   * nothing else.
   */
  lemma {:induction false} RouteAllOthers(ms: seq<Member>)
    requires RouteAll(ms).Success?
    ensures OthersRouted(ms, RouteAll(ms).value.headers)
  {
    if ms != [] {
      var n := |ms| - 1;
      RouteAllLast(ms);
      var pre, m := ms[..n], ms[n];
      assert ms == pre + [m];
      RouteAllOthers(pre);
      OthersStep(pre, m, RouteAll(pre).value.headers, RouteAll(ms).value.headers);
    }
  }

  lemma OthersStep(pre: seq<Member>, m: Member, before: map<string, string>, after: map<string, string>)
    requires OthersRouted(pre, before)
    requires m.value.JString?
    requires after == if IsOther(m.key) then before[m.key := m.value.s] else before
    ensures OthersRouted(pre + [m], after)
  {
    OthersStepKeys(pre, m, before, after);
    OthersStepValues(pre, m, before, after);
  }

  /** After one more header, `Headers` holds exactly the other names seen so far. */
  lemma OthersStepKeys(pre: seq<Member>, m: Member, before: map<string, string>, after: map<string, string>)
    requires OthersRouted(pre, before)
    requires m.value.JString?
    requires after == if IsOther(m.key) then before[m.key := m.value.s] else before
    ensures forall k :: k in after <==> IsOther(k) && exists i :: 0 <= i < |pre + [m]| && (pre + [m])[i].key == k
  {
    var ms := pre + [m];
    var n := |pre|;
    assert forall i :: 0 <= i < n ==> ms[i] == pre[i];
    assert ms[n] == m;
    forall k | IsOther(k) && exists i :: 0 <= i < |ms| && ms[i].key == k
      ensures k in after
    {
      var i :| 0 <= i < |ms| && ms[i].key == k;
      if i < n {
        assert pre[i].key == k;
      }
    }
  }

  /** After one more header, each entry of `Headers` holds the last value sent under its name. */
  lemma OthersStepValues(pre: seq<Member>, m: Member, before: map<string, string>, after: map<string, string>)
    requires OthersRouted(pre, before)
    requires m.value.JString?
    requires after == if IsOther(m.key) then before[m.key := m.value.s] else before
    ensures forall k :: k in after ==> LastExact(pre + [m], k, after[k])
  {
    var ms := pre + [m];
    var n := |pre|;
    assert forall i :: 0 <= i < n ==> ms[i] == pre[i];
    assert ms[n] == m;
    forall k | k in after
      ensures LastExact(ms, k, after[k])
    {
      if k == m.key && IsOther(m.key) {
        assert ms[n].key == k && ms[n].value == JString(after[k]);
      } else {
        assert k in before && after[k] == before[k];
        var i :| 0 <= i < n && pre[i].key == k && pre[i].value == JString(before[k]) &&
                 forall j :: i < j < n ==> pre[j].key != k;
        assert ms[i] == pre[i];
      }
    }
  }

  lemma LastFoldedStep(pre: seq<Member>, m: Member, name: string, before: Option<string>, after: Option<string>)
    requires LastFolded(pre, name, before)
    requires m.value.JString?
    requires after == if ToLower(m.key) == name then Some(m.value.s) else before
    ensures LastFolded(pre + [m], name, after)
  {
    var ms := pre + [m];
    assert forall i :: 0 <= i < |pre| ==> ms[i] == pre[i];
    if ToLower(m.key) == name {
      assert ms[|pre|] == m;
    } else if before.Some? {
      var i :| 0 <= i < |pre| && ToLower(pre[i].key) == name && pre[i].value == JString(before.value) &&
               forall j :: i < j < |pre| ==> ToLower(pre[j].key) != name;
      assert ms[i] == pre[i];
    }
  }

  /**
   * The method check of the request templates: GET or POST, ignoring case
   * (`String.Compare(method, ..., CurrentCultureIgnoreCase) == 0`).
   */
  predicate AcceptedMethod(verb: string) {
    EqualsIgnoreCase(verb, "GET") || EqualsIgnoreCase(verb, "POST")
  }

  /** The accepted methods are exactly the spellings of "get" and "post" in any mix of cases. */
  lemma AcceptedMethodSpelling(verb: string)
    ensures AcceptedMethod(verb) <==>
              (|verb| == 3 && verb[0] in "gG" && verb[1] in "eE" && verb[2] in "tT") ||
              (|verb| == 4 && verb[0] in "pP" && verb[1] in "oO" && verb[2] in "sS" && verb[3] in "tT")
  {
    EqualsIgnoreCaseIff(verb, "GET");
    EqualsIgnoreCaseIff(verb, "POST");
  }

  /** One field of a `WebHeaderCollection`. */
  datatype HeaderField = HeaderField(name: string, value: string)

  /** A `WebHeaderCollection` never holds the same name twice. */
  ghost predicate DistinctNames(hs: seq<HeaderField>)
  {
    forall i, j :: 0 <= i < j < |hs| ==> hs[i].name != hs[j].name
  }

  /** `responseHeaders[key]`: the value stored under the name, null (None) when absent. */
  function HeaderValue(hs: seq<HeaderField>, key: string): Option<string>
  {
    if hs == [] then None
    else if hs[0].name == key then Some(hs[0].value)
    else HeaderValue(hs[1..], key)
  }

  lemma {:induction false} HeaderValueAt(hs: seq<HeaderField>, i: int)
    requires DistinctNames(hs)
    requires 0 <= i < |hs|
    ensures HeaderValue(hs, hs[i].name) == Some(hs[i].value)
  {
    if i > 0 {
      assert hs[1..][i - 1] == hs[i];
      HeaderValueAt(hs[1..], i - 1);
    }
  }

  /**
   * The response-header loop: for each name of `AllKeys`, in order, add the
   * name with `responseHeaders[name]` as a JSON string. The result has one
   * member per response header, in order, each with that header's value.
   */
  method CopyResponseHeaders(hs: seq<HeaderField>) returns (headers: Object)
    requires DistinctNames(hs)
    ensures |headers| == |hs|
    ensures forall i :: 0 <= i < |hs| ==> headers[i] == Member(hs[i].name, JString(hs[i].value))
  {
    headers := [];
    for i := 0 to |hs|
      invariant |headers| == i
      invariant forall k :: 0 <= k < i ==> headers[k] == Member(hs[k].name, JString(hs[k].value))
    {
      var key := hs[i].name;
      HeaderValueAt(hs, i);
      var value := HeaderValue(hs, key).value;
      headers := headers + [Member(key, JString(value))];
    }
  }

  /** Reading a copied response header by name gives that header's value. */
  lemma {:induction false} CopiedHeaderLookup(hs: seq<HeaderField>, headers: Object, i: int)
    requires DistinctNames(hs)
    requires |headers| == |hs|
    requires forall k :: 0 <= k < |hs| ==> headers[k] == Member(hs[k].name, JString(hs[k].value))
    requires 0 <= i < |hs|
    ensures Get(headers, hs[i].name) == Some(JString(hs[i].value))
  {
    if i > 0 {
      assert headers[0].key != hs[i].name;
      assert forall k :: 0 <= k < |hs| - 1 ==> headers[1..][k] == headers[k + 1] && hs[1..][k] == hs[k + 1];
      CopiedHeaderLookup(hs[1..], headers[1..], i - 1);
    }
  }

  /** The page a server sent back: its address, its headers and its text. */
  datatype Page = Page(uri: string, headers: seq<HeaderField>, text: string)

  /**
   * How the call ended: a response (`GetResponseAsync` returned), or a
   * `WebException` with its message and, when the server answered, its response.
   */
  datatype HttpOutcome =
    | Completed(statusCode: nat, description: string, page: Page)
    | Rejected(message: string, response: Option<Page>)

  ghost predicate WellFormed(o: HttpOutcome)
  {
    match o
    case Completed(_, _, page) => DistinctNames(page.headers)
    case Rejected(_, response) => response.Some? ==> DistinctNames(response.value.headers)
  }

  /** The status string: "<code> - <description>" for a response, the exception's message otherwise. */
  function Status(o: HttpOutcome): string
  {
    match o
    case Completed(code, description, _) => NatToString(code) + " - " + description
    case Rejected(message, _) => message
  }

  /** The page whose stream is read; `we.Response` is null when the server never answered. */
  function PageOf(o: HttpOutcome): Result<Page, Exception>
  {
    match o
    case Completed(_, _, page) => Success(page)
    case Rejected(_, response) => if response.Some? then Success(response.value) else Failure(NullReference("we.Response"))
  }
}
