/**
 * JSON values as the Windows.Data.Json types expose them. An object is an
 * ordered list of members; its order stands for the order in which the
 * object enumerates its members. Parsing and printing belong to foreign
 * libraries, so they are function-valued parameters (`JsonLib`).
 */
module Json {
  import opened Wrappers
  import opened Exceptions

  datatype Json =
    | JNull
    | JBool(b: bool)
    | JNumber(literal: string)
    | JString(s: string)
    | JArray(elements: seq<Json>)
    | JObject(members: seq<Member>)

  datatype Member = Member(key: string, value: Json)

  type Object = seq<Member>

  /**
   * The foreign JSON routines the code calls: `JsonObject.Parse`/`TryParse`
   * (`parse`; `None` when the text is not JSON at all), `JsonObject.Stringify`
   * (`stringify`) and Newtonsoft's `SerializeObject(..., Formatting.Indented)`
   * (`indent`).
   */
  datatype JsonLib = JsonLib(parse: string -> Option<Json>, stringify: Object -> string, indent: Object -> string)

  /** The indexer `o[key]` when it does not throw: the value stored under `key`. */
  function Get(o: Object, key: string): Option<Json>
  {
    if o == [] then None
    else if o[0].key == key then Some(o[0].value)
    else Get(o[1..], key)
  }

  /** The indexer assignment `o[key] = v`: overwrite the member in place, or add it at the end. */
  function Put(o: Object, key: string, v: Json): Object
  {
    if o == [] then [Member(key, v)]
    else if o[0].key == key then [Member(key, v)] + o[1..]
    else [o[0]] + Put(o[1..], key, v)
  }

  /** `Get` finds exactly the members that are present, with their values. */
  lemma {:induction false} GetSome(o: Object, key: string)
    ensures Get(o, key).Some? <==> exists i :: 0 <= i < |o| && o[i].key == key
    ensures Get(o, key).Some? ==> exists i :: 0 <= i < |o| && o[i] == Member(key, Get(o, key).value)
  {
    if o != [] && o[0].key != key {
      GetSome(o[1..], key);
      if exists i :: 0 <= i < |o| && o[i].key == key {
        var i :| 0 <= i < |o| && o[i].key == key;
        assert o[1..][i - 1].key == key;
      }
      if Get(o, key).Some? {
        var i :| 0 <= i < |o[1..]| && o[1..][i] == Member(key, Get(o, key).value);
        assert o[i + 1] == Member(key, Get(o, key).value);
      }
    }
  }

  /** After `o[key] = v`, reading `key` gives `v` and every other key reads as before. */
  lemma {:induction false} GetPut(o: Object, key: string, v: Json, k: string)
    ensures Get(Put(o, key, v), k) == if k == key then Some(v) else Get(o, k)
  {
    if o != [] && o[0].key != key {
      GetPut(o[1..], key, v, k);
      assert Put(o, key, v)[1..] == Put(o[1..], key, v);
    }
  }

  /** `o[key] = v` keeps every existing member's key where it was and adds at most one member, at the end. */
  lemma {:induction false} PutInPlace(o: Object, key: string, v: Json)
    ensures |Put(o, key, v)| == if Get(o, key).Some? then |o| else |o| + 1
    ensures forall i :: 0 <= i < |o| ==> Put(o, key, v)[i].key == o[i].key
  {
    if o != [] && o[0].key != key {
      PutInPlace(o[1..], key, v);
      assert forall i :: 1 <= i < |o| ==> Put(o, key, v)[i] == Put(o[1..], key, v)[i - 1];
    }
  }

  /** `o[key]`: the value, or KeyNotFound. */
  function Field(o: Object, key: string): (r: Result<Json, Exception>)
    ensures r.Success? <==> Get(o, key).Some?
    ensures r.Success? ==> Get(o, key) == Some(r.value)
    ensures r.Failure? ==> r.error == KeyNotFound(key)
  {
    match Get(o, key)
    case None => Failure(KeyNotFound(key))
    case Some(v) => Success(v)
  }

  /** `v.GetString()`. */
  function AsString(v: Json, what: string): (r: Result<string, Exception>)
    ensures r.Success? <==> v.JString?
    ensures r.Success? ==> v == JString(r.value)
    ensures r.Failure? ==> r.error == WrongValueType(what)
  {
    if v.JString? then Success(v.s) else Failure(WrongValueType(what))
  }

  /** `v.GetObject()`. */
  function AsObject(v: Json, what: string): (r: Result<Object, Exception>)
    ensures r.Success? <==> v.JObject?
    ensures r.Success? ==> v == JObject(r.value)
    ensures r.Failure? ==> r.error == WrongValueType(what)
  {
    if v.JObject? then Success(v.members) else Failure(WrongValueType(what))
  }

  /** `v.GetArray()`. */
  function AsArray(v: Json, what: string): (r: Result<seq<Json>, Exception>)
    ensures r.Success? <==> v.JArray?
    ensures r.Success? ==> v == JArray(r.value)
    ensures r.Failure? ==> r.error == WrongValueType(what)
  {
    if v.JArray? then Success(v.elements) else Failure(WrongValueType(what))
  }

  /** `o[key].GetString()`. */
  function StringField(o: Object, key: string): Result<string, Exception>
  {
    var v :- Field(o, key);
    AsString(v, key)
  }

  /** `o[key].GetObject()`. */
  function ObjectField(o: Object, key: string): Result<Object, Exception>
  {
    var v :- Field(o, key);
    AsObject(v, key)
  }

  /** `o[key].GetArray()`. */
  function ArrayField(o: Object, key: string): Result<seq<Json>, Exception>
  {
    var v :- Field(o, key);
    AsArray(v, key)
  }

  /** `JsonObject.Parse(text)`: the text must hold a JSON object. */
  function ParseObject(lib: JsonLib, text: string): (r: Result<Object, Exception>)
    ensures r.Success? <==> lib.parse(text).Some? && lib.parse(text).value.JObject?
    ensures r.Success? ==> lib.parse(text) == Some(JObject(r.value))
    ensures r.Failure? ==> r.error == ParseFailure
  {
    match lib.parse(text)
    case Some(JObject(ms)) => Success(ms)
    case _ => Failure(ParseFailure)
  }
}
