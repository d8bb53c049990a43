/**
 * The shape shared by the three `GetSampleDataAsync` loaders: walk a JSON
 * array in order, building one value per element, and stop at the first
 * element that throws. Groups are appended to the data source as they are
 * completed, so a throw leaves the groups built before it in place; a
 * group's items are collected into the group before the group is added,
 * so for items it is all or nothing.
 */
module Loading {
  import opened Wrappers
  import opened Exceptions
  import opened Json

  /** What a loader leaves behind: the values appended so far and the exception that stopped it, if any. */
  datatype Loaded<G> = Loaded(built: seq<G>, error: Option<Exception>)

  function Prepend<G>(pre: seq<G>, l: Loaded<G>): Loaded<G>
  {
    Loaded(pre + l.built, l.error)
  }

  /** Build each element in turn, appending each result, until one fails. */
  function LoadAll<G>(vs: seq<Json>, build: Json -> Result<G, Exception>): Loaded<G>
  {
    if vs == [] then Loaded([], None)
    else match build(vs[0])
      case Failure(e) => Loaded([], Some(e))
      case Success(g) => Prepend([g], LoadAll(vs[1..], build))
  }

  /** All elements built, or the first exception. */
  function CollectAll<I>(vs: seq<Json>, build: Json -> Result<I, Exception>): Result<seq<I>, Exception>
  {
    var l := LoadAll(vs, build);
    if l.error.Some? then Failure(l.error.value) else Success(l.built)
  }

  /** Unfolding `LoadAll` at position `i`: what a loader that has reached element `i` does next. */
  lemma LoadAllAt<G>(vs: seq<Json>, i: nat, build: Json -> Result<G, Exception>)
    requires i < |vs|
    ensures LoadAll(vs[i..], build) ==
              match build(vs[i])
              case Failure(e) => Loaded([], Some(e))
              case Success(g) => Prepend([g], LoadAll(vs[i + 1..], build))
  {
    assert vs[i..][1..] == vs[i + 1..];
  }

  lemma PrependPrepend<G>(a: seq<G>, b: seq<G>, l: Loaded<G>)
    ensures Prepend(a, Prepend(b, l)) == Prepend(a + b, l)
  {
    assert a + (b + l.built) == (a + b) + l.built;
  }

  /**
   * The loader keeps file order: the k-th value appended is built from the
   * k-th element; it stops only at an element that fails, reporting that
   * element's exception, and otherwise builds every element.
   */
  lemma {:induction false} LoadAllInOrder<G>(vs: seq<Json>, build: Json -> Result<G, Exception>)
    ensures |LoadAll(vs, build).built| <= |vs|
    ensures forall k :: 0 <= k < |LoadAll(vs, build).built| ==> build(vs[k]) == Success(LoadAll(vs, build).built[k])
    ensures LoadAll(vs, build).error.None? ==> |LoadAll(vs, build).built| == |vs|
    ensures LoadAll(vs, build).error.Some? ==>
              |LoadAll(vs, build).built| < |vs| &&
              build(vs[|LoadAll(vs, build).built|]) == Failure(LoadAll(vs, build).error.value)
  {
    if vs != [] && build(vs[0]).Success? {
      LoadAllInOrder(vs[1..], build);
      var l := LoadAll(vs, build);
      var rest := LoadAll(vs[1..], build);
      assert l.built == [build(vs[0]).value] + rest.built;
      assert forall k :: 1 <= k < |l.built| ==> l.built[k] == rest.built[k - 1] && vs[k] == vs[1..][k - 1];
      if l.error.Some? {
        assert vs[|l.built|] == vs[1..][|rest.built|];
      }
    }
  }

  /** A loader stops early exactly when some element fails to build. */
  lemma {:induction false} LoadAllCompletes<G>(vs: seq<Json>, build: Json -> Result<G, Exception>)
    ensures LoadAll(vs, build).error.None? <==> forall k :: 0 <= k < |vs| ==> build(vs[k]).Success?
  {
    LoadAllInOrder(vs, build);
    if vs != [] && build(vs[0]).Success? {
      LoadAllCompletes(vs[1..], build);
      assert forall k :: 1 <= k < |vs| ==> vs[k] == vs[1..][k - 1];
    }
  }

  /** Collecting succeeds with one built value per element, in order, or fails with the first element's exception. */
  lemma CollectAllInOrder<I>(vs: seq<Json>, build: Json -> Result<I, Exception>)
    ensures CollectAll(vs, build).Success? <==> forall k :: 0 <= k < |vs| ==> build(vs[k]).Success?
    ensures CollectAll(vs, build).Success? ==>
              |CollectAll(vs, build).value| == |vs| &&
              forall k :: 0 <= k < |vs| ==> build(vs[k]) == Success(CollectAll(vs, build).value[k])
    ensures CollectAll(vs, build).Failure? ==>
              exists k :: 0 <= k < |vs| && build(vs[k]) == Failure(CollectAll(vs, build).error) &&
                          forall j :: 0 <= j < k ==> build(vs[j]).Success?
  {
    LoadAllInOrder(vs, build);
    LoadAllCompletes(vs, build);
    var l := LoadAll(vs, build);
    if l.error.Some? {
      var k := |l.built|;
      assert build(vs[k]) == Failure(CollectAll(vs, build).error);
    }
  }

  /** The item loop of a loader: build each element in order, the first failure aborting the whole collection. */
  method CollectEach<I>(vs: seq<Json>, build: Json -> Result<I, Exception>) returns (r: Result<seq<I>, Exception>)
    ensures r == CollectAll(vs, build)
  {
    var built: seq<I> := [];
    for j := 0 to |vs|
      invariant LoadAll(vs, build) == Prepend(built, LoadAll(vs[j..], build))
    {
      LoadAllAt(vs, j, build);
      var b := build(vs[j]);
      if b.Failure? {
        assert LoadAll(vs, build) == Loaded(built, Some(b.error));
        return Failure(b.error);
      }
      PrependPrepend(built, [b.value], LoadAll(vs[j + 1..], build));
      built := built + [b.value];
    }
    assert vs[|vs|..] == [];
    assert LoadAll(vs, build) == Loaded(built, None);
    r := Success(built);
  }
}
