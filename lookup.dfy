/**
 * The lookups shared by the three data sources: LINQ's
 * `Where(x => key(x).Equals(id))` followed by "if there is exactly one
 * match, return it, else null", and `SelectMany` over the groups' items.
 */
module Lookup {
  import opened Wrappers

  /** `xs.Where(x => key(x) == id)`, in order. */
  function Matches<T>(xs: seq<T>, id: string, key: T -> string): seq<T>
  {
    if xs == [] then []
    else (if key(xs[0]) == id then [xs[0]] else []) + Matches(xs[1..], id, key)
  }

  /** `matches.Count() == 1 ? matches.First() : null`. */
  function Single<T>(xs: seq<T>, id: string, key: T -> string): Option<T>
  {
    var m := Matches(xs, id, key);
    if |m| == 1 then Some(m[0]) else None
  }

  /** Position `i` of `xs` has the id, and no other position has it. */
  ghost predicate UniqueAt<T>(xs: seq<T>, id: string, key: T -> string, i: int)
  {
    0 <= i < |xs| && key(xs[i]) == id &&
    forall j :: 0 <= j < |xs| && j != i ==> key(xs[j]) != id
  }

  lemma {:induction false} NoMatches<T>(xs: seq<T>, id: string, key: T -> string)
    ensures Matches(xs, id, key) == [] <==> forall j :: 0 <= j < |xs| ==> key(xs[j]) != id
  {
    if xs != [] {
      NoMatches(xs[1..], id, key);
      assert forall j :: 1 <= j < |xs| ==> xs[j] == xs[1..][j - 1];
    }
  }

  lemma {:induction false} OneMatch<T>(xs: seq<T>, id: string, key: T -> string, i: int)
    requires UniqueAt(xs, id, key, i)
    ensures Matches(xs, id, key) == [xs[i]]
  {
    assert forall j :: 1 <= j < |xs| ==> xs[j] == xs[1..][j - 1];
    if i == 0 {
      NoMatches(xs[1..], id, key);
    } else {
      OneMatch(xs[1..], id, key, i - 1);
    }
  }

  lemma {:induction false} SingletonMatch<T>(xs: seq<T>, id: string, key: T -> string)
    requires |Matches(xs, id, key)| == 1
    ensures exists i :: UniqueAt(xs, id, key, i)
  {
    assert forall j :: 1 <= j < |xs| ==> xs[j] == xs[1..][j - 1];
    if key(xs[0]) == id {
      NoMatches(xs[1..], id, key);
      assert UniqueAt(xs, id, key, 0);
    } else {
      SingletonMatch(xs[1..], id, key);
      var i :| UniqueAt(xs[1..], id, key, i);
      assert UniqueAt(xs, id, key, i + 1);
    }
  }

  /**
   * The lookup succeeds exactly when one position holds the id, and then it
   * returns the element at that position; zero or several matches give null.
   */
  lemma SingleIffUnique<T>(xs: seq<T>, id: string, key: T -> string)
    ensures Single(xs, id, key).Some? <==> exists i :: UniqueAt(xs, id, key, i)
    ensures forall i :: UniqueAt(xs, id, key, i) ==> Single(xs, id, key) == Some(xs[i])
  {
    if |Matches(xs, id, key)| == 1 {
      SingletonMatch(xs, id, key);
    }
    forall i | UniqueAt(xs, id, key, i)
      ensures Single(xs, id, key) == Some(xs[i])
    {
      OneMatch(xs, id, key, i);
    }
  }

  /** A successful lookup returns an element of the collection that carries the id. */
  lemma SingleFound<T>(xs: seq<T>, id: string, key: T -> string)
    requires Single(xs, id, key).Some?
    ensures Single(xs, id, key).value in xs && key(Single(xs, id, key).value) == id
  {
    SingleIffUnique(xs, id, key);
  }

  /** `groups.SelectMany(items)`: every group's items, group after group. */
  function Flatten<G, I>(gs: seq<G>, items: G -> seq<I>): seq<I>
  {
    if gs == [] then [] else items(gs[0]) + Flatten(gs[1..], items)
  }

  /** The flattened sequence holds exactly the items of the groups. */
  lemma {:induction false} FlattenHolds<G, I>(gs: seq<G>, items: G -> seq<I>, x: I)
    ensures x in Flatten(gs, items) <==> exists g :: g in gs && x in items(g)
  {
    if gs != [] {
      FlattenHolds(gs[1..], items, x);
      assert forall g :: g in gs <==> g == gs[0] || g in gs[1..];
    }
  }

  /**
   * A lookup over the items of all groups succeeds exactly when one item of
   * the whole collection carries the id; the item found carries it and
   * belongs to one of the groups.
   */
  lemma FlattenSingleUnique<G, I>(gs: seq<G>, items: G -> seq<I>, id: string, key: I -> string)
    ensures Single(Flatten(gs, items), id, key).Some? <==> exists i :: UniqueAt(Flatten(gs, items), id, key, i)
    ensures Single(Flatten(gs, items), id, key).Some? ==>
              key(Single(Flatten(gs, items), id, key).value) == id &&
              exists g :: g in gs && Single(Flatten(gs, items), id, key).value in items(g)
  {
    var all := Flatten(gs, items);
    SingleIffUnique(all, id, key);
    if Single(all, id, key).Some? {
      SingleFound(all, id, key);
      FlattenHolds(gs, items, Single(all, id, key).value);
    }
  }
}
