/**
 * The component store of lib/components.js: a list of components searched by
 * partial property match (lodash's `_.find(list, source)` shorthand).
 */
module ComponentStore {
  import opened Wrappers
  import FirstMatch

  /** A component seen as its own enumerable properties (`component`, `path`, `factory`, ...). */
  type Record<V> = map<string, V>

  /**
   * `_.isMatch(obj, source)` on flat records: every property of the query is a
   * property of the object, with an equal value.
   */
  predicate IsMatch<V(==)>(obj: Record<V>, query: Record<V>)
    ensures IsMatch(obj, query) ==> query.Keys <= obj.Keys
    ensures IsMatch(obj, map[])
  {
    forall k :: k in query ==> k in obj && obj[k] == query[k]
  }

  /** The search `find(config)` performs, oldest component first. */
  function Search<V(==)>(components: seq<Record<V>>, query: Record<V>): (r: Option<Record<V>>)
    ensures r.Some? ==> IsMatch(r.value, query)
    ensures r.Some? ==> exists i :: 0 <= i < |components| && components[i] == r.value &&
                                    forall j :: 0 <= j < i ==> !IsMatch(components[j], query)
    ensures r.None? <==> forall i :: 0 <= i < |components| ==> !IsMatch(components[i], query)
  {
    FirstMatch.Find(components, (o: Record<V>) => IsMatch(o, query))
  }

  /** The query with no properties matches every component, so it finds the oldest one. */
  lemma EmptyQueryFindsFirst<V>(components: seq<Record<V>>)
    requires |components| > 0
    ensures Search(components, map[]) == Some(components[0])
  {
    var p := (o: Record<V>) => IsMatch(o, map[]);
    assert p(components[0]);
  }

  /** A component that carries extra properties is still found by a query naming only some of them. */
  lemma ExtraPropertiesStillMatch<V>(obj: Record<V>, query: Record<V>, extra: Record<V>)
    requires IsMatch(obj, query)
    requires extra.Keys !! query.Keys
    ensures IsMatch(obj + extra, query)
  {
  }

  /** Adding a component keeps every earlier answer and can only answer queries that found nothing. */
  lemma SearchAfterAdd<V>(components: seq<Record<V>>, c: Record<V>, query: Record<V>)
    ensures Search(components + [c], query) ==
      if Search(components, query).Some? then Search(components, query)
      else if IsMatch(c, query) then Some(c)
      else None
  {
    var p := (o: Record<V>) => IsMatch(o, query);
    FirstMatch.FirstIndexAppend(components, c, p);
    var t := components + [c];
    assert forall j :: 0 <= j < |components| ==> t[j] == components[j];
  }

  /** The mutable store: `_components` and the methods that change it. */
  class Store<V(==)> {
    var components: seq<Record<V>>

    /** The module starts with an empty `_components` list. */
    constructor ()
      ensures components == []
    {
      components := [];
    }

    /** `find(config)`. */
    function Find(query: Record<V>): (r: Option<Record<V>>)
      reads this
      ensures r.Some? ==> exists i :: 0 <= i < |components| && components[i] == r.value && IsMatch(r.value, query) &&
                                      forall j :: 0 <= j < i ==> !IsMatch(components[j], query)
      ensures r.None? <==> forall i :: 0 <= i < |components| ==> !IsMatch(components[i], query)
    {
      Search(components, query)
    }

    /** `add(component)`: push at the end. */
    method Add(c: Record<V>)
      modifies this
      ensures components == old(components) + [c]
    {
      components := components + [c];
    }

    /** `clear()`: replace `_components` by an empty list. */
    method Clear()
      modifies this
      ensures components == []
      ensures forall query :: Find(query) == None
    {
      components := [];
    }
  }
}
