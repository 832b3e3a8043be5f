/**
 * The request payload: a Python `dict` with string keys. Python dictionaries
 * remember insertion order, and that order is what a loop over `data.items()`
 * sees, so a dictionary is modelled as the sequence of its keys in insertion
 * order together with the map from key to value.
 */
module Dicts {
  import opened Wrappers

  /**
   * A payload value: Python's `None`, a string, or any other object
   * (a number, a byte string, a nested structure) that this layer only
   * passes along; `Other` tells such objects apart by an identity.
   */
  datatype Value = Null | Str(s: string) | Other(id: nat)

  /** The payload value of an `Optional[str]`. */
  function FromOptional(s: Option<string>): (v: Value)
    ensures v == Null <==> s.None?
    ensures s.Some? ==> v == Str(s.value)
  {
    match s
    case None => Null
    case Some(x) => Str(x)
  }

  /** An insertion-ordered dictionary with string keys. */
  datatype OrderedMap<V> = OrderedMap(order: seq<string>, entries: map<string, V>) {

    /** The keys in `order` are distinct and are exactly the keys of `entries`. */
    ghost predicate Valid() {
      && (forall i, j :: 0 <= i < j < |order| ==> order[i] != order[j])
      && (forall i :: 0 <= i < |order| ==> order[i] in entries)
      && (forall k :: k in entries ==> k in order)
    }

    /** `d.get(k)` */
    function Get(k: string): (r: Option<V>) {
      if k in entries then Some(entries[k]) else None
    }

    /**
     * `d[k] = v`: the key now holds `v`, every other key keeps its value, a key
     * that was present keeps its position and a new key goes last.
     */
    function Set(k: string, v: V): (r: OrderedMap<V>)
      ensures r.Get(k) == Some(v)
      ensures forall k' :: k' != k ==> r.Get(k') == Get(k')
      ensures k in entries ==> r.order == order
      ensures k !in entries ==> r.order == order + [k]
      ensures Valid() ==> r.Valid()
    {
      OrderedMap(if k in entries then order else order + [k], entries[k := v])
    }
  }

  /** `{}` */
  function Empty<V>(): (r: OrderedMap<V>)
    ensures r.Valid() && r.order == [] && r.entries == map[]
  {
    OrderedMap([], map[])
  }

  /** The caller's `data` dictionary, which the request builder changes in place. */
  class Dict {
    var items: OrderedMap<Value>

    ghost predicate Valid()
      reads this
    {
      items.Valid()
    }

    constructor (items: OrderedMap<Value>)
      requires items.Valid()
      ensures Valid() && this.items == items
    {
      this.items := items;
    }

    /** `data[k] = v` on the caller's object. */
    method SetItem(k: string, v: Value)
      requires Valid()
      modifies this
      ensures Valid()
      ensures items == old(items).Set(k, v)
    {
      items := items.Set(k, v);
    }
  }
}
