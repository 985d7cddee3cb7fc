/**
 * The keyed container of resources (LicenseJet/Collection/BaseCollection.php).
 * A resource in a collection is its attribute array, a `Dict`; the keys are
 * the integer offsets of the PHP array.
 */
module BaseCollections {
  import opened Values

  /** An item `contains` can compare: a resource whose `id` is an integer or null. */
  predicate IdComparable(item: Value)
  {
    item.Dict? && (Lookup(item.entries, "id").Null? || Lookup(item.entries, "id").Int?)
  }

  /**
   * `$model->getId() == $resourceId`: under PHP's loose comparison a null id
   * equals 0 and no other integer.
   */
  predicate HasId(item: Value, id: int)
    requires IdComparable(item)
  {
    var v := Lookup(item.entries, "id");
    if v.Null? then id == 0 else v.i == id
  }

  /** The offsets of the items with a given id. */
  function Matching(items: map<int, Value>, id: int): set<int>
    requires forall k :: k in items ==> IdComparable(items[k])
  {
    set k | k in items && HasId(items[k], id)
  }

  /** Helper for `Contains`: counting the matches is asking whether one exists. */
  lemma MatchingCount(items: map<int, Value>, id: int)
    requires forall k :: k in items ==> IdComparable(items[k])
    ensures |Matching(items, id)| != 0 <==> exists k :: k in items && HasId(items[k], id)
  {
    if exists k :: k in items && HasId(items[k], id) {
      var k :| k in items && HasId(items[k], id);
      assert k in Matching(items, id);
    } else {
      assert Matching(items, id) == {};
    }
  }

  class BaseCollection {
    var items: map<int, Value>

    /** `new BaseCollection($items)`: a null or empty array gives an empty collection. */
    constructor(items: Option<map<int, Value>> := None)
      ensures this.items == (if items.Some? then items.value else map[])
      ensures items.None? || items == Some(map[]) ==> Count() == 0
    {
      this.items := if items.Some? then items.value else map[];
    }

    /** `setItems`: the contents are replaced entirely. */
    method SetItems(items: map<int, Value>)
      modifies this
      ensures this.items == items
      ensures Count() == |items|
    {
      this.items := items;
    }

    /** `count`: the number of offsets in use. */
    function Count(): (n: nat)
      reads this
      ensures n == |items.Keys|
      ensures n == 0 <==> items == map[]
    {
      |items|
    }

    /** `all`: the items under their own offsets. */
    function All(): (r: map<int, Value>)
      reads this
      ensures r.Keys == items.Keys && forall k :: k in r ==> r[k] == items[k]
    {
      items
    }

    /** `map($callback)`: one result per item, under the item's key. */
    function Map(f: Value -> Value): (r: map<int, Value>)
      reads this
      ensures r.Keys == items.Keys
      ensures forall k :: k in items ==> r[k] == f(items[k])
    {
      map k | k in items :: f(items[k])
    }

    /** `toArray`: each resource's attribute array, under the same key. */
    function ToArray(): (r: map<int, Attrs>)
      reads this
      requires forall k :: k in items ==> items[k].Dict?
      ensures r.Keys == items.Keys
      ensures forall k :: k in r ==> items[k] == Dict(r[k])
    {
      map k | k in items :: items[k].entries
    }

    /** `contains($resourceId)`: the number of items with that id is not zero. */
    function Contains(id: int): (b: bool)
      reads this
      requires forall k :: k in items ==> IdComparable(items[k])
      ensures b <==> exists k :: k in items && HasId(items[k], id)
      ensures items == map[] ==> !b
    {
      MatchingCount(items, id);
      |Matching(items, id)| != 0
    }

    /** `offsetExists`: `isset`, so an offset holding null does not exist. */
    function OffsetExists(offset: int): (b: bool)
      reads this
      ensures b <==> offset in items && items[offset] != Null
    {
      offset in items && items[offset] != Null
    }

    /** `offsetGet`: a missing offset reads as null. */
    function OffsetGet(offset: int): (v: Value)
      reads this
      ensures offset in items ==> v == items[offset]
      ensures offset !in items ==> v == Null
      ensures v != Null <==> OffsetExists(offset)
    {
      if offset in items then items[offset] else Null
    }

    /** `offsetSet`: only that offset changes. */
    method OffsetSet(offset: int, value: Value)
      modifies this
      ensures items == old(items)[offset := value]
      ensures OffsetGet(offset) == value
      ensures forall k :: k != offset ==> OffsetGet(k) == old(OffsetGet(k))
      ensures (forall k :: k in items ==> IdComparable(items[k])) ==>
        forall id :: HasId(value, id) ==> Contains(id)
    {
      items := items[offset := value];
    }

    /** `offsetUnset`: only that offset goes; the other keys are not renumbered. */
    method OffsetUnset(offset: int)
      modifies this
      ensures items == old(items) - {offset}
      ensures Count() == if offset in old(items) then old(Count()) - 1 else old(Count())
      ensures forall k :: k != offset ==> OffsetGet(k) == old(OffsetGet(k))
    {
      items := items - {offset};
    }
  }
}
