/**
 * The attribute store every LicenseJet resource is built on
 * (LicenseJet/Resource/Resource.php): a nested attribute array read and
 * written through dotted paths, plus the snapshot taken at construction
 * that change detection compares against.
 */
module Resources {
  import opened Values
  import opened Strings

  // ---------------------------------------------------------------- dotGet

  /**
   * The segment walk of `dotGet` can be carried out: every segment that is
   * present leads to another array before the next segment is looked up.
   * (`array_key_exists` on a non-array raises a TypeError on PHP 8.)
   */
  predicate Walkable(v: Value, segments: seq<string>)
    decreases |segments|
  {
    segments == [] ||
    (v.Dict? && (segments[0] in v.entries ==> Walkable(v.entries[segments[0]], segments[1..])))
  }

  /** The `foreach (explode('.', $key) ...)` walk of `dotGet`. */
  function Walk(v: Value, segments: seq<string>, default: Value): Value
    requires Walkable(v, segments)
    decreases |segments|
  {
    if segments == [] then v
    else if segments[0] in v.entries then Walk(v.entries[segments[0]], segments[1..], default)
    else default
  }

  /** `dotGet($array, $key, $default)` does not raise. */
  predicate CanDotGet(a: Attrs, key: string)
  {
    key in a || '.' !in key || Walkable(Dict(a), Split(key, '.'))
  }

  /**
   * `dotGet`: a literal key wins, even when it holds a dot or null; a dotless
   * key that is absent gives the default; otherwise the dotted path is walked.
   */
  function DotGet(a: Attrs, key: string, default: Value): (r: Value)
    requires CanDotGet(a, key)
    ensures key in a ==> r == a[key]
    ensures key !in a && '.' !in key ==> r == default
  {
    if key in a then a[key]
    else if '.' !in key then default
    else Walk(Dict(a), Split(key, '.'), default)
  }

  /** The dotted key `outer.inner`, for two dot-free segments. */
  function Path2(outer: string, inner: string): string
  {
    outer + "." + inner
  }

  lemma SplitPath2(outer: string, inner: string)
    requires '.' !in outer && '.' !in inner
    ensures Split(Path2(outer, inner), '.') == [outer, inner]
  {
    SplitJoin([outer, inner], '.');
    assert Join([outer, inner], '.') == Path2(outer, inner);
  }

  /**
   * Reading `outer.inner` when no literal key shadows it: the nested value
   * when both segments are present, otherwise the default.
   */
  lemma {:induction false} DotGetNested(a: Attrs, outer: string, inner: string, default: Value)
    requires '.' !in outer && '.' !in inner && Path2(outer, inner) !in a
    requires outer in a ==> a[outer].Dict?
    ensures CanDotGet(a, Path2(outer, inner))
    ensures DotGet(a, Path2(outer, inner), default) ==
      if outer in a && inner in a[outer].entries then a[outer].entries[inner] else default
  {
    SplitPath2(outer, inner);
    var segments := [outer, inner];
    assert segments[1..] == [inner] && segments[1..][1..] == [];
    assert '.' in Path2(outer, inner) by {
      assert Path2(outer, inner)[|outer|] == '.';
    }
    if outer in a {
      var inside := a[outer];
      assert Walkable(inside, [inner]) by {
        assert inner in inside.entries ==> Walkable(inside.entries[inner], []);
      }
      assert Walkable(Dict(a), segments);
      if inner in inside.entries {
        assert Walk(inside, [inner], default) == Walk(inside.entries[inner], [], default);
      }
      assert Walk(Dict(a), segments, default) == Walk(inside, [inner], default);
    } else {
      assert Walkable(Dict(a), segments);
    }
  }

  /** `dotGet` on `outer.inner` can be carried out exactly when a literal key shadows it or `outer`, if present, is an array. */
  lemma CanDotGetNested(a: Attrs, outer: string, inner: string)
    requires '.' !in outer && '.' !in inner
    ensures CanDotGet(a, Path2(outer, inner)) <==>
      (Path2(outer, inner) in a || (outer in a ==> a[outer].Dict?))
  {
    SplitPath2(outer, inner);
    var segments := [outer, inner];
    assert segments[1..] == [inner] && segments[1..][1..] == [];
    assert '.' in Path2(outer, inner) by {
      assert Path2(outer, inner)[|outer|] == '.';
    }
    if outer in a && a[outer].Dict? {
      var inside := a[outer];
      assert Walkable(inside, [inner]) by {
        assert inner in inside.entries ==> Walkable(inside.entries[inner], []);
      }
    }
    if Path2(outer, inner) !in a && CanDotGet(a, Path2(outer, inner)) && outer in a {
      assert Walkable(Dict(a), segments);
      assert Walkable(a[outer], segments[1..]);
    }
  }

  /**
   * `getAttribute('outer.inner')` does not raise: a literal key shadows the
   * path, or `outer`, if present, holds an array.
   */
  predicate NestedReadable(a: Attrs, outer: string, inner: string)
  {
    Path2(outer, inner) in a || (outer in a ==> a[outer].Dict?)
  }

  /** `getAttribute($name)` for a name without a dot: the attribute, null when absent. */
  function Attribute(a: Attrs, name: string): (r: Value)
    requires '.' !in name
    ensures r == Lookup(a, name)
  {
    DotGet(a, name, Null)
  }

  /**
   * `getAttribute('outer.inner')`: unless a literal key shadows the path, the
   * nested value when both segments are present, null otherwise.
   */
  function Nested(a: Attrs, outer: string, inner: string): (r: Value)
    requires '.' !in outer && '.' !in inner
    requires NestedReadable(a, outer, inner)
    ensures Path2(outer, inner) in a ==> r == a[Path2(outer, inner)]
    ensures Path2(outer, inner) !in a ==> r == NestedValue(a, outer, inner)
  {
    CanDotGetNested(a, outer, inner);
    if Path2(outer, inner) in a then DotGet(a, Path2(outer, inner), Null)
    else
      DotGetNested(a, outer, inner, Null);
      DotGet(a, Path2(outer, inner), Null)
  }

  /** The value under `a[outer][inner]`, null when either level is missing. */
  function NestedValue(a: Attrs, outer: string, inner: string): Value
  {
    if outer in a && a[outer].Dict? && inner in a[outer].entries then a[outer].entries[inner] else Null
  }

  /** `(int)` projection of a nullable integer attribute. */
  function IntOrNull(v: Value): (r: Option<int>)
    requires v.Null? || v.Int?
    ensures r.None? <==> v == Null
    ensures r.Some? ==> v == Int(r.value)
  {
    if v.Null? then None else Some(v.i)
  }

  /** The stored form of a nullable integer. */
  function FromIntOrNull(n: Option<int>): Value
  {
    match n
    case None => Null
    case Some(i) => Int(i)
  }

  // ---------------------------------------------------------------- dotSet

  /**
   * `dotSet` stays within what the model represents: no segment before the
   * last lands on a list (PHP would add a string key to that list).
   */
  predicate Settable(a: Attrs, segments: seq<string>)
    decreases |segments|
  {
    |segments| <= 1 ||
    (var k := segments[0];
     (k in a ==> !a[k].List?) &&
     Settable(if k in a && a[k].Dict? then a[k].entries else map[], segments[1..]))
  }

  predicate CanDotSet(a: Attrs, key: string)
  {
    Settable(a, Split(key, '.'))
  }

  /** The array an intermediate segment descends into: kept if it is one, else a fresh `[]`. */
  function Child(a: Attrs, k: string): Attrs
  {
    if k in a && a[k].Dict? then a[k].entries else map[]
  }

  /** The reference walk of `dotSet`, rebuilt level by level. */
  function SetPath(a: Attrs, segments: seq<string>, value: Value): (r: Attrs)
    requires |segments| >= 1 && Settable(a, segments)
    decreases |segments|
  {
    var k := segments[0];
    if |segments| == 1 then a[k := value]
    else a[k := Dict(SetPath(Child(a, k), segments[1..], value))]
  }

  /**
   * `dotSet($array, $key, $value)`: always splits on '.', turning every
   * missing, null or non-array intermediate into an array; only the first
   * segment's top-level entry changes.
   */
  function DotSet(a: Attrs, key: string, value: Value): (r: Attrs)
    requires CanDotSet(a, key)
    ensures r.Keys == a.Keys + {Split(key, '.')[0]}
    ensures forall k :: k in a && k != Split(key, '.')[0] ==> r[k] == a[k]
  {
    SetPath(a, Split(key, '.'), value)
  }

  /** `dotSet` with a dotless name is a plain assignment of that attribute. */
  lemma DotSetFlat(a: Attrs, name: string, value: Value)
    requires '.' !in name
    ensures CanDotSet(a, name)
    ensures DotSet(a, name, value) == a[name := value]
  {
  }

  /** `dotSet` on `outer.inner` puts the value into the (possibly new) array under `outer`. */
  lemma DotSetNested(a: Attrs, outer: string, inner: string, value: Value)
    requires '.' !in outer && '.' !in inner
    requires outer in a ==> !a[outer].List?
    ensures CanDotSet(a, Path2(outer, inner))
    ensures DotSet(a, Path2(outer, inner), value) == a[outer := Dict(Child(a, outer)[inner := value])]
  {
    SplitPath2(outer, inner);
    var segments := [outer, inner];
    assert segments[1..] == [inner];
    assert Settable(Child(a, outer), [inner]);
    assert Settable(a, segments);
    assert SetPath(Child(a, outer), [inner], value) == Child(a, outer)[inner := value];
    assert SetPath(a, segments, value) == a[outer := Dict(SetPath(Child(a, outer), [inner], value))];
  }

  /** After `SetPath` the path is walkable and leads to the value written. */
  lemma {:induction false} WalkSetPath(a: Attrs, segments: seq<string>, value: Value, default: Value)
    requires |segments| >= 1 && Settable(a, segments)
    ensures Walkable(Dict(SetPath(a, segments, value)), segments)
    ensures Walk(Dict(SetPath(a, segments, value)), segments, default) == value
    decreases |segments|
  {
    if |segments| > 1 {
      WalkSetPath(Child(a, segments[0]), segments[1..], value, default);
    }
  }

  /**
   * Round trip: reading back a dotted key just written gives the value, as
   * long as no literal key equal to the whole dotted key shadows the path
   * (`dotGet` checks literal keys first, `dotSet` always splits).
   */
  lemma {:induction false} DotSetThenGet(a: Attrs, key: string, value: Value, default: Value)
    requires CanDotSet(a, key)
    requires '.' in key ==> key !in a
    ensures CanDotGet(DotSet(a, key, value), key)
    ensures DotGet(DotSet(a, key, value), key, default) == value
  {
    var segments := Split(key, '.');
    if '.' in key {
      assert key != segments[0] by {
        assert '.' !in segments[0];
      }
      WalkSetPath(a, segments, value, default);
    }
  }

  /** A key read from a map written at a different top-level key is unaffected. */
  lemma DotSetOtherKey(a: Attrs, key: string, value: Value, other: string, default: Value)
    requires CanDotSet(a, key) && '.' !in other && other != Split(key, '.')[0]
    ensures DotGet(DotSet(a, key, value), other, default) == DotGet(a, other, default)
  {
  }

  // ---------------------------------------------------------------- changes

  /**
   * The attributes `changes()` reports: every current key whose original is
   * not set (absent or null, as `isset` sees it) or differs.
   */
  function Diff(current: Attrs, original: Attrs): Attrs
  {
    map k | k in current && Changed(current, original, k) :: current[k]
  }

  /** `!isset($original[$k]) || $original[$k] != $current[$k]`, for a key of `current`. */
  predicate Changed(current: Attrs, original: Attrs, k: string)
    requires k in current
  {
    k !in original || original[k] == Null || original[k] != current[k]
  }

  /** The attributes holding null. */
  function NullValued(a: Attrs): Attrs
  {
    map k | k in a && a[k] == Null :: a[k]
  }

  /** Right after construction the only "changes" are the null-valued attributes. */
  lemma DiffAfterConstruction(a: Attrs)
    ensures Diff(a, a) == NullValued(a)
  {
  }

  /** Keys present only in the original are never reported. */
  lemma DiffIgnoresRemovedKeys(current: Attrs, original: Attrs, k: string)
    requires k in original && k !in current
    ensures k !in Diff(current, original)
  {
  }

  // ---------------------------------------------------------------- Resource

  /** A resource object: its current attributes and the snapshot taken when it was built. */
  class Resource {
    var attributes: Attrs
    var originalAttributes: Attrs

    constructor(attributes: Attrs)
      ensures this.attributes == attributes && originalAttributes == attributes
      ensures ToArray() == attributes
    {
      this.attributes := attributes;
      this.originalAttributes := attributes;
    }

    /** `createFromArray`: a new resource over the given attributes. */
    static method CreateFromArray(attributes: Attrs) returns (r: Resource)
      ensures fresh(r)
      ensures r.attributes == attributes && r.originalAttributes == attributes
    {
      r := new Resource(attributes);
    }

    /** `getId`: the `id` attribute, null when absent. */
    function GetId(): (id: Value)
      reads this
      ensures "id" in attributes ==> id == attributes["id"]
      ensures "id" !in attributes ==> id == Null
    {
      Lookup(attributes, "id")
    }

    /** `toArray`: the current attributes, changes included. */
    function ToArray(): (r: Attrs)
      reads this
      ensures r == attributes
    {
      attributes
    }

    /**
     * `getAttribute($name, $default)`: a present literal key wins; a dotless
     * absent name gives the default; a dotted name walks the nested arrays.
     */
    function GetAttribute(name: string, default: Value): (v: Value)
      reads this
      requires CanDotGet(attributes, name)
      ensures name in attributes ==> v == attributes[name]
      ensures name !in attributes && '.' !in name ==> v == default
      ensures name !in attributes && '.' in name ==> v == Walk(Dict(attributes), Split(name, '.'), default)
    {
      DotGet(attributes, name, default)
    }

    /** `setAttribute`: a `dotSet` on the current attributes; the snapshot is kept. */
    method SetAttribute(name: string, value: Value)
      requires CanDotSet(attributes, name)
      modifies this
      ensures attributes == DotSet(old(attributes), name, value)
      ensures originalAttributes == old(originalAttributes)
    {
      attributes := DotSet(attributes, name, value);
    }

    /** `setAttribute('outer.inner', $value)`: the value goes into the (possibly new) array under `outer`. */
    method SetNestedAttribute(outer: string, inner: string, value: Value)
      requires '.' !in outer && '.' !in inner
      requires outer in attributes ==> !attributes[outer].List?
      modifies this
      ensures attributes == old(attributes)[outer := Dict(Child(old(attributes), outer)[inner := value])]
      ensures originalAttributes == old(originalAttributes)
    {
      DotSetNested(attributes, outer, inner, value);
      SetAttribute(Path2(outer, inner), value);
    }

    /** `fill`: the given keys are overwritten, the others kept, the snapshot untouched. */
    method Fill(values: Attrs) returns (self: Resource)
      modifies this
      ensures self == this
      ensures attributes.Keys == old(attributes).Keys + values.Keys
      ensures forall k :: k in values ==> attributes[k] == values[k]
      ensures forall k :: k in old(attributes) && k !in values ==> attributes[k] == old(attributes)[k]
      ensures originalAttributes == old(originalAttributes)
    {
      attributes := attributes + values;
      self := this;
    }

    /** `changes()`: the current attributes whose original is not set or differs. */
    method Changes() returns (changes: Attrs)
      ensures forall k :: k in changes <==> k in attributes && Changed(attributes, originalAttributes, k)
      ensures forall k :: k in changes ==> changes[k] == attributes[k]
      ensures changes == Diff(attributes, originalAttributes)
    {
      changes := map[];
      var pending := attributes.Keys;
      while pending != {}
        invariant pending <= attributes.Keys
        invariant forall k :: k in changes <==>
          k in attributes && k !in pending && Changed(attributes, originalAttributes, k)
        invariant forall k :: k in changes ==> changes[k] == attributes[k]
        decreases pending
      {
        var key :| key in pending;
        var value := attributes[key];
        if !(key in originalAttributes && originalAttributes[key] != Null) || originalAttributes[key] != value {
          changes := changes[key := value];
        }
        pending := pending - {key};
      }
    }

    /** `hasChanges()`: `changes()` is not empty. */
    method HasChanges() returns (b: bool)
      ensures b <==> Diff(attributes, originalAttributes) != map[]
      ensures b <==> exists k :: k in attributes && Changed(attributes, originalAttributes, k)
    {
      var changes := Changes();
      b := |changes| != 0;
      if !b {
        assert changes == map[];
      } else {
        var k :| k in changes;
      }
    }
  }
}
