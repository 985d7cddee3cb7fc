/** The Term resource (LicenseJet/Resource/Term.php): a length of time such as "2 months". */
module Terms {
  import opened Values
  import opened Resources

  /** `getIdentifier`: the `identifier` attribute, e.g. "day"; null when absent. */
  function GetIdentifier(t: Attrs): (v: Value)
    ensures "identifier" in t ==> v == t["identifier"]
    ensures "identifier" !in t ==> v == Null
  {
    Attribute(t, "identifier")
  }

  /** `getLength`: the `length` attribute; null when absent. */
  function GetLength(t: Attrs): (v: Value)
    ensures "length" in t ==> v == t["length"]
    ensures "length" !in t ==> v == Null
  {
    Attribute(t, "length")
  }

  /**
   * `Term::create($identifier, $length)`: a term whose attributes are exactly
   * the identifier and the length, which its getters give back.
   */
  function Create(identifier: Value, length: Value): (t: Attrs)
    ensures t.Keys == {"identifier", "length"}
    ensures GetIdentifier(t) == identifier && GetLength(t) == length
  {
    map["identifier" := identifier, "length" := length]
  }

  /** `getSingularName`: the nested `name.singular`, null when absent. */
  function GetSingularName(t: Attrs): (r: Value)
    requires NestedReadable(t, "name", "singular")
    ensures Path2("name", "singular") in t ==> r == t[Path2("name", "singular")]
    ensures Path2("name", "singular") !in t ==> r == NestedValue(t, "name", "singular")
  {
    Nested(t, "name", "singular")
  }

  /** `getPluralName`: the nested `name.plural`, null when absent. */
  function GetPluralName(t: Attrs): (r: Value)
    requires NestedReadable(t, "name", "plural")
    ensures Path2("name", "plural") in t ==> r == t[Path2("name", "plural")]
    ensures Path2("name", "plural") !in t ==> r == NestedValue(t, "name", "plural")
  {
    Nested(t, "name", "plural")
  }

  /** `getEstimatedMinutes`: the nested `length_estimate.minutes`, null when absent. */
  function GetEstimatedMinutes(t: Attrs): (r: Value)
    requires NestedReadable(t, "length_estimate", "minutes")
    ensures Path2("length_estimate", "minutes") in t ==> r == t[Path2("length_estimate", "minutes")]
    ensures Path2("length_estimate", "minutes") !in t ==> r == NestedValue(t, "length_estimate", "minutes")
  {
    Nested(t, "length_estimate", "minutes")
  }

  /** `getEstimatedHours`: the nested `length_estimate.hours`, null when absent. */
  function GetEstimatedHours(t: Attrs): (r: Value)
    requires NestedReadable(t, "length_estimate", "hours")
    ensures Path2("length_estimate", "hours") in t ==> r == t[Path2("length_estimate", "hours")]
    ensures Path2("length_estimate", "hours") !in t ==> r == NestedValue(t, "length_estimate", "hours")
  {
    Nested(t, "length_estimate", "hours")
  }

  /** `getEstimatedDays`: the nested `length_estimate.days`, null when absent. */
  function GetEstimatedDays(t: Attrs): (r: Value)
    requires NestedReadable(t, "length_estimate", "days")
    ensures Path2("length_estimate", "days") in t ==> r == t[Path2("length_estimate", "days")]
    ensures Path2("length_estimate", "days") !in t ==> r == NestedValue(t, "length_estimate", "days")
  {
    Nested(t, "length_estimate", "days")
  }

  // ------------------------------------------------ terms stored inside other resources

  /** A term kept under the attribute `outer` can be read back without raising. */
  predicate TermReadable(a: Attrs, outer: string)
  {
    '.' !in outer && NestedReadable(a, outer, "identifier") && NestedReadable(a, outer, "length")
  }

  /** No literal `outer.identifier` or `outer.length` key shadows the nested term. */
  predicate TermUnshadowed(a: Attrs, outer: string)
  {
    Path2(outer, "identifier") !in a && Path2(outer, "length") !in a
  }

  /** The term whose identifier and length sit under `a[outer]` (null where missing). */
  function StoredTerm(a: Attrs, outer: string): Attrs
  {
    Create(NestedValue(a, outer, "identifier"), NestedValue(a, outer, "length"))
  }

  /**
   * `Term::create($this->getAttribute('outer.identifier'), $this->getAttribute('outer.length'))`,
   * as License and LicensingPlan build their terms.
   */
  function ReadTerm(a: Attrs, outer: string): (t: Attrs)
    requires TermReadable(a, outer)
    ensures TermUnshadowed(a, outer) ==> t == StoredTerm(a, outer)
  {
    Create(Nested(a, outer, "identifier"), Nested(a, outer, "length"))
  }
}
