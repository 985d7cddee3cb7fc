/**
 * The Licensing Plan resource (LicenseJet/Resource/LicensingPlan.php):
 * read-only getters over the attribute store. Unlike License, its optional
 * terms are null whenever their identifier or length is falsy.
 */
module LicensingPlans {
  import opened Values
  import opened Resources
  import Terms
  import Exceptions

  const SUBSCRIPTION_TERM := "subscription_term"
  const UPDATE_ACCESS_EXPIRATION_TERM := "update_access_expiration_term"
  const TRANSFER_RESTRICTION_TERM := "transfer_restriction_term"

  /** `getIdentifier`. */
  function GetIdentifier(a: Attrs): (v: Value)
    ensures "identifier" in a ==> v == a["identifier"]
    ensures "identifier" !in a ==> v == Null
  {
    Attribute(a, "identifier")
  }

  /** `getName`. */
  function GetName(a: Attrs): (v: Value)
    ensures "name" in a ==> v == a["name"]
    ensures "name" !in a ==> v == Null
  {
    Attribute(a, "name")
  }

  /** `getType`: "subscription" or "perpetual". */
  function GetType(a: Attrs): (v: Value)
    ensures "type" in a ==> v == a["type"]
    ensures "type" !in a ==> v == Null
  {
    Attribute(a, "type")
  }

  /** `getText`. */
  function GetText(a: Attrs): (v: Value)
    ensures "text" in a ==> v == a["text"]
    ensures "text" !in a ==> v == Null
  {
    Attribute(a, "text")
  }

  /**
   * `getTransferLock`: the `license_transfer_lock` attribute coerced to the
   * `bool` return type. A scalar coerces by truthiness; null (also when the
   * attribute is absent) and an array raise a TypeError.
   */
  function GetTransferLock(a: Attrs): (locked: Exceptions.Result<bool>)
    ensures locked.Err? <==> Lookup(a, "license_transfer_lock").Null? || IsArray(Lookup(a, "license_transfer_lock"))
    ensures locked.Err? ==> locked.error == Exceptions.OtherThrowable("TypeError")
    ensures locked.Ok? ==> (locked.value <==> Truthy(a["license_transfer_lock"]))
    ensures "license_transfer_lock" in a && a["license_transfer_lock"].Bool? ==>
      locked == Exceptions.Ok(a["license_transfer_lock"].b)
  {
    var v := Attribute(a, "license_transfer_lock");
    if v.Null? || IsArray(v) then Exceptions.Err(Exceptions.OtherThrowable("TypeError"))
    else Exceptions.Ok(Truthy(v))
  }

  /** `getProjectIdentifier`. */
  function GetProjectIdentifier(a: Attrs): (v: Value)
    ensures "project_identifier" in a ==> v == a["project_identifier"]
    ensures "project_identifier" !in a ==> v == Null
  {
    Attribute(a, "project_identifier")
  }

  /** `getProjectId`: null when absent or null, else the integer. */
  function GetProjectId(a: Attrs): (n: Option<int>)
    requires Lookup(a, "project_id").Null? || Lookup(a, "project_id").Int?
    ensures n.None? <==> Lookup(a, "project_id") == Null
    ensures n.Some? ==> a["project_id"] == Int(n.value)
  {
    IntOrNull(Attribute(a, "project_id"))
  }

  /** `getProjectName`: the nested `project.name`, null when absent. */
  function GetProjectName(a: Attrs): (r: Value)
    requires NestedReadable(a, "project", "name")
    ensures Path2("project", "name") in a ==> r == a[Path2("project", "name")]
    ensures Path2("project", "name") !in a ==> r == NestedValue(a, "project", "name")
  {
    Nested(a, "project", "name")
  }

  /** `isSubscription`. */
  predicate IsSubscription(a: Attrs)
    ensures IsSubscription(a) <==> "type" in a && a["type"] == Str("subscription")
  {
    GetType(a) == Str("subscription")
  }

  /** `isPerpetual`. */
  predicate IsPerpetual(a: Attrs)
    ensures IsPerpetual(a) <==> "type" in a && a["type"] == Str("perpetual")
  {
    GetType(a) == Str("perpetual")
  }

  /** `isPermanent`: another name for `isPerpetual`. */
  predicate IsPermanent(a: Attrs)
    ensures IsPermanent(a) <==> "type" in a && a["type"] == Str("perpetual")
  {
    IsPerpetual(a)
  }

  /** `getSubscriptionTerm`: null unless the plan is a subscription. */
  function GetSubscriptionTerm(a: Attrs): (t: Option<Attrs>)
    requires IsSubscription(a) ==> Terms.TermReadable(a, SUBSCRIPTION_TERM)
    ensures !IsSubscription(a) ==> t == None
    ensures IsSubscription(a) && Terms.TermUnshadowed(a, SUBSCRIPTION_TERM) ==>
      t == Some(Terms.StoredTerm(a, SUBSCRIPTION_TERM))
  {
    if !IsSubscription(a) then None
    else Some(Terms.ReadTerm(a, SUBSCRIPTION_TERM))
  }

  /** `getUpdateAccessRestrictions`: null unless the attribute is an array. */
  function GetUpdateAccessRestrictions(a: Attrs): (v: Option<Value>)
    ensures v.Some? <==> "update_access_restrictions" in a && IsArray(a["update_access_restrictions"])
    ensures v.Some? ==> v.value == a["update_access_restrictions"]
  {
    var restrictions := Attribute(a, "update_access_restrictions");
    if !IsArray(restrictions) then None else Some(restrictions)
  }

  /**
   * The guarded term read of `getUpdateAccessExpirationTerm` and
   * `getTransferRestrictionTerm`: null when the identifier or the length
   * under `outer` is falsy (missing, null, "", "0", 0, false, []).
   */
  function GuardedTerm(a: Attrs, outer: string): (t: Option<Attrs>)
    requires Terms.TermReadable(a, outer)
    ensures Terms.TermUnshadowed(a, outer) ==>
      (t.None? <==> !Truthy(NestedValue(a, outer, "identifier")) || !Truthy(NestedValue(a, outer, "length")))
    ensures Terms.TermUnshadowed(a, outer) && t.Some? ==> t.value == Terms.StoredTerm(a, outer)
  {
    if !Truthy(Nested(a, outer, "identifier")) then None
    else if !Truthy(Nested(a, outer, "length")) then None
    else Some(Terms.ReadTerm(a, outer))
  }

  /** `getUpdateAccessExpirationTerm`. */
  function GetUpdateAccessExpirationTerm(a: Attrs): (t: Option<Attrs>)
    requires Terms.TermReadable(a, UPDATE_ACCESS_EXPIRATION_TERM)
    ensures t.Some? ==> Truthy(Terms.GetIdentifier(t.value)) && Truthy(Terms.GetLength(t.value))
  {
    GuardedTerm(a, UPDATE_ACCESS_EXPIRATION_TERM)
  }

  /** `getTransferRestrictionTerm`. */
  function GetTransferRestrictionTerm(a: Attrs): (t: Option<Attrs>)
    requires Terms.TermReadable(a, TRANSFER_RESTRICTION_TERM)
    ensures t.Some? ==> Truthy(Terms.GetIdentifier(t.value)) && Truthy(Terms.GetLength(t.value))
  {
    GuardedTerm(a, TRANSFER_RESTRICTION_TERM)
  }

  /** `getUpdateAccessExpirationVersion`. */
  function GetUpdateAccessExpirationVersion(a: Attrs): (v: Value)
    ensures "update_access_expiration_version" in a ==> v == a["update_access_expiration_version"]
    ensures "update_access_expiration_version" !in a ==> v == Null
  {
    Attribute(a, "update_access_expiration_version")
  }

  /**
   * A plan storing the term `create(identifier, length)` under `outer` yields
   * that term exactly when both parts are truthy, and null otherwise.
   */
  lemma GuardedStoredTerm(a: Attrs, outer: string, identifier: Value, length: Value)
    requires '.' !in outer && Terms.TermUnshadowed(a, outer)
    requires outer in a && a[outer] == Dict(Terms.Create(identifier, length))
    ensures Terms.TermReadable(a, outer)
    ensures GuardedTerm(a, outer) ==
      if Truthy(identifier) && Truthy(length) then Some(Terms.Create(identifier, length)) else None
  {
    assert NestedValue(a, outer, "identifier") == identifier;
    assert NestedValue(a, outer, "length") == length;
  }
}
