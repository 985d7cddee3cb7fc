/**
 * The License resource (LicenseJet/Resource/License.php): typed getters over
 * the attribute store, and setters that write through `setAttribute`.
 * Getters take the resource's current attributes; setters act on the object.
 */
module Licenses {
  import opened Values
  import opened Resources
  import Terms

  const SUBSCRIPTION_TERM := "subscription_term"
  const UPDATE_ACCESS_EXPIRATION_TERM := "update_access_expiration_term"

  // ---------------------------------------------------------------- type

  /** `getType`: "subscription" or "perpetual"; null when absent. */
  function GetType(a: Attrs): (v: Value)
    ensures "type" in a ==> v == a["type"]
    ensures "type" !in a ==> v == Null
  {
    Attribute(a, "type")
  }

  /** `setType`, which `getType` then reads back. */
  method SetType(r: Resource, kind: string)
    modifies r
    ensures r.attributes == old(r.attributes)["type" := Str(kind)]
    ensures r.originalAttributes == old(r.originalAttributes)
    ensures GetType(r.attributes) == Str(kind)
  {
    DotSetFlat(r.attributes, "type", Str(kind));
    r.SetAttribute("type", Str(kind));
  }

  /** `isSubscription`. */
  predicate IsSubscription(a: Attrs)
    ensures IsSubscription(a) <==> "type" in a && a["type"] == Str("subscription")
  {
    GetType(a) == Str("subscription")
  }

  /** `isPerpetual`. */
  predicate IsPerpetual(a: Attrs)
    ensures IsPerpetual(a) <==> "type" in a && a["type"] == Str("perpetual")
  {
    GetType(a) == Str("perpetual")
  }

  /** `isPermanent`: another name for `isPerpetual`. */
  predicate IsPermanent(a: Attrs)
    ensures IsPermanent(a) <==> "type" in a && a["type"] == Str("perpetual")
  {
    IsPerpetual(a)
  }

  /** A license is never both a subscription and perpetual; after `setType` exactly the matching predicate holds. */
  lemma TypePredicates(a: Attrs, kind: string)
    ensures !(IsSubscription(a) && IsPerpetual(a))
    ensures IsSubscription(a["type" := Str(kind)]) <==> kind == "subscription"
    ensures IsPerpetual(a["type" := Str(kind)]) <==> kind == "perpetual"
  {
  }

  // ---------------------------------------------------------------- subscription term

  /**
   * `getSubscriptionTerm`: null unless the license is a subscription;
   * otherwise the term built from `subscription_term.identifier` and `.length`.
   */
  function GetSubscriptionTerm(a: Attrs): (t: Option<Attrs>)
    requires IsSubscription(a) ==> Terms.TermReadable(a, SUBSCRIPTION_TERM)
    ensures !IsSubscription(a) ==> t == None
    ensures IsSubscription(a) && Terms.TermUnshadowed(a, SUBSCRIPTION_TERM) ==>
      t == Some(Terms.StoredTerm(a, SUBSCRIPTION_TERM))
  {
    if !IsSubscription(a) then None
    else Some(Terms.ReadTerm(a, SUBSCRIPTION_TERM))
  }

  /** `setSubscriptionTerm`: stores the term's attribute array under `subscription_term`. */
  method SetSubscriptionTerm(r: Resource, term: Attrs)
    modifies r
    ensures r.attributes == old(r.attributes)[SUBSCRIPTION_TERM := Dict(term)]
    ensures r.originalAttributes == old(r.originalAttributes)
    ensures Terms.TermReadable(r.attributes, SUBSCRIPTION_TERM)
  {
    DotSetFlat(r.attributes, SUBSCRIPTION_TERM, Dict(term));
    r.SetAttribute(SUBSCRIPTION_TERM, Dict(term));
  }

  /** On a subscription license, the term set is the term read back. */
  lemma SubscriptionTermRoundTrip(a: Attrs, term: Attrs)
    requires IsSubscription(a) && Terms.TermUnshadowed(a, SUBSCRIPTION_TERM)
    ensures GetSubscriptionTerm(a[SUBSCRIPTION_TERM := Dict(term)]) ==
      Some(Terms.Create(Terms.GetIdentifier(term), Terms.GetLength(term)))
  {
    var b := a[SUBSCRIPTION_TERM := Dict(term)];
    assert Terms.TermReadable(b, SUBSCRIPTION_TERM);
    assert NestedValue(b, SUBSCRIPTION_TERM, "identifier") == Terms.GetIdentifier(term);
    assert NestedValue(b, SUBSCRIPTION_TERM, "length") == Terms.GetLength(term);
  }

  // ---------------------------------------------------------------- plain attributes

  /** `getAccessKey`. */
  function GetAccessKey(a: Attrs): (v: Value)
    ensures "access_key" in a ==> v == a["access_key"]
    ensures "access_key" !in a ==> v == Null
  {
    Attribute(a, "access_key")
  }

  /** `setAccessKey`, which `getAccessKey` then reads back. */
  method SetAccessKey(r: Resource, accessKey: string)
    modifies r
    ensures r.attributes == old(r.attributes)["access_key" := Str(accessKey)]
    ensures r.originalAttributes == old(r.originalAttributes)
    ensures GetAccessKey(r.attributes) == Str(accessKey)
  {
    DotSetFlat(r.attributes, "access_key", Str(accessKey));
    r.SetAttribute("access_key", Str(accessKey));
  }

  /** `getStatus`: e.g. "active", "expired", "suspended", "terminated". */
  function GetStatus(a: Attrs): (v: Value)
    ensures "status" in a ==> v == a["status"]
    ensures "status" !in a ==> v == Null
  {
    Attribute(a, "status")
  }

  /** `setStatus`, after which exactly the status predicate matching the string holds. */
  method SetStatus(r: Resource, status: string)
    modifies r
    ensures r.attributes == old(r.attributes)["status" := Str(status)]
    ensures r.originalAttributes == old(r.originalAttributes)
    ensures GetStatus(r.attributes) == Str(status)
    ensures IsActive(r.attributes) <==> status == "active"
    ensures IsExpired(r.attributes) <==> status == "expired"
    ensures IsSuspended(r.attributes) <==> status == "suspended"
  {
    DotSetFlat(r.attributes, "status", Str(status));
    r.SetAttribute("status", Str(status));
  }

  /** `isActive`. */
  predicate IsActive(a: Attrs)
    ensures IsActive(a) <==> "status" in a && a["status"] == Str("active")
  {
    GetStatus(a) == Str("active")
  }

  /** `isExpired`. */
  predicate IsExpired(a: Attrs)
    ensures IsExpired(a) <==> "status" in a && a["status"] == Str("expired")
  {
    GetStatus(a) == Str("expired")
  }

  /** `isSuspended`. */
  predicate IsSuspended(a: Attrs)
    ensures IsSuspended(a) <==> "status" in a && a["status"] == Str("suspended")
  {
    GetStatus(a) == Str("suspended")
  }

  /** At most one of the status predicates holds. */
  lemma StatusPredicatesExclusive(a: Attrs)
    ensures !(IsActive(a) && IsExpired(a)) && !(IsActive(a) && IsSuspended(a)) && !(IsExpired(a) && IsSuspended(a))
  {
  }

  /** `getKeyLimit`: null when absent or null, else the integer. */
  function GetKeyLimit(a: Attrs): (n: Option<int>)
    requires Lookup(a, "key_limit").Null? || Lookup(a, "key_limit").Int?
    ensures n.None? <==> Lookup(a, "key_limit") == Null
    ensures n.Some? ==> a["key_limit"] == Int(n.value)
  {
    IntOrNull(Attribute(a, "key_limit"))
  }

  /** `setKeyLimit`, which round-trips through `getKeyLimit`, null included. */
  method SetKeyLimit(r: Resource, keyLimit: Option<int>)
    modifies r
    ensures r.attributes == old(r.attributes)["key_limit" := FromIntOrNull(keyLimit)]
    ensures r.originalAttributes == old(r.originalAttributes)
    ensures GetKeyLimit(r.attributes) == keyLimit
  {
    DotSetFlat(r.attributes, "key_limit", FromIntOrNull(keyLimit));
    r.SetAttribute("key_limit", FromIntOrNull(keyLimit));
  }

  /** `isTansferable` (so spelled in the source): the attribute `== 1`. */
  predicate IsTransferable(a: Attrs)
    ensures IsTransferable(a) <==> "transferable" in a && EqualsOne(a["transferable"])
    ensures "transferable" in a && a["transferable"].Bool? ==> (IsTransferable(a) <==> a["transferable"].b)
  {
    EqualsOne(Attribute(a, "transferable"))
  }

  /** `setTransferable`, which `isTansferable` then reads back. */
  method SetTransferable(r: Resource, transferable: bool)
    modifies r
    ensures r.attributes == old(r.attributes)["transferable" := Bool(transferable)]
    ensures r.originalAttributes == old(r.originalAttributes)
    ensures IsTransferable(r.attributes) == transferable
  {
    DotSetFlat(r.attributes, "transferable", Bool(transferable));
    r.SetAttribute("transferable", Bool(transferable));
  }

  /** `isTransferReady`: the truthiness of `transfer_ready`. */
  predicate IsTransferReady(a: Attrs)
    ensures IsTransferReady(a) <==> "transfer_ready" in a && Truthy(a["transfer_ready"])
  {
    Truthy(Attribute(a, "transfer_ready"))
  }

  /** `getUserId`: null when absent or null, else the integer. */
  function GetUserId(a: Attrs): (n: Option<int>)
    requires Lookup(a, "user_id").Null? || Lookup(a, "user_id").Int?
    ensures n.None? <==> Lookup(a, "user_id") == Null
    ensures n.Some? ==> a["user_id"] == Int(n.value)
  {
    IntOrNull(Attribute(a, "user_id"))
  }

  /** `setUserId`, which round-trips through `getUserId`, null included. */
  method SetUserId(r: Resource, userId: Option<int>)
    modifies r
    ensures r.attributes == old(r.attributes)["user_id" := FromIntOrNull(userId)]
    ensures r.originalAttributes == old(r.originalAttributes)
    ensures GetUserId(r.attributes) == userId
  {
    DotSetFlat(r.attributes, "user_id", FromIntOrNull(userId));
    r.SetAttribute("user_id", FromIntOrNull(userId));
  }

  /** `getLicensingPlanId`: null when absent or null, else the integer. */
  function GetLicensingPlanId(a: Attrs): (n: Option<int>)
    requires Lookup(a, "licensing_plan_id").Null? || Lookup(a, "licensing_plan_id").Int?
    ensures n.None? <==> Lookup(a, "licensing_plan_id") == Null
    ensures n.Some? ==> a["licensing_plan_id"] == Int(n.value)
  {
    IntOrNull(Attribute(a, "licensing_plan_id"))
  }

  /** `setLicensingPlanId`, which `getLicensingPlanId` then reads back. */
  method SetLicensingPlanId(r: Resource, licensingPlanId: int)
    modifies r
    ensures r.attributes == old(r.attributes)["licensing_plan_id" := Int(licensingPlanId)]
    ensures r.originalAttributes == old(r.originalAttributes)
    ensures GetLicensingPlanId(r.attributes) == Some(licensingPlanId)
  {
    DotSetFlat(r.attributes, "licensing_plan_id", Int(licensingPlanId));
    r.SetAttribute("licensing_plan_id", Int(licensingPlanId));
  }

  /** `getProjectId`: null when absent or null, else the integer. */
  function GetProjectId(a: Attrs): (n: Option<int>)
    requires Lookup(a, "project_id").Null? || Lookup(a, "project_id").Int?
    ensures n.None? <==> Lookup(a, "project_id") == Null
    ensures n.Some? ==> a["project_id"] == Int(n.value)
  {
    IntOrNull(Attribute(a, "project_id"))
  }

  /** `getProjectIdentifier`. */
  function GetProjectIdentifier(a: Attrs): (v: Value)
    ensures "project_identifier" in a ==> v == a["project_identifier"]
    ensures "project_identifier" !in a ==> v == Null
  {
    Attribute(a, "project_identifier")
  }

  /** `getUpdateAccessRestrictions`: null unless the attribute is an array. */
  function GetUpdateAccessRestrictions(a: Attrs): (v: Option<Value>)
    ensures v.Some? <==> "update_access_restrictions" in a && IsArray(a["update_access_restrictions"])
    ensures v.Some? ==> v.value == a["update_access_restrictions"]
  {
    var restrictions := Attribute(a, "update_access_restrictions");
    if !IsArray(restrictions) then None else Some(restrictions)
  }

  /** `setUpdateAccessRestrictions`, which round-trips through the getter, null included. */
  method SetUpdateAccessRestrictions(r: Resource, restrictions: Option<seq<Value>>)
    modifies r
    ensures r.attributes == old(r.attributes)["update_access_restrictions" := RestrictionsValue(restrictions)]
    ensures r.originalAttributes == old(r.originalAttributes)
    ensures GetUpdateAccessRestrictions(r.attributes) ==
      if restrictions.None? then None else Some(List(restrictions.value))
  {
    DotSetFlat(r.attributes, "update_access_restrictions", RestrictionsValue(restrictions));
    r.SetAttribute("update_access_restrictions", RestrictionsValue(restrictions));
  }

  /** The stored form of a nullable restriction list. */
  function RestrictionsValue(restrictions: Option<seq<Value>>): Value
  {
    match restrictions
    case None => Null
    case Some(xs) => List(xs)
  }

  // ---------------------------------------------------------------- update access term

  /**
   * `getUpdateAccessExpirationTerm`: always a term (never null), built from
   * the nested `update_access_expiration_term.identifier` and `.length`.
   */
  function GetUpdateAccessExpirationTerm(a: Attrs): (t: Attrs)
    requires Terms.TermReadable(a, UPDATE_ACCESS_EXPIRATION_TERM)
    ensures t.Keys == {"identifier", "length"}
    ensures Terms.TermUnshadowed(a, UPDATE_ACCESS_EXPIRATION_TERM) ==>
      t == Terms.StoredTerm(a, UPDATE_ACCESS_EXPIRATION_TERM)
  {
    Terms.ReadTerm(a, UPDATE_ACCESS_EXPIRATION_TERM)
  }

  /** The attributes after writing a term's identifier and length under `update_access_expiration_term`. */
  function WithUpdateAccessTerm(a: Attrs, term: Attrs): Attrs
  {
    a[UPDATE_ACCESS_EXPIRATION_TERM :=
        Dict(Child(a, UPDATE_ACCESS_EXPIRATION_TERM)
             ["identifier" := Terms.GetIdentifier(term)]["length" := Terms.GetLength(term)])]
  }

  /**
   * `setUpdateAccessExpirationTerm`: writes the two nested keys one after the
   * other, creating the array if needed and keeping its other entries.
   */
  method SetUpdateAccessExpirationTerm(r: Resource, term: Attrs)
    requires UPDATE_ACCESS_EXPIRATION_TERM in r.attributes ==> !r.attributes[UPDATE_ACCESS_EXPIRATION_TERM].List?
    modifies r
    ensures r.attributes == WithUpdateAccessTerm(old(r.attributes), term)
    ensures r.originalAttributes == old(r.originalAttributes)
    ensures Terms.TermReadable(r.attributes, UPDATE_ACCESS_EXPIRATION_TERM)
  {
    r.SetNestedAttribute(UPDATE_ACCESS_EXPIRATION_TERM, "identifier", Terms.GetIdentifier(term));
    r.SetNestedAttribute(UPDATE_ACCESS_EXPIRATION_TERM, "length", Terms.GetLength(term));
  }

  /**
   * Round trip: after `setUpdateAccessExpirationTerm(t)`, the getter gives a
   * term with t's identifier and length, unless literal dotted keys shadow them.
   */
  lemma {:induction false} UpdateAccessTermRoundTrip(a: Attrs, term: Attrs)
    requires UPDATE_ACCESS_EXPIRATION_TERM in a ==> !a[UPDATE_ACCESS_EXPIRATION_TERM].List?
    requires Terms.TermUnshadowed(a, UPDATE_ACCESS_EXPIRATION_TERM)
    ensures Terms.TermReadable(WithUpdateAccessTerm(a, term), UPDATE_ACCESS_EXPIRATION_TERM)
    ensures GetUpdateAccessExpirationTerm(WithUpdateAccessTerm(a, term)) ==
      Terms.Create(Terms.GetIdentifier(term), Terms.GetLength(term))
  {
    var b := WithUpdateAccessTerm(a, term);
    assert Terms.TermUnshadowed(b, UPDATE_ACCESS_EXPIRATION_TERM) by {
      assert Path2(UPDATE_ACCESS_EXPIRATION_TERM, "identifier") != UPDATE_ACCESS_EXPIRATION_TERM by {
        assert |Path2(UPDATE_ACCESS_EXPIRATION_TERM, "identifier")| > |UPDATE_ACCESS_EXPIRATION_TERM|;
      }
      assert Path2(UPDATE_ACCESS_EXPIRATION_TERM, "length") != UPDATE_ACCESS_EXPIRATION_TERM by {
        assert |Path2(UPDATE_ACCESS_EXPIRATION_TERM, "length")| > |UPDATE_ACCESS_EXPIRATION_TERM|;
      }
    }
  }

  /** `getUpdateAccessExpirationVersion`. */
  function GetUpdateAccessExpirationVersion(a: Attrs): (v: Value)
    ensures "update_access_expiration_version" in a ==> v == a["update_access_expiration_version"]
    ensures "update_access_expiration_version" !in a ==> v == Null
  {
    Attribute(a, "update_access_expiration_version")
  }

  /** `setUpdateAccessExpirationVersion`, which round-trips, null included. */
  method SetUpdateAccessExpirationVersion(r: Resource, version: Option<string>)
    modifies r
    ensures r.attributes == old(r.attributes)["update_access_expiration_version" := StrOrNull(version)]
    ensures r.originalAttributes == old(r.originalAttributes)
    ensures GetUpdateAccessExpirationVersion(r.attributes) == StrOrNull(version)
  {
    DotSetFlat(r.attributes, "update_access_expiration_version", StrOrNull(version));
    r.SetAttribute("update_access_expiration_version", StrOrNull(version));
  }

  /** `getSuspensionReason`. */
  function GetSuspensionReason(a: Attrs): (v: Value)
    ensures "suspension_reason" in a ==> v == a["suspension_reason"]
    ensures "suspension_reason" !in a ==> v == Null
  {
    Attribute(a, "suspension_reason")
  }
}
