/** The License Key resource (LicenseJet/Resource/LicenseKey.php). */
module LicenseKeys {
  import opened Values
  import opened Resources

  /** `getLicenseId`: null when absent or null, else the integer. */
  function GetLicenseId(a: Attrs): (n: Option<int>)
    requires Lookup(a, "license_id").Null? || Lookup(a, "license_id").Int?
    ensures n.None? <==> Lookup(a, "license_id") == Null
    ensures n.Some? ==> a["license_id"] == Int(n.value)
  {
    IntOrNull(Attribute(a, "license_id"))
  }

  /** `setLicenseId`, which `getLicenseId` then reads back. */
  method SetLicenseId(r: Resource, licenseId: int)
    modifies r
    ensures r.attributes == old(r.attributes)["license_id" := Int(licenseId)]
    ensures r.originalAttributes == old(r.originalAttributes)
    ensures GetLicenseId(r.attributes) == Some(licenseId)
  {
    DotSetFlat(r.attributes, "license_id", Int(licenseId));
    r.SetAttribute("license_id", Int(licenseId));
  }

  /** `getHost`. */
  function GetHost(a: Attrs): (v: Value)
    ensures "host" in a ==> v == a["host"]
    ensures "host" !in a ==> v == Null
  {
    Attribute(a, "host")
  }

  /** `setHost`, which `getHost` then reads back, null included. */
  method SetHost(r: Resource, host: Option<string>)
    modifies r
    ensures r.attributes == old(r.attributes)["host" := StrOrNull(host)]
    ensures r.originalAttributes == old(r.originalAttributes)
    ensures GetHost(r.attributes) == StrOrNull(host)
  {
    DotSetFlat(r.attributes, "host", StrOrNull(host));
    r.SetAttribute("host", StrOrNull(host));
  }

  /** `getKey`: the `key` attribute. */
  function GetKey(a: Attrs): (k: Value)
    ensures k == Lookup(a, "key")
  {
    Attribute(a, "key")
  }

  /** `getStatus`: its `is_null` guard changes nothing, so this is a plain lookup of `status`. */
  function GetStatus(a: Attrs): (s: Value)
    ensures s == Lookup(a, "status")
  {
    if Attribute(a, "status").Null? then Null else Attribute(a, "status")
  }

  /** `getSuspensionReason`. */
  function GetSuspensionReason(a: Attrs): (v: Value)
    ensures "suspension_reason" in a ==> v == a["suspension_reason"]
    ensures "suspension_reason" !in a ==> v == Null
  {
    Attribute(a, "suspension_reason")
  }
}
