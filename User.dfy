/** The User resource (LicenseJet/Resource/User.php). */
module Users {
  import opened Values
  import opened Resources

  /** `getEmail`. */
  function GetEmail(a: Attrs): (v: Value)
    ensures "email" in a ==> v == a["email"]
    ensures "email" !in a ==> v == Null
  {
    Attribute(a, "email")
  }

  /** `setEmail`, which `getEmail` then reads back. */
  method SetEmail(r: Resource, email: string)
    modifies r
    ensures r.attributes == old(r.attributes)["email" := Str(email)]
    ensures r.originalAttributes == old(r.originalAttributes)
    ensures GetEmail(r.attributes) == Str(email)
  {
    DotSetFlat(r.attributes, "email", Str(email));
    r.SetAttribute("email", Str(email));
  }

  /** `getName`. */
  function GetName(a: Attrs): (v: Value)
    ensures "name" in a ==> v == a["name"]
    ensures "name" !in a ==> v == Null
  {
    Attribute(a, "name")
  }

  /** `setName`, which `getName` then reads back. */
  method SetName(r: Resource, name: string)
    modifies r
    ensures r.attributes == old(r.attributes)["name" := Str(name)]
    ensures r.originalAttributes == old(r.originalAttributes)
    ensures GetName(r.attributes) == Str(name)
  {
    DotSetFlat(r.attributes, "name", Str(name));
    r.SetAttribute("name", Str(name));
  }

  /** `getAuthentication`: the `authentication` attribute `== 1`. */
  predicate GetAuthentication(a: Attrs)
    ensures GetAuthentication(a) <==> "authentication" in a && EqualsOne(a["authentication"])
    ensures "authentication" in a && a["authentication"].Bool? ==> (GetAuthentication(a) <==> a["authentication"].b)
  {
    EqualsOne(Attribute(a, "authentication"))
  }

  /** `setAuthentication`, which `getAuthentication` then reads back. */
  method SetAuthentication(r: Resource, authentication: bool)
    modifies r
    ensures r.attributes == old(r.attributes)["authentication" := Bool(authentication)]
    ensures r.originalAttributes == old(r.originalAttributes)
    ensures GetAuthentication(r.attributes) == authentication
  {
    DotSetFlat(r.attributes, "authentication", Bool(authentication));
    r.SetAttribute("authentication", Bool(authentication));
  }

  /** `setPassword`: the password becomes an attribute, and so part of `toArray()`. */
  method SetPassword(r: Resource, password: string)
    modifies r
    ensures r.attributes == old(r.attributes)["password" := Str(password)]
    ensures r.originalAttributes == old(r.originalAttributes)
    ensures "password" in r.ToArray() && r.ToArray()["password"] == Str(password)
  {
    DotSetFlat(r.attributes, "password", Str(password));
    r.SetAttribute("password", Str(password));
  }

  /** A round trip on plain attributes: the setters' writes are what the getters read. */
  lemma EmailNameRoundTrip(a: Attrs, email: string, name: string)
    ensures GetEmail(a["email" := Str(email)]["name" := Str(name)]) == Str(email)
    ensures GetName(a["name" := Str(name)]["email" := Str(email)]) == Str(name)
  {
  }
}
