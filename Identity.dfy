/**
 * The identity used on the API server (LicenseJet/Identity.php): the base
 * URL, the API key and the HTTP client timeout, and the URL normalisation
 * that endpoint paths go through.
 */
module Identities {
  import opened Values
  import opened Exceptions

  /** `strpos($s, "//") !== false`. */
  predicate HasDoubleSlash(s: string)
  {
    |s| >= 2 && ((s[0] == '/' && s[1] == '/') || HasDoubleSlash(s[1..]))
  }

  /**
   * `str_replace("//", "/", $s)`: one left-to-right pass that replaces
   * non-overlapping occurrences, so "///" becomes "//". It shortens every
   * string that holds a "//" and leaves the others alone.
   */
  function ReplaceDoubleSlashes(s: string): (r: string)
    ensures |r| <= |s|
    ensures HasDoubleSlash(s) ==> |r| < |s|
    ensures !HasDoubleSlash(s) ==> r == s
  {
    if s == [] then []
    else if |s| >= 2 && s[0] == '/' && s[1] == '/' then "/" + ReplaceDoubleSlashes(s[2..])
    else [s[0]] + ReplaceDoubleSlashes(s[1..])
  }

  /**
   * Every run of slashes collapsed into one; `afterSlash` says whether the
   * text before `s` already ended in a slash.
   */
  function Collapse(afterSlash: bool, s: string): string
    decreases |s|
  {
    if s == [] then []
    else if s[0] == '/' then
      (if afterSlash then Collapse(true, s[1..]) else "/" + Collapse(true, s[1..]))
    else [s[0]] + Collapse(false, s[1..])
  }

  /** A pass of `str_replace` does not change what the string collapses to. */
  lemma {:induction false} ReplaceKeepsCollapse(afterSlash: bool, s: string)
    ensures Collapse(afterSlash, ReplaceDoubleSlashes(s)) == Collapse(afterSlash, s)
    decreases |s|
  {
    if s == [] {
    } else if |s| >= 2 && s[0] == '/' && s[1] == '/' {
      var rest := ReplaceDoubleSlashes(s[2..]);
      ReplaceKeepsCollapse(true, s[2..]);
      assert ("/" + rest)[1..] == rest;
      assert s[1..][1..] == s[2..];
    } else {
      var rest := ReplaceDoubleSlashes(s[1..]);
      ReplaceKeepsCollapse(s[0] == '/', s[1..]);
      assert ([s[0]] + rest)[1..] == rest;
    }
  }

  /** A collapsed string holds no "//", and none at its start when it follows a slash. */
  lemma {:induction false} CollapseHasNoDoubleSlash(afterSlash: bool, s: string)
    ensures !HasDoubleSlash(Collapse(afterSlash, s))
    ensures afterSlash && Collapse(afterSlash, s) != [] ==> Collapse(afterSlash, s)[0] != '/'
    decreases |s|
  {
    if s == [] {
    } else if s[0] == '/' {
      CollapseHasNoDoubleSlash(true, s[1..]);
      if !afterSlash {
        var c := "/" + Collapse(true, s[1..]);
        assert c[1..] == Collapse(true, s[1..]);
      }
    } else {
      CollapseHasNoDoubleSlash(false, s[1..]);
      var c := [s[0]] + Collapse(false, s[1..]);
      assert c[1..] == Collapse(false, s[1..]);
    }
  }

  /** A string with no "//" (and no leading slash after a slash) collapses to itself. */
  lemma {:induction false} CollapseKeeps(afterSlash: bool, s: string)
    requires !HasDoubleSlash(s)
    requires afterSlash ==> s == [] || s[0] != '/'
    ensures Collapse(afterSlash, s) == s
    decreases |s|
  {
    if s != [] {
      assert !HasDoubleSlash(s[1..]);
      CollapseKeeps(s[0] == '/', s[1..]);
      assert s == [s[0]] + s[1..];
    }
  }

  /** Normalising twice is normalising once. */
  lemma NormalizeIdempotent(s: string)
    ensures Collapse(false, Collapse(false, s)) == Collapse(false, s)
  {
    CollapseHasNoDoubleSlash(false, s);
    CollapseKeeps(false, Collapse(false, s));
  }

  class Identity {
    const apiBaseUrl: string
    const apiKey: string
    /** The HTTP client timeout; `setClientTimeout` also accepts null. */
    var clientTimeout: Option<int>

    constructor(apiBaseUrl: string, apiKey: string, clientTimeout: Option<int> := Some(10))
      ensures this.apiBaseUrl == apiBaseUrl && this.apiKey == apiKey
      ensures this.clientTimeout == clientTimeout
      ensures GetKey() == apiKey
    {
      this.apiBaseUrl := apiBaseUrl;
      this.apiKey := apiKey;
      this.clientTimeout := clientTimeout;
    }

    /** `getKey`: the API key the identity was built with. */
    function GetKey(): (key: string)
      ensures key == apiKey
    {
      apiKey
    }

    /** `getClientTimeout`: its `int` return type refuses a null timeout with a TypeError. */
    function GetClientTimeout(): (t: Result<int>)
      reads this
      ensures t.Ok? <==> clientTimeout.Some?
      ensures t.Ok? ==> t.value == clientTimeout.value
      ensures t.Err? ==> t.error == OtherThrowable("TypeError")
    {
      match clientTimeout
      case None => Err(OtherThrowable("TypeError"))
      case Some(timeout) => Ok(timeout)
    }

    /** `setClientTimeout`, which `getClientTimeout` then reads back; null makes it raise. */
    method SetClientTimeout(timeout: Option<int>)
      modifies this
      ensures clientTimeout == timeout
      ensures timeout.Some? ==> GetClientTimeout() == Ok(timeout.value)
      ensures timeout.None? ==> GetClientTimeout().Err?
    {
      clientTimeout := timeout;
    }

    /**
     * `normalizeUrl`: replace "//" by "/" until none is left. Each pass
     * shortens the string, so the loop ends; the result is the path with
     * every run of slashes collapsed.
     */
    static method NormalizeUrl(url: string) returns (r: string)
      ensures r == Collapse(false, url)
      ensures !HasDoubleSlash(r)
      ensures !HasDoubleSlash(url) ==> r == url
    {
      r := url;
      while HasDoubleSlash(r)
        invariant Collapse(false, r) == Collapse(false, url)
        invariant !HasDoubleSlash(url) ==> r == url
        decreases |r|
      {
        ReplaceKeepsCollapse(false, r);
        r := ReplaceDoubleSlashes(r);
      }
      CollapseKeeps(false, r);
    }

    /**
     * `getUrl($path)`: the base URL, a slash, and the normalised path. The
     * base is not normalised, so `getUrl('/')` ends in "//".
     */
    method GetUrl(path: string := "") returns (url: string)
      ensures url == apiBaseUrl + "/" + Collapse(false, path)
      ensures !HasDoubleSlash(url[|apiBaseUrl| + 1..])
      ensures path == "/" ==> url == apiBaseUrl + "//"
    {
      var normalized := NormalizeUrl(path);
      url := apiBaseUrl + "/" + normalized;
      assert url[|apiBaseUrl| + 1..] == normalized;
    }
  }
}
