/**
 * Paginated listing: the request builder
 * (LicenseJet/RequestBuilder/CollectionRequestBuilder.php) that fetches one
 * page into the single collection it owns, and the iterator
 * (LicenseJet/Collection/CollectionIterator.php) that walks the pages lazily
 * through it. The iterator's loaded page IS the builder's collection, so a
 * fetch made for any reason changes what the iterator holds.
 */
module Paging {
  import opened Values
  import opened Strings
  import opened Responses
  import opened Exceptions
  import opened Identities
  import opened Endpoints
  import opened BaseCollections
  import Resources

  // ---------------------------------------------------------------- what get() does

  /**
   * `array_merge($params, getParams())`: the caller's parameters with the
   * builder's `limit` and `page`, which win over same-named caller keys.
   */
  function QueryParams(params: Attrs, limit: Option<int>, page: int): (q: Attrs)
    ensures q.Keys == params.Keys + {"limit", "page"}
    ensures q["limit"] == Resources.FromIntOrNull(limit) && q["page"] == Int(page)
    ensures forall k :: k in params && k != "limit" && k != "page" ==> q[k] == params[k]
  {
    params + map["limit" := Resources.FromIntOrNull(limit), "page" := Int(page)]
  }

  /**
   * `isset($response->getPayload()['results'])`: the `results` of a payload
   * that is an array holding a non-null `results`.
   */
  function Results(r: Response): (res: Option<Value>)
    ensures res.Some? <==> Truthy(r.payload) && r.payload.Dict? && Lookup(r.payload.entries, "results") != Null
    ensures res.Some? ==> res.value == r.payload.entries["results"]
  {
    var contents := r.Payload(List([]));
    if contents.Dict? && "results" in contents.entries && contents.entries["results"] != Null
    then Some(contents.entries["results"])
    else None
  }

  /** A response `get()` can map: when it is successful and has results, they are a list. */
  predicate Mappable(r: Response)
  {
    r.IsSuccessful() && Results(r).Some? ==> Results(r).value.List?
  }

  /** `array_map($callback, $results)`, or the results themselves without a callback. */
  function Mapped(callback: Option<Value -> Value>, xs: seq<Value>): (ys: seq<Value>)
    ensures |ys| == |xs|
    ensures callback.None? ==> ys == xs
    ensures callback.Some? ==> forall i :: 0 <= i < |xs| ==> ys[i] == callback.value(xs[i])
  {
    match callback
    case None => xs
    case Some(f) => seq(|xs|, i requires 0 <= i < |xs| => f(xs[i]))
  }

  /**
   * The list `get()` stores for a response, or None when it leaves the
   * collection as it is: the response is unsuccessful or has no results.
   */
  function Fetched(r: Response, callback: Option<Value -> Value>): (ys: Option<seq<Value>>)
    requires Mappable(r)
    ensures ys.Some? <==> r.IsSuccessful() && Results(r).Some?
    ensures ys.Some? ==> ys.value == Mapped(callback, Results(r).value.elems)
    ensures ys.Some? ==> |ys.value| == |Results(r).value.elems|
  {
    if !r.IsSuccessful() then None
    else match Results(r)
      case None => None
      case Some(results) => Some(Mapped(callback, results.elems))
  }

  /** The items the shared collection holds after `get()`, given the endpoint's answer. */
  function ItemsAfter(answer: Result<Response>, callback: Option<Value -> Value>, before: map<int, Value>): map<int, Value>
    requires answer.Ok? ==> Mappable(answer.value)
  {
    if answer.Err? then before
    else match Fetched(answer.value, callback)
      case None => before
      case Some(ys) => Indexed(ys)
  }

  /** The endpoint's answer to the GET of one page of the builder's listing. */
  function Answer(b: CollectionRequestBuilder, params: Attrs, limit: Option<int>, page: int): Result<Response>
    reads b.endpoint.identity
  {
    b.endpoint.Call("GET", b.uri, QueryParams(params, limit, page), b.endpoint.identity.clientTimeout)
  }

  /** That answer is one `get()` can store. */
  predicate Serves(b: CollectionRequestBuilder, params: Attrs, limit: Option<int>, page: int)
    reads b.endpoint.identity
  {
    var a := Answer(b, params, limit, page);
    a.Ok? ==> Mappable(a.value)
  }

  /**
   * One `get()` of the given page and limit: the builder's fields are set to
   * them, the request is logged, and the collection holds what the answer gives.
   */
  twostate predicate Fetch(b: CollectionRequestBuilder, params: Attrs, limit: Option<int>, page: int)
    reads b, b.collection, b.endpoint.identity
  {
    Serves(b, params, limit, page) &&
    b.page == page && b.resourceLimit == limit &&
    b.requestLog == old(b.requestLog) + [QueryParams(params, limit, page)] &&
    b.collection.items == ItemsAfter(Answer(b, params, limit, page), b.callback, old(b.collection.items))
  }

  /** A failed request, or a successful one without results, leaves the items as they were. */
  lemma SoftFailKeepsItems(answer: Result<Response>, callback: Option<Value -> Value>, before: map<int, Value>)
    requires answer.Ok? ==> Mappable(answer.value)
    requires answer.Err? || !answer.value.IsSuccessful() || Results(answer.value).None?
    ensures ItemsAfter(answer, callback, before) == before
  {
  }

  /** Otherwise the items are the mapped results, as many as there are results, in order. */
  lemma {:induction false} ResultsReplaceItems(r: Response, callback: Option<Value -> Value>, before: map<int, Value>)
    requires Mappable(r) && r.IsSuccessful() && Results(r).Some?
    ensures ItemsAfter(Ok(r), callback, before) == Indexed(Mapped(callback, Results(r).value.elems))
    ensures |ItemsAfter(Ok(r), callback, before)| == |Results(r).value.elems|
  {
    IndexedCount(Mapped(callback, Results(r).value.elems));
  }

  // ---------------------------------------------------------------- the builder

  class CollectionRequestBuilder {
    const identity: Identity
    const endpoint: Endpoint
    const uri: string
    /** Turns a raw result into a resource; without it the raw results are kept. */
    const callback: Option<Value -> Value>
    /** The one collection every `get()` fills and returns. */
    const collection: BaseCollection
    var page: int
    var resourceLimit: Option<int>
    /** The query of every `request()` call made so far, including one refused for a null timeout. */
    ghost var requestLog: seq<Attrs>

    /** A fresh builder asks for page 1 with no limit (-1). */
    constructor(identity: Identity, endpoint: Endpoint, uri: string, callback: Option<Value -> Value>, collection: BaseCollection)
      ensures this.identity == identity && this.endpoint == endpoint && this.uri == uri
      ensures this.callback == callback && this.collection == collection
      ensures page == 1 && resourceLimit == Some(-1) && requestLog == []
    {
      this.identity := identity;
      this.endpoint := endpoint;
      this.uri := uri;
      this.callback := callback;
      this.collection := collection;
      page := 1;
      resourceLimit := Some(-1);
      requestLog := [];
    }

    /** `page($page)`: sets only the page and returns the same builder. */
    method Page(page: int) returns (self: CollectionRequestBuilder)
      modifies this
      ensures self == this
      ensures this.page == page && resourceLimit == old(resourceLimit) && requestLog == old(requestLog)
    {
      this.page := page;
      self := this;
    }

    /** `limit($limit)`: sets only the limit and returns the same builder. */
    method Limit(limit: Option<int>) returns (self: CollectionRequestBuilder)
      modifies this
      ensures self == this
      ensures resourceLimit == limit && page == old(page) && requestLog == old(requestLog)
    {
      resourceLimit := limit;
      self := this;
    }

    /** `getParams`: exactly the builder's `limit` (null for none) and `page`. */
    function GetParams(): (q: Attrs)
      reads this
      ensures q.Keys == {"limit", "page"}
      ensures q["limit"] == Resources.FromIntOrNull(resourceLimit) && q["page"] == Int(page)
    {
      map["limit" := Resources.FromIntOrNull(resourceLimit), "page" := Int(page)]
    }

    /**
     * The part of `get()` after the request: an unsuccessful response, or one
     * without results, leaves the collection as it is; otherwise the
     * collection's items become the mapped results.
     */
    method Store(resp: Response)
      requires Mappable(resp)
      modifies collection
      ensures collection.items == ItemsAfter(Ok(resp), callback, old(collection.items))
    {
      if !resp.IsSuccessful() {
        return;
      }
      var contents := resp.Payload(List([]));
      if !(contents.Dict? && "results" in contents.entries && contents.entries["results"] != Null) {
        return;
      }
      var results := contents.entries["results"].elems;
      collection.SetItems(Indexed(Mapped(callback, results)));
    }

    /**
     * `get($params, &$response)`: GET the page; a failure to send is raised
     * and leaves the caller's `$response` as it was; otherwise `$response`
     * is the endpoint's response, and an unsuccessful one or one without
     * results returns the collection as it is (possibly holding an earlier
     * page), while any other makes the collection's items the mapped results.
     * It is always the same collection.
     */
    method Get(params: Attrs := map[], given: Option<Response> := None) returns (r: Result<BaseCollection>, response: Option<Response>)
      requires Serves(this, params, resourceLimit, page)
      modifies this, collection
      ensures Fetch(this, params, old(resourceLimit), old(page))
      ensures r.Err? <==> Answer(this, params, resourceLimit, page).Err?
      ensures r.Err? ==> r.error == Answer(this, params, resourceLimit, page).error && response == given
      ensures r.Ok? ==> r.value == collection && response == Some(Answer(this, params, resourceLimit, page).value)
    {
      var query := params + GetParams();
      assert query == QueryParams(params, resourceLimit, page);
      var answer := endpoint.Request("GET", uri, query);
      assert Upper("GET") == "GET";
      requestLog := requestLog + [query];
      if answer.Err? {
        return Err(answer.error), given;
      }
      response := Some(answer.value);
      Store(answer.value);
      r := Ok(collection);
    }

    /** `getIterator($resourcesPerRequest, $params)`: an iterator on page 1 that has loaded nothing. */
    method GetIterator(resourcesPerRequest: int := 10, params: Attrs := map[]) returns (it: CollectionIterator)
      ensures fresh(it)
      ensures it.requestBuilder == this && it.params == params && it.resourcesPerRequest == resourcesPerRequest
      ensures it.page == 1 && it.data == null && it.currentResourcePosition == 0
    {
      it := new CollectionIterator(this, params, 1, resourcesPerRequest);
    }
  }

  // ---------------------------------------------------------------- the iterator

  class CollectionIterator {
    const requestBuilder: CollectionRequestBuilder
    const params: Attrs
    var page: int
    const resourcesPerRequest: int
    /** The loaded page, or null when the current page is still to be fetched. */
    var data: BaseCollection?
    var currentResourcePosition: int

    /** Construction sends no request: nothing is loaded yet. */
    constructor(requestBuilder: CollectionRequestBuilder, params: Attrs, page: int, resourcesPerRequest: int)
      ensures this.requestBuilder == requestBuilder && this.params == params
      ensures this.page == page && this.resourcesPerRequest == resourcesPerRequest
      ensures data == null && currentResourcePosition == 0
    {
      this.requestBuilder := requestBuilder;
      this.params := params;
      this.page := page;
      this.resourcesPerRequest := resourcesPerRequest;
      data := null;
      currentResourcePosition := 0;
    }

    /** The loaded page is the builder's own collection. */
    predicate SharesCollection()
      reads this
    {
      data == null || data == requestBuilder.collection
    }

    /** If the current page is to be fetched, the answer is one `get()` can store. */
    predicate CanLoad()
      reads this, requestBuilder.endpoint.identity
    {
      data == null ==> Serves(requestBuilder, params, Some(resourcesPerRequest), page)
    }

    /**
     * The effect of `requestData()`: with a page loaded (`cached`) nothing
     * changes; otherwise the builder fetches the current page with this
     * iterator's limit, and the page is loaded unless that raised `thrown`.
     */
    twostate predicate Loaded(cached: bool, new thrown: Option<Throwable>)
      reads this, requestBuilder, requestBuilder.collection, requestBuilder.endpoint.identity
    {
      SharesCollection() && page == old(page) &&
      (thrown.None? <==> data != null) &&
      (cached ==> thrown.None? && data == old(data) && unchanged(requestBuilder, requestBuilder.collection)) &&
      (!cached ==>
        Fetch(requestBuilder, params, Some(resourcesPerRequest), page) &&
        (thrown.Some? <==> Answer(requestBuilder, params, Some(resourcesPerRequest), page).Err?) &&
        (thrown.Some? ==> thrown.value == Answer(requestBuilder, params, Some(resourcesPerRequest), page).error))
    }

    /** `requestData()`: fetch the current page only when none is loaded. */
    method RequestData() returns (r: Result<BaseCollection>)
      requires SharesCollection() && CanLoad()
      modifies this, requestBuilder, requestBuilder.collection
      ensures Loaded(old(data) != null, ErrorOf(r))
      ensures currentResourcePosition == old(currentResourcePosition)
      ensures r.Ok? ==> r.value == data
    {
      if data == null {
        var b := requestBuilder.Page(page);
        b := b.Limit(Some(resourcesPerRequest));
        var got, _ := b.Get(params);
        if got.Err? {
          return Err(got.error);
        }
        data := got.value;
      }
      r := Ok(data);
    }

    /** `resetData()`. */
    method ResetData()
      modifies this
      ensures data == null && page == old(page) && currentResourcePosition == old(currentResourcePosition)
    {
      data := null;
    }

    /**
     * `all()`: fetch the current page with no limit. The iterator's fields
     * stay as they are, but the collection it may have loaded is refilled.
     */
    method All() returns (r: Result<map<int, Value>>)
      requires Serves(requestBuilder, params, Some(-1), page)
      modifies requestBuilder, requestBuilder.collection
      ensures Fetch(requestBuilder, params, Some(-1), page)
      ensures r.Err? <==> Answer(requestBuilder, params, Some(-1), page).Err?
      ensures r.Err? ==> r.error == Answer(requestBuilder, params, Some(-1), page).error
      ensures r.Ok? ==> r.value == requestBuilder.collection.items
    {
      var b := requestBuilder.Page(page);
      b := b.Limit(Some(-1));
      var got, _ := b.Get(params);
      if got.Err? {
        return Err(got.error);
      }
      r := Ok(got.value.All());
    }

    /** `entries()`: the items of the current page. */
    method Entries() returns (r: Result<map<int, Value>>)
      requires SharesCollection() && CanLoad()
      modifies this, requestBuilder, requestBuilder.collection
      ensures Loaded(old(data) != null, ErrorOf(r))
      ensures currentResourcePosition == old(currentResourcePosition)
      ensures r.Ok? ==> r.value == requestBuilder.collection.items
    {
      var d := RequestData();
      if d.Err? {
        return Err(d.error);
      }
      r := Ok(d.value.All());
    }

    /**
     * `rewind()`: back to the first position; the loaded page is dropped
     * unless the page number is 1, and the page is loaded again. The page
     * number itself is kept, so rewinding on page k reloads page k.
     */
    method Rewind() returns (thrown: Option<Throwable>)
      requires SharesCollection()
      requires page != 1 || data == null ==> Serves(requestBuilder, params, Some(resourcesPerRequest), page)
      modifies this, requestBuilder, requestBuilder.collection
      ensures currentResourcePosition == 0
      ensures Loaded(old(page) == 1 && old(data) != null, thrown)
    {
      currentResourcePosition := 0;
      if page != 1 {
        ResetData();
      }
      var d := RequestData();
      thrown := ErrorOf(d);
    }

    /** `current()`: the item at the current position of the loaded page, null if there is none. */
    method Current() returns (r: Result<Value>)
      requires SharesCollection() && CanLoad()
      modifies this, requestBuilder, requestBuilder.collection
      ensures Loaded(old(data) != null, ErrorOf(r))
      ensures currentResourcePosition == old(currentResourcePosition)
      ensures r.Ok? ==> r.value == requestBuilder.collection.OffsetGet(currentResourcePosition)
    {
      var d := RequestData();
      if d.Err? {
        return Err(d.error);
      }
      r := Ok(d.value.OffsetGet(currentResourcePosition));
    }

    /**
     * `next()`: at the last position of a page, go to position 0 of the next
     * page and drop the loaded page; otherwise only advance the position.
     */
    method Next()
      modifies this
      ensures old(currentResourcePosition) == resourcesPerRequest - 1 ==>
        page == old(page) + 1 && currentResourcePosition == 0 && data == null
      ensures old(currentResourcePosition) != resourcesPerRequest - 1 ==>
        page == old(page) && currentResourcePosition == old(currentResourcePosition) + 1 && data == old(data)
      ensures 0 <= old(currentResourcePosition) < resourcesPerRequest ==> 0 <= currentResourcePosition < resourcesPerRequest
    {
      if currentResourcePosition == resourcesPerRequest - 1 {
        page := page + 1;
        currentResourcePosition := 0;
        ResetData();
      } else {
        currentResourcePosition := currentResourcePosition + 1;
      }
    }

    /** `valid()`: the position is below the loaded page's count and holds a non-null item. */
    method Valid() returns (r: Result<bool>)
      requires SharesCollection() && CanLoad()
      modifies this, requestBuilder, requestBuilder.collection
      ensures Loaded(old(data) != null, ErrorOf(r))
      ensures currentResourcePosition == old(currentResourcePosition)
      ensures r.Ok? ==> (r.value <==>
        currentResourcePosition < requestBuilder.collection.Count() &&
        requestBuilder.collection.OffsetExists(currentResourcePosition))
    {
      var d := RequestData();
      if d.Err? {
        return Err(d.error);
      }
      r := Ok(currentResourcePosition < d.value.Count() && d.value.OffsetExists(currentResourcePosition));
    }

    /** `key()`: the position within the current page. */
    function Key(): (k: int)
      reads this
      ensures k == currentResourcePosition
    {
      currentResourcePosition
    }

    /**
     * `toArray()`: the attribute arrays of the loaded page; an item that is
     * not a resource makes the mapping closure raise a TypeError.
     */
    method ToArray() returns (r: Result<map<int, Attrs>>)
      requires SharesCollection() && CanLoad()
      modifies this, requestBuilder, requestBuilder.collection
      ensures Loaded(old(data) != null, if data != null then None else ErrorOf(r))
      ensures currentResourcePosition == old(currentResourcePosition)
      ensures r.Ok? <==> data != null && forall k :: k in data.items ==> data.items[k].Dict?
      ensures r.Ok? ==> r.value == requestBuilder.collection.ToArray()
    {
      var d := RequestData();
      if d.Err? {
        return Err(d.error);
      }
      if forall k :: k in d.value.items ==> d.value.items[k].Dict? {
        r := Ok(d.value.ToArray());
      } else {
        r := Err(OtherThrowable("TypeError"));
      }
    }
  }

  // ---------------------------------------------------------------- iterating with foreach

  /** Page `p`, fetched with `n` per request, succeeds with a list of results. */
  predicate PageServed(b: CollectionRequestBuilder, params: Attrs, n: int, p: int)
    reads b.endpoint.identity
  {
    var a := Answer(b, params, Some(n), p);
    a.Ok? && Mappable(a.value) && Fetched(a.value, b.callback).Some?
  }

  /** The items of a served page. */
  function PageItems(b: CollectionRequestBuilder, params: Attrs, n: int, p: int): seq<Value>
    reads b.endpoint.identity
    requires PageServed(b, params, n, p)
  {
    Fetched(Answer(b, params, Some(n), p).value, b.callback).value
  }

  /** The page size is at least one, no page is longer than it, and the last page is short. */
  predicate WellPaged(pages: seq<seq<Value>>, n: int)
  {
    n >= 1 && |pages| >= 1 &&
    (forall i :: 0 <= i < |pages| ==> |pages[i]| <= n) &&
    |pages[|pages| - 1]| < n
  }

  /** Pages 1 to |pages| are served with `n` per request, page i+1 with the items `pages[i]`. */
  predicate Served(b: CollectionRequestBuilder, params: Attrs, n: int, pages: seq<seq<Value>>)
    reads b.endpoint.identity
  {
    WellPaged(pages, n) &&
    forall p :: 1 <= p <= |pages| ==> PageServed(b, params, n, p) && PageItems(b, params, n, p) == pages[p - 1]
  }

  /** Fetching page i+1 of a served listing stores exactly `pages[i]`. */
  lemma ServedPage(b: CollectionRequestBuilder, params: Attrs, n: int, pages: seq<seq<Value>>, i: int, before: map<int, Value>)
    requires Served(b, params, n, pages) && 0 <= i < |pages|
    ensures PageServed(b, params, n, i + 1) && Serves(b, params, Some(n), i + 1)
    ensures Answer(b, params, Some(n), i + 1).Ok?
    ensures ItemsAfter(Answer(b, params, Some(n), i + 1), b.callback, before) == Indexed(pages[i])
  {
    var xs := pages[i];
    assert PageServed(b, params, n, i + 1);
    assert PageItems(b, params, n, i + 1) == xs;
  }

  /**
   * What `foreach` yields from page index `p` (0-based), position `pos` on:
   * the item there while `valid()` holds, then on from the next position,
   * rolling over to the next page after position n-1.
   */
  function Rest(pages: seq<seq<Value>>, n: int, p: int, pos: int): seq<Value>
    requires WellPaged(pages, n) && 0 <= p < |pages| && 0 <= pos < n
    decreases |pages| - p, n - pos
  {
    var xs := pages[p];
    if pos < |xs| && xs[pos] != Null then
      [xs[pos]] + (if pos == n - 1 then Rest(pages, n, p + 1, 0) else Rest(pages, n, p, pos + 1))
    else []
  }

  /** The pages' items concatenated from page index `p`, up to and including the first short page. */
  function Pages(pages: seq<seq<Value>>, n: int, p: int): seq<Value>
    requires WellPaged(pages, n) && 0 <= p < |pages|
    decreases |pages| - p
  {
    var xs := pages[p];
    if |xs| < n then xs else xs + Pages(pages, n, p + 1)
  }

  /** No page holds a null item. */
  predicate NoNulls(pages: seq<seq<Value>>)
  {
    forall p, i :: 0 <= p < |pages| && 0 <= i < |pages[p]| ==> pages[p][i] != Null
  }

  /** One step of `Rest` at an item: that item, then the rest from the next position or page. */
  lemma RestStep(pages: seq<seq<Value>>, n: int, p: int, pos: int)
    requires WellPaged(pages, n) && 0 <= p < |pages| && 0 <= pos < n
    requires pos < |pages[p]| && pages[p][pos] != Null
    ensures pos == n - 1 ==> p + 1 < |pages|
    ensures pos == n - 1 ==> Rest(pages, n, p, pos) == [pages[p][pos]] + Rest(pages, n, p + 1, 0)
    ensures pos != n - 1 ==> Rest(pages, n, p, pos) == [pages[p][pos]] + Rest(pages, n, p, pos + 1)
  {
  }

  /** Without null items, iteration yields the rest of the page and then the following pages. */
  lemma {:induction false} RestIsPages(pages: seq<seq<Value>>, n: int, p: int, pos: int)
    requires WellPaged(pages, n) && NoNulls(pages)
    requires 0 <= p < |pages| && 0 <= pos < n && pos <= |pages[p]|
    ensures Rest(pages, n, p, pos) ==
      pages[p][pos..] + (if |pages[p]| < n then [] else Pages(pages, n, p + 1))
    decreases |pages| - p, n - pos
  {
    var xs := pages[p];
    if pos < |xs| {
      assert xs[pos] != Null;
      RestStep(pages, n, p, pos);
      if pos == n - 1 {
        RestIsPages(pages, n, p + 1, 0);
        assert pages[p + 1][0..] == pages[p + 1];
        assert xs[pos..] == [xs[pos]];
      } else {
        RestIsPages(pages, n, p, pos + 1);
        assert xs[pos..] == [xs[pos]] + xs[pos + 1..];
      }
    }
  }

  /** The items `valid()` sees on a loaded page are the page's items. */
  lemma IndexedItems(xs: seq<Value>, pos: int)
    requires 0 <= pos
    ensures |Indexed(xs)| == |xs|
    ensures pos < |xs| ==> pos in Indexed(xs) && Indexed(xs)[pos] == xs[pos]
  {
    IndexedCount(xs);
  }

  /** The iterator stands at a position of a loaded page of a served listing. */
  predicate Positioned(it: CollectionIterator, pages: seq<seq<Value>>)
    reads it, it.requestBuilder.collection, it.requestBuilder.endpoint.identity
  {
    var b, n := it.requestBuilder, it.resourcesPerRequest;
    Served(b, it.params, n, pages) &&
    it.data == b.collection &&
    1 <= it.page <= |pages| && 0 <= it.currentResourcePosition < n &&
    b.collection.items == Indexed(pages[it.page - 1])
  }

  /** What `valid()` answers there: the page has a non-null item at the position. */
  predicate AtItem(it: CollectionIterator, pages: seq<seq<Value>>)
    reads it, it.requestBuilder.collection, it.requestBuilder.endpoint.identity
    requires Positioned(it, pages)
  {
    var xs := pages[it.page - 1];
    it.currentResourcePosition < |xs| && xs[it.currentResourcePosition] != Null
  }

  /** `rewind()` then `valid()` on a fresh iterator: page 1 is loaded, at position 0. */
  method Start(it: CollectionIterator, ghost pages: seq<seq<Value>>) returns (v: Result<bool>)
    requires it.SharesCollection() && it.data == null && it.page == 1 && it.currentResourcePosition == 0
    requires Served(it.requestBuilder, it.params, it.resourcesPerRequest, pages)
    modifies it, it.requestBuilder, it.requestBuilder.collection
    ensures Positioned(it, pages) && it.page == 1 && it.currentResourcePosition == 0
    ensures v == Ok(AtItem(it, pages))
  {
    ServedPage(it.requestBuilder, it.params, it.resourcesPerRequest, pages, 0, it.requestBuilder.collection.items);
    var thrown := it.Rewind();
    IndexedItems(pages[0], 0);
    v := it.Valid();
  }

  /** `current()` at an item: the loaded page's item at the position; nothing moves. */
  method Take(it: CollectionIterator, ghost pages: seq<seq<Value>>) returns (item: Value)
    requires Positioned(it, pages) && AtItem(it, pages)
    modifies it, it.requestBuilder, it.requestBuilder.collection
    ensures Positioned(it, pages)
    ensures it.page == old(it.page) && it.currentResourcePosition == old(it.currentResourcePosition)
    ensures item == pages[it.page - 1][it.currentResourcePosition]
  {
    IndexedItems(pages[it.page - 1], it.currentResourcePosition);
    var c := it.Current();
    item := c.value;
  }

  /** `next()` then `valid()` inside a page: the next position of the same loaded page. */
  method Advance(it: CollectionIterator, ghost pages: seq<seq<Value>>) returns (v: Result<bool>)
    requires Positioned(it, pages) && it.currentResourcePosition != it.resourcesPerRequest - 1
    modifies it, it.requestBuilder, it.requestBuilder.collection
    ensures Positioned(it, pages)
    ensures it.page == old(it.page) && it.currentResourcePosition == old(it.currentResourcePosition) + 1
    ensures v == Ok(AtItem(it, pages))
  {
    it.Next();
    IndexedItems(pages[it.page - 1], it.currentResourcePosition);
    v := it.Valid();
  }

  /** `valid()` with no page loaded: the current page is fetched, the position kept. */
  method Load(it: CollectionIterator, ghost pages: seq<seq<Value>>) returns (v: Result<bool>)
    requires it.data == null && 1 <= it.page <= |pages| && 0 <= it.currentResourcePosition < it.resourcesPerRequest
    requires Served(it.requestBuilder, it.params, it.resourcesPerRequest, pages)
    modifies it, it.requestBuilder, it.requestBuilder.collection
    ensures Positioned(it, pages)
    ensures it.page == old(it.page) && it.currentResourcePosition == old(it.currentResourcePosition)
    ensures v == Ok(AtItem(it, pages))
  {
    var b := it.requestBuilder;
    ServedPage(b, it.params, it.resourcesPerRequest, pages, it.page - 1, b.collection.items);
    IndexedItems(pages[it.page - 1], it.currentResourcePosition);
    v := it.Valid();
  }

  /** `next()` then `valid()` at the last position of a full page: the next page is fetched. */
  method Roll(it: CollectionIterator, ghost pages: seq<seq<Value>>) returns (v: Result<bool>)
    requires Positioned(it, pages) && AtItem(it, pages)
    requires it.currentResourcePosition == it.resourcesPerRequest - 1
    modifies it, it.requestBuilder, it.requestBuilder.collection
    ensures Positioned(it, pages)
    ensures it.page == old(it.page) + 1 && it.currentResourcePosition == 0
    ensures v == Ok(AtItem(it, pages))
  {
    assert |pages[it.page - 1]| == it.resourcesPerRequest;
    it.Next();
    v := Load(it, pages);
  }

  /**
   * `current()`, `next()`, `valid()` at an item: yields that item and moves
   * to the next position, or to the first position of the next page.
   */
  method Step(it: CollectionIterator, ghost pages: seq<seq<Value>>) returns (item: Value, v: Result<bool>)
    requires Positioned(it, pages) && AtItem(it, pages)
    modifies it, it.requestBuilder, it.requestBuilder.collection
    ensures Positioned(it, pages)
    ensures v == Ok(AtItem(it, pages))
    ensures item == pages[old(it.page) - 1][old(it.currentResourcePosition)]
    ensures old(it.currentResourcePosition) == it.resourcesPerRequest - 1 ==>
      it.page == old(it.page) + 1 && it.currentResourcePosition == 0
    ensures old(it.currentResourcePosition) != it.resourcesPerRequest - 1 ==>
      it.page == old(it.page) && it.currentResourcePosition == old(it.currentResourcePosition) + 1
  {
    item := Take(it, pages);
    if it.currentResourcePosition == it.resourcesPerRequest - 1 {
      v := Roll(it, pages);
    } else {
      v := Advance(it, pages);
    }
  }

  /** Yielding the item at page index `p`, position `pos` moves it from what is left to what was yielded. */
  lemma StepRest(pages: seq<seq<Value>>, n: int, p: int, pos: int, p': int, pos': int, out: seq<Value>, total: seq<Value>)
    requires WellPaged(pages, n) && 0 <= p < |pages| && 0 <= pos < n
    requires pos < |pages[p]| && pages[p][pos] != Null
    requires pos == n - 1 ==> p' == p + 1 && pos' == 0
    requires pos != n - 1 ==> p' == p && pos' == pos + 1
    requires 0 <= p' < |pages| && 0 <= pos' < n
    requires out + Rest(pages, n, p, pos) == total
    ensures (out + [pages[p][pos]]) + Rest(pages, n, p', pos') == total
  {
    var item, rest := pages[p][pos], Rest(pages, n, p', pos');
    RestStep(pages, n, p, pos);
    AppendOne(out, item, rest);
  }

  /** Moving one item from the front of what is left to the end of what was yielded. */
  lemma AppendOne(out: seq<Value>, item: Value, rest: seq<Value>)
    ensures (out + [item]) + rest == out + ([item] + rest)
  {
  }

  /** One round of the `foreach` loop: the item yielded is appended, and what is left shrinks by it. */
  method Yield(it: CollectionIterator, ghost pages: seq<seq<Value>>, out: seq<Value>, ghost total: seq<Value>)
    returns (out': seq<Value>, v: Result<bool>)
    requires Positioned(it, pages) && AtItem(it, pages)
    requires out + Rest(pages, it.resourcesPerRequest, it.page - 1, it.currentResourcePosition) == total
    modifies it, it.requestBuilder, it.requestBuilder.collection
    ensures Positioned(it, pages)
    ensures v == Ok(AtItem(it, pages))
    ensures out' + Rest(pages, it.resourcesPerRequest, it.page - 1, it.currentResourcePosition) == total
    ensures it.page > old(it.page) ||
      (it.page == old(it.page) && it.currentResourcePosition > old(it.currentResourcePosition))
  {
    ghost var p, pos := it.page - 1, it.currentResourcePosition;
    var item;
    item, v := Step(it, pages);
    StepRest(pages, it.resourcesPerRequest, p, pos, it.page - 1, it.currentResourcePosition, out, total);
    out' := out + [item];
  }

  /** When `valid()` fails, what was yielded is all of `Rest` from the start, and without nulls the pages in order. */
  lemma Finish(pages: seq<seq<Value>>, n: int, p: int, pos: int, out: seq<Value>)
    requires WellPaged(pages, n) && 0 <= p < |pages| && 0 <= pos < n
    requires !(pos < |pages[p]| && pages[p][pos] != Null)
    requires out + Rest(pages, n, p, pos) == Rest(pages, n, 0, 0)
    ensures out == Rest(pages, n, 0, 0)
    ensures NoNulls(pages) ==> out == Pages(pages, n, 0)
  {
    assert Rest(pages, n, p, pos) == [];
    assert out + [] == out;
    if NoNulls(pages) {
      RestIsPages(pages, n, 0, 0);
    }
  }

  /**
   * PHP's `foreach` over a fresh iterator: `rewind()`, then `current()` and
   * `next()` while `valid()`. When pages 1 to |pages| are served, page i+1
   * with `pages[i]`, and only the last is short, it yields `Rest` from the
   * first position of page 1, which is the pages concatenated in order when
   * no item is null.
   */
  method Foreach(it: CollectionIterator, ghost pages: seq<seq<Value>>) returns (out: seq<Value>)
    requires it.SharesCollection() && it.data == null && it.page == 1 && it.currentResourcePosition == 0
    requires Served(it.requestBuilder, it.params, it.resourcesPerRequest, pages)
    modifies it, it.requestBuilder, it.requestBuilder.collection
    ensures out == Rest(pages, it.resourcesPerRequest, 0, 0)
    ensures NoNulls(pages) ==> out == Pages(pages, it.resourcesPerRequest, 0)
  {
    var v := Start(it, pages);
    out := [];
    while v == Ok(true)
      invariant Positioned(it, pages)
      invariant v == Ok(AtItem(it, pages))
      invariant out + Rest(pages, it.resourcesPerRequest, it.page - 1, it.currentResourcePosition) ==
        Rest(pages, it.resourcesPerRequest, 0, 0)
      decreases |pages| - it.page, it.resourcesPerRequest - it.currentResourcePosition
    {
      out, v := Yield(it, pages, out, Rest(pages, it.resourcesPerRequest, 0, 0));
    }
    Finish(pages, it.resourcesPerRequest, it.page - 1, it.currentResourcePosition, out);
  }
}
