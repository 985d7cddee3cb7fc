# LicenseJet PHP SDK — a Dafny model of its core

This project models the core of the LicenseJet PHP SDK, a client library for the LicenseJet licensing API, and proves properties of that model. The core has four parts.

- **Attribute store.** A `Resource` keeps its current `attributes` and the `originalAttributes` it was built from, as nested string-keyed arrays.
  - `dotGet` reads a key. It tries the literal key first, then walks the `.`-separated segments.
  - `dotSet` writes a key. It always splits on `.` and replaces missing or non-array intermediates with arrays.
  - `changes()` lists what differs from the snapshot.
- **Typed resources.** `Term`, `License`, `LicensingPlan`, `LicenseKey` and `User` are getters and setters over that store.
- **Paginated listing.** `CollectionRequestBuilder::get()` fetches one page into the single `BaseCollection` the builder owns. `CollectionIterator` walks the pages lazily through the builder. The page the iterator has loaded *is* the builder's collection (`Paging.CollectionIterator.SharesCollection`), so every fetch, whichever member made it, changes what the iterator holds.
- **Small helpers.**
  - `Response`: success status, error message, payload default.
  - `LicenseJetException::isNotFound`: a walk down the previous-exception chain.
  - `Identity::normalizeUrl` and `getUrl`.
  - `Endpoint::request`: builds the request and wraps failures.

How the PHP is represented:

- **Values.** A decoded JSON value is the datatype `Values.Value`: null, bool, int, string, list, or string-keyed map. A resource inside a collection is its attribute array (`Dict`).
- **Getters** are pure functions of the attribute map. **Setters** are methods on the `Resources.Resource` object and name the new attribute map exactly.
- **The network.** The HTTP client is the function `Endpoints.Endpoint.send`. It maps each request to one of three outcomes:
  - a delivered response (status, reason phrase, decoded payload);
  - the client's `ClientException` for a 4xx status;
  - any other failure.
- **Exceptions** are values. A call that may raise returns `Exceptions.Result`, or the `Option<Throwable>` it raised.
- **Request log.** The builder keeps a ghost `requestLog` of every query it sends. It is what lets the model state which calls send requests and which do not.

Where the source's comments and its code disagree, the model follows the code (LicenseJet/RequestBuilder/CollectionRequestBuilder.php:140 says a failed request returns an empty collection):

- **A failed listing raises.** The identity's HTTP client leaves the client's `http_errors` default on, so a 4xx or 5xx response is raised by the client, and `Endpoint::request` rethrows it as a `LicenseJetException` (LicenseJet/Endpoint/Endpoint.php:77-86). A listing `get()` on a 500 therefore raises; it does not return an empty collection.
  - Only a delivered response whose status is neither 200 nor 304 takes the soft-fail path (LicenseJet/RequestBuilder/CollectionRequestBuilder.php:141-144).
- **A soft fail returns the shared collection, not an empty one.** That collection still holds whatever an earlier successful `get()` stored. So after a soft fail on page k+1, an iterator sees page k's items again.

Behaviour of the code worth knowing:

- **`contains` uses loose `==`.** It compares a `?int` id with `==`, so an item without an id matches 0 (`BaseCollections.HasId`).
- **A short page stops iteration.** Iteration stops at the first page shorter than the page size without fetching the next page. It also stops at the first null item, because `valid()` uses `isset`.

## Model

| member | source | states |
|---|---|---|
| Values.IndexedCount | LicenseJet/Collection/BaseCollection.php:72-75 | a list stored as a PHP array has as many entries as the list has elements |
| Strings.Split | LicenseJet/Resource/Resource.php:159 | `explode` always yields at least one part; no part holds the separator; joining the parts gives back the string; there is one part exactly when the separator is absent |
| Strings.SplitPrefix | LicenseJet/Resource/Resource.php:159 | exploding `a.rest`, where `a` has no dot, yields `a` followed by the parts of `rest` |
| Strings.SplitJoin | LicenseJet/Resource/Resource.php:186 | exploding parts joined with the separator gives back the parts, when none holds the separator |
| Strings.Upper | LicenseJet/Endpoint/Endpoint.php:48 | `strtoupper` keeps the length, turns each ASCII lower-case letter into its capital (code point minus 32) and keeps every other character |
| Strings.UpperEqual | LicenseJet/Endpoint/Endpoint.php:48 | two method names upper-case to the same string exactly when they differ only in the case of ASCII letters |
| Strings.UpperIdempotent | LicenseJet/Endpoint/Endpoint.php:48 | upper-casing twice is upper-casing once |
| Resources.DotGet | LicenseJet/Resource/Resource.php:149-157 | a present literal key wins, even when it holds a dot or a null; an absent key without a dot gives the default |
| Resources.SplitPath2 | LicenseJet/Resource/Resource.php:159 | `outer.inner` explodes into exactly `outer` and `inner` |
| Resources.DotGetNested | LicenseJet/Resource/Resource.php:159-171 | for `outer.inner` with no literal key: the nested value when `outer` holds an array containing `inner`, the default at the first missing segment |
| Resources.CanDotGetNested | LicenseJet/Resource/Resource.php:159-171 | the walk over `outer.inner` avoids non-array intermediates exactly when the literal key exists or `outer`, if present, holds an array |
| Resources.Attribute | LicenseJet/Resource/Resource.php:70-73 | `getAttribute` of a dotless name is the attribute, null when absent |
| Resources.Nested | LicenseJet/Resource/Resource.php:149-171 | `getAttribute('outer.inner')` is the literal key when present, else the nested value or null |
| Resources.IntOrNull | LicenseJet/Resource/LicenseKey.php:20-25 | the `is_null` then `(int)` projection: null exactly for null, otherwise the integer stored |
| Resources.DotSet | LicenseJet/Resource/Resource.php:184-205 | only the first segment's top-level key is added or replaced; every other top-level key keeps its value |
| Resources.DotSetFlat | LicenseJet/Resource/Resource.php:184-205 | a dotless `dotSet` is a plain assignment of that key |
| Resources.DotSetNested | LicenseJet/Resource/Resource.php:191-202 | `dotSet('outer.inner', v)` puts v under `inner` of the array at `outer`; a missing, null or scalar `outer` becomes a new array, and the other entries of an existing array are kept |
| Resources.WalkSetPath | LicenseJet/Resource/Resource.php:159-204 | walking the segments just written by `dotSet` reaches the written value |
| Resources.DotSetThenGet | LicenseJet/Resource/Resource.php:149-204 | `dotGet(dotSet(a, k, v), k) == v` whenever no literal dotted key `k` shadows the path |
| Resources.DotSetOtherKey | LicenseJet/Resource/Resource.php:184-205 | `dotSet` does not change what a dotless key other than the first segment reads |
| Resources.DiffAfterConstruction | LicenseJet/Resource/Resource.php:117-130 | right after construction `changes()` is exactly the null-valued attributes, since `isset` treats null as unset |
| Resources.DiffIgnoresRemovedKeys | LicenseJet/Resource/Resource.php:121-128 | a key present only in the original attributes is never listed as a change |
| Resources.Resource.constructor | LicenseJet/Resource/Resource.php:36-40 | both attribute maps equal the input, and `toArray()` returns it |
| Resources.Resource.CreateFromArray | LicenseJet/Resource/Resource.php:213-216 | a new resource whose attributes and snapshot are the given array |
| Resources.Resource.GetId | LicenseJet/Resource/Resource.php:47-50 | the `id` attribute, null when absent |
| Resources.Resource.ToArray | LicenseJet/Resource/Resource.php:57-60 | the current attributes, changes included |
| Resources.Resource.GetAttribute | LicenseJet/Resource/Resource.php:70-73 | a present literal key wins; an absent dotless name gives the default; an absent dotted name walks the nested arrays segment by segment |
| Resources.Resource.SetAttribute | LicenseJet/Resource/Resource.php:82-85 | the attributes become the `dotSet` of the old ones; the snapshot is untouched |
| Resources.Resource.SetNestedAttribute | LicenseJet/Resource/Resource.php:82-85 | `setAttribute('outer.inner', v)` stores v in the (possibly new) array under `outer`, keeping its other entries |
| Resources.Resource.Fill | LicenseJet/Resource/Resource.php:93-101 | returns the same resource; the given keys are overwritten, the others kept, the snapshot untouched |
| Resources.Resource.Changes | LicenseJet/Resource/Resource.php:117-130 | a key is in `changes()` exactly when it is a current attribute whose original is absent, null or different, with the current value |
| Resources.Resource.HasChanges | LicenseJet/Resource/Resource.php:107-110 | true exactly when `changes()` is non-empty, i.e. some current attribute changed |
| Terms.Create | LicenseJet/Resource/Term.php:66-72 | the term's attributes are exactly `identifier` and `length`, and its getters give back both inputs |
| Terms.GetIdentifier | LicenseJet/Resource/Term.php:18-21 | the `identifier` attribute, null when absent |
| Terms.GetLength | LicenseJet/Resource/Term.php:30-33 | the `length` attribute, null when absent |
| Terms.GetSingularName | LicenseJet/Resource/Term.php:42-45 | a literal `name.singular` key when one exists, else the nested `name.singular`, null when absent |
| Terms.GetPluralName | LicenseJet/Resource/Term.php:54-57 | a literal `name.plural` key when one exists, else the nested `name.plural`, null when absent |
| Terms.GetEstimatedMinutes | LicenseJet/Resource/Term.php:79-82 | a literal `length_estimate.minutes` key when one exists, else the nested `length_estimate.minutes`, null when absent |
| Terms.GetEstimatedHours | LicenseJet/Resource/Term.php:89-92 | a literal `length_estimate.hours` key when one exists, else the nested `length_estimate.hours`, null when absent |
| Terms.GetEstimatedDays | LicenseJet/Resource/Term.php:99-102 | a literal `length_estimate.days` key when one exists, else the nested `length_estimate.days`, null when absent |
| Terms.ReadTerm | LicenseJet/Resource/License.php:48-52 | a term rebuilt from `outer.identifier` and `outer.length` is the term stored under `outer` |
| Licenses.SetType | LicenseJet/Resource/License.php:32-35 | `setType` writes only `type`, and `getType` reads it back |
| Licenses.GetType | LicenseJet/Resource/License.php:20-23 | the `type` attribute, null when absent |
| Licenses.IsSubscription | LicenseJet/Resource/License.php:466-469 | holds exactly when the type is "subscription" |
| Licenses.IsPerpetual | LicenseJet/Resource/License.php:476-479 | holds exactly when the type is "perpetual" |
| Licenses.IsPermanent | LicenseJet/Resource/License.php:486-489 | `isPermanent` holds exactly when the type is "perpetual", as `isPerpetual` |
| Licenses.TypePredicates | LicenseJet/Resource/License.php:466-479 | never both subscription and perpetual; after `setType(k)` `isSubscription` holds iff k is "subscription", `isPerpetual` iff "perpetual" |
| Licenses.GetSubscriptionTerm | LicenseJet/Resource/License.php:42-53 | null unless the license is a subscription; otherwise the term stored under `subscription_term` |
| Licenses.SetSubscriptionTerm | LicenseJet/Resource/License.php:62-65 | stores the term's attribute array under `subscription_term`, nothing else changes |
| Licenses.SubscriptionTermRoundTrip | LicenseJet/Resource/License.php:42-65 | on a subscription, the term set is read back with its identifier and length |
| Licenses.SetAccessKey | LicenseJet/Resource/License.php:82-85 | writes only `access_key`, and `getAccessKey` reads it back |
| Licenses.GetAccessKey | LicenseJet/Resource/License.php:72-75 | the `access_key` attribute, null when absent |
| Licenses.GetStatus | LicenseJet/Resource/License.php:94-97 | the `status` attribute, null when absent |
| Licenses.IsActive | LicenseJet/Resource/License.php:496-499 | holds exactly when the status is "active" |
| Licenses.IsExpired | LicenseJet/Resource/License.php:506-509 | holds exactly when the status is "expired" |
| Licenses.IsSuspended | LicenseJet/Resource/License.php:516-519 | holds exactly when the status is "suspended" |
| Licenses.SetStatus | LicenseJet/Resource/License.php:106-109 | after `setStatus(s)`, `isActive`, `isExpired`, `isSuspended` each hold exactly for the matching string |
| Licenses.StatusPredicatesExclusive | LicenseJet/Resource/License.php:496-519 | at most one of the status predicates holds |
| Licenses.GetKeyLimit | LicenseJet/Resource/License.php:116-124 | null when `key_limit` is absent or null, else its integer |
| Licenses.SetKeyLimit | LicenseJet/Resource/License.php:131-134 | writes only `key_limit`; `getKeyLimit` gives back the value, null included |
| Licenses.SetTransferable | LicenseJet/Resource/License.php:209-212 | writes only `transferable`; `isTansferable` gives back the flag |
| Licenses.IsTransferable | LicenseJet/Resource/License.php:196-199 | `transferable == 1` under loose comparison: true for `true`, 1 and "1"; for a stored bool, the bool itself |
| Licenses.IsTransferReady | LicenseJet/Resource/License.php:222-225 | the `(bool)` cast: the truthiness of `transfer_ready`, false when absent |
| Licenses.GetUserId | LicenseJet/Resource/License.php:252-260 | null when `user_id` is absent or null, else its integer |
| Licenses.SetUserId | LicenseJet/Resource/License.php:267-270 | writes only `user_id`; `getUserId` gives back the value, null included |
| Licenses.GetLicensingPlanId | LicenseJet/Resource/License.php:277-285 | null when `licensing_plan_id` is absent or null, else its integer |
| Licenses.SetLicensingPlanId | LicenseJet/Resource/License.php:293-296 | writes only `licensing_plan_id`; the getter gives it back |
| Licenses.GetProjectId | LicenseJet/Resource/License.php:305-313 | null when `project_id` is absent or null, else its integer |
| Licenses.GetProjectIdentifier | LicenseJet/Resource/License.php:322-325 | the `project_identifier` attribute, null when absent |
| Licenses.GetUpdateAccessRestrictions | LicenseJet/Resource/License.php:344-352 | null unless the attribute is an array, which is then returned |
| Licenses.SetUpdateAccessRestrictions | LicenseJet/Resource/License.php:359-362 | writes only the attribute; the getter gives back the list, null included |
| Licenses.GetUpdateAccessExpirationTerm | LicenseJet/Resource/License.php:398-404 | never null: always a term, built from the nested identifier and length |
| Licenses.SetUpdateAccessExpirationTerm | LicenseJet/Resource/License.php:413-417 | writes the two nested keys, creating the array when needed and keeping its other entries |
| Licenses.UpdateAccessTermRoundTrip | LicenseJet/Resource/License.php:398-417 | the term set is read back with its identifier and length |
| Licenses.SetUpdateAccessExpirationVersion | LicenseJet/Resource/License.php:436-439 | writes only the version; the getter gives it back, null included |
| Licenses.GetUpdateAccessExpirationVersion | LicenseJet/Resource/License.php:426-429 | the `update_access_expiration_version` attribute, null when absent |
| Licenses.GetSuspensionReason | LicenseJet/Resource/License.php:456-459 | the `suspension_reason` attribute, null when absent |
| LicensingPlans.GetTransferLock | LicenseJet/Resource/LicensingPlan.php:60-63 | the `bool` return: a TypeError exactly when `license_transfer_lock` is absent, null or an array; otherwise its truthiness, the flag itself when it is a bool |
| LicensingPlans.GetIdentifier | LicenseJet/Resource/LicensingPlan.php:18-21 | the `identifier` attribute, null when absent |
| LicensingPlans.GetName | LicenseJet/Resource/LicensingPlan.php:28-31 | the `name` attribute, null when absent |
| LicensingPlans.GetType | LicenseJet/Resource/LicensingPlan.php:40-43 | the `type` attribute, null when absent |
| LicensingPlans.GetText | LicenseJet/Resource/LicensingPlan.php:50-53 | the `text` attribute, null when absent |
| LicensingPlans.GetProjectIdentifier | LicenseJet/Resource/LicensingPlan.php:70-73 | the `project_identifier` attribute, null when absent |
| LicensingPlans.IsSubscription | LicenseJet/Resource/LicensingPlan.php:198-201 | holds exactly when the type is "subscription" |
| LicensingPlans.IsPerpetual | LicenseJet/Resource/LicensingPlan.php:208-211 | holds exactly when the type is "perpetual" |
| LicensingPlans.GetUpdateAccessExpirationVersion | LicenseJet/Resource/LicensingPlan.php:165-168 | the `update_access_expiration_version` attribute, null when absent |
| LicensingPlans.GetProjectId | LicenseJet/Resource/LicensingPlan.php:80-88 | null when `project_id` is absent or null, else its integer |
| LicensingPlans.GetProjectName | LicenseJet/Resource/LicensingPlan.php:95-98 | a literal `project.name` key when one exists, else the nested `project.name`, null when absent |
| LicensingPlans.IsPermanent | LicenseJet/Resource/LicensingPlan.php:218-221 | `isPermanent` holds exactly when the type is "perpetual" |
| LicensingPlans.GetSubscriptionTerm | LicenseJet/Resource/LicensingPlan.php:105-116 | null unless the plan is a subscription; otherwise the term stored under `subscription_term` |
| LicensingPlans.GetUpdateAccessRestrictions | LicenseJet/Resource/LicensingPlan.php:125-133 | null unless the attribute is an array, which is then returned |
| LicensingPlans.GuardedTerm | LicenseJet/Resource/LicensingPlan.php:140-156 | null exactly when the nested identifier or length is falsy (missing, null, "", "0", 0, false, []); otherwise the stored term |
| LicensingPlans.GetUpdateAccessExpirationTerm | LicenseJet/Resource/LicensingPlan.php:140-156 | a returned term has a truthy identifier and length |
| LicensingPlans.GetTransferRestrictionTerm | LicenseJet/Resource/LicensingPlan.php:175-191 | same falsy guard on `transfer_restriction_term` |
| LicensingPlans.GuardedStoredTerm | LicenseJet/Resource/LicensingPlan.php:140-156 | a plan storing the term `create(identifier, length)` yields it exactly when both parts are truthy, null otherwise |
| LicenseKeys.GetLicenseId | LicenseJet/Resource/LicenseKey.php:18-26 | null when `license_id` is absent or null, else its integer |
| LicenseKeys.SetLicenseId | LicenseJet/Resource/LicenseKey.php:33-36 | writes only `license_id`; `getLicenseId` gives it back |
| LicenseKeys.SetHost | LicenseJet/Resource/LicenseKey.php:53-56 | writes only `host`; `getHost` gives it back, null included |
| LicenseKeys.GetHost | LicenseJet/Resource/LicenseKey.php:43-46 | the `host` attribute, null when absent |
| LicenseKeys.GetSuspensionReason | LicenseJet/Resource/LicenseKey.php:90-93 | the `suspension_reason` attribute, null when absent |
| LicenseKeys.GetKey | LicenseJet/Resource/LicenseKey.php:63-66 | the `key` attribute, null when absent |
| LicenseKeys.GetStatus | LicenseJet/Resource/LicenseKey.php:75-83 | the null guard changes nothing: a plain lookup of `status` |
| Users.SetEmail | LicenseJet/Resource/User.php:26-29 | writes only `email`; `getEmail` gives it back |
| Users.GetEmail | LicenseJet/Resource/User.php:16-19 | the `email` attribute, null when absent |
| Users.SetName | LicenseJet/Resource/User.php:46-49 | writes only `name`; `getName` gives it back |
| Users.GetName | LicenseJet/Resource/User.php:36-39 | the `name` attribute, null when absent |
| Users.SetAuthentication | LicenseJet/Resource/User.php:66-69 | writes only `authentication`; `getAuthentication` (`== 1`) gives back the flag |
| Users.GetAuthentication | LicenseJet/Resource/User.php:56-59 | `authentication == 1` under loose comparison: true for `true`, 1 and "1"; for a stored bool, the bool itself |
| Users.SetPassword | LicenseJet/Resource/User.php:76-79 | writes `password`, which then appears in `toArray()` |
| Users.EmailNameRoundTrip | LicenseJet/Resource/User.php:16-49 | writing one of email and name does not disturb reading the other |
| Responses.Response.IsSuccessful | LicenseJet/Response.php:100-103 | true exactly for status 200 or 304 |
| Responses.Response.ErrorMessage | LicenseJet/Response.php:58-71 | null exactly when successful, the reason phrase otherwise |
| Responses.Response.Payload | LicenseJet/Response.php:80-83 | the payload when truthy, else the default |
| Responses.Response.StatusCode | LicenseJet/Response.php:90-93 | the status of the response |
| Responses.EmptyPayloadGivesDefault | LicenseJet/Response.php:80-83 | an empty array, empty string or null payload yields the default |
| Exceptions.Root | LicenseJet/LicenseJetException.php:23-31 | the root cause of a chain: never a LicenseJetException that has a previous exception |
| Exceptions.IsNotFound | LicenseJet/LicenseJetException.php:19-34 | true exactly when the root cause of the chain is a ClientException for status 404 |
| Exceptions.Wrap | LicenseJet/LicenseJetException.php:23-26 | wrapping at least once yields a LicenseJetException |
| Exceptions.WrapKeepsNotFound | LicenseJet/LicenseJetException.php:23-26 | any depth of wrapping keeps a LicenseJetException's answer |
| Exceptions.WrappedClientException | LicenseJet/LicenseJetException.php:23-31 | however deep a ClientException is wrapped, the chain is "not found" exactly for 404 |
| Exceptions.NotFoundIsWrapped404 | LicenseJet/LicenseJetException.php:19-34 | conversely, every "not found" exception is a 404 ClientException wrapped in one LicenseJetException or more |
| Identities.ReplaceDoubleSlashes | LicenseJet/Identity.php:92 | one `str_replace` pass never lengthens, strictly shortens a string holding "//", and leaves other strings alone |
| Identities.ReplaceKeepsCollapse | LicenseJet/Identity.php:90-93 | a pass does not change the string with its slash runs collapsed |
| Identities.CollapseHasNoDoubleSlash | LicenseJet/Identity.php:90-95 | a collapsed string holds no "//" |
| Identities.CollapseKeeps | LicenseJet/Identity.php:90-95 | a string without "//" is its own collapse |
| Identities.NormalizeIdempotent | LicenseJet/Identity.php:88-96 | normalising twice is normalising once |
| Identities.Identity.constructor | LicenseJet/Identity.php:37-42 | keeps the base URL, the key and the timeout (10 by default); `getKey` returns the key |
| Identities.Identity.GetKey | LicenseJet/Identity.php:77-80 | the API key the identity was built with |
| Identities.Identity.GetClientTimeout | LicenseJet/Identity.php:103-106 | the timeout when one is set; a TypeError when it is null |
| Identities.Identity.SetClientTimeout | LicenseJet/Identity.php:113-116 | `getClientTimeout` reads back a timeout set, and raises after null is set |
| Identities.Identity.NormalizeUrl | LicenseJet/Identity.php:88-96 | the loop ends; the result holds no "//", is the path with slash runs collapsed, and is the input itself when that holds no "//" |
| Identities.Identity.GetUrl | LicenseJet/Identity.php:67-70 | base, "/", then the normalised path; the base is not normalised, so `getUrl('/')` ends in "//" |
| Endpoints.Headers | LicenseJet/Endpoint/Endpoint.php:54-57 | every request carries `Authorization: APIKEY <key>` and `Accept: application/json`, and nothing else |
| Endpoints.RequestFor | LicenseJet/Endpoint/Endpoint.php:54-70 | POST with parameters sends them only as a JSON body, any other method only as a query string, empty parameters neither |
| Endpoints.Delivery | LicenseJet/Endpoint/Endpoint.php:75-86 | a delivered response is returned; a ClientException becomes "Request failed: " + reason with it as previous; any other failure "Request failed. Error: " + message; only a 404 ClientException is "not found" |
| Endpoints.Endpoint.constructor | LicenseJet/Endpoint/Endpoint.php:31-34 | keeps the identity and the HTTP client |
| Endpoints.Endpoint.Request | LicenseJet/Endpoint/Endpoint.php:46-87 | with a null client timeout, raises the TypeError of `getClientTimeout()` unwrapped and sends nothing; otherwise sends the request built for the upper-cased method and returns the response or raises the wrapped failure, which is then always a LicenseJetException |
| Endpoints.MethodIsCaseInsensitive | LicenseJet/Endpoint/Endpoint.php:48-70 | every spelling of "post" that differs only in case sends non-empty parameters as a JSON body; every other method sends them as a query string |
| Endpoints.PutSendsQuery | LicenseJet/Endpoint/Endpoint.php:66-70 | PUT with parameters sends them as a query string |
| BaseCollections.BaseCollection.constructor | LicenseJet/Collection/BaseCollection.php:26-29 | the items given, or none; null or an empty array gives count 0 |
| BaseCollections.BaseCollection.SetItems | LicenseJet/Collection/BaseCollection.php:51-54 | replaces the items entirely; the count is the new array's size |
| BaseCollections.BaseCollection.Map | LicenseJet/Collection/BaseCollection.php:62-65 | one result per item, under the item's key |
| BaseCollections.BaseCollection.Count | LicenseJet/Collection/BaseCollection.php:72-75 | the number of offsets in use; 0 exactly when the collection is empty |
| BaseCollections.BaseCollection.All | LicenseJet/Collection/BaseCollection.php:82-85 | the items under their own offsets |
| BaseCollections.BaseCollection.ToArray | LicenseJet/Collection/BaseCollection.php:38-44 | each resource's attribute array under the same key |
| BaseCollections.BaseCollection.Contains | LicenseJet/Collection/BaseCollection.php:93-101 | true exactly when some item's id equals the given id (null equals 0); false on an empty collection |
| BaseCollections.BaseCollection.OffsetExists | LicenseJet/Collection/BaseCollection.php:110-113 | false for an absent offset and for one holding null |
| BaseCollections.BaseCollection.OffsetGet | LicenseJet/Collection/BaseCollection.php:122-125 | the item at the offset, null when absent |
| BaseCollections.BaseCollection.OffsetSet | LicenseJet/Collection/BaseCollection.php:134-137 | `offsetGet` then returns the value; every other offset reads as before; `contains()` then finds the id of the stored resource |
| BaseCollections.BaseCollection.OffsetUnset | LicenseJet/Collection/BaseCollection.php:145-148 | removes only that offset, without renumbering; the count drops by one when it was present |
| Paging.QueryParams | LicenseJet/RequestBuilder/CollectionRequestBuilder.php:136-138 | the caller's parameters plus `limit` and `page`, which override same-named caller keys |
| Paging.Results | LicenseJet/RequestBuilder/CollectionRequestBuilder.php:147-153 | the `results` of a truthy array payload when set and not null, otherwise none |
| Paging.Mapped | LicenseJet/RequestBuilder/CollectionRequestBuilder.php:157-165 | the callback applied to each result, same length and order; the raw results without a callback |
| Paging.Fetched | LicenseJet/RequestBuilder/CollectionRequestBuilder.php:141-165 | a list to store exactly when the response is successful and has results; the mapped results, as many as there are results |
| Paging.SoftFailKeepsItems | LicenseJet/RequestBuilder/CollectionRequestBuilder.php:141-153 | a raised, unsuccessful or result-less request leaves the collection's items as they were |
| Paging.ResultsReplaceItems | LicenseJet/RequestBuilder/CollectionRequestBuilder.php:157-168 | otherwise the items become the mapped results, as many as there are results |
| Paging.CollectionRequestBuilder.constructor | LicenseJet/RequestBuilder/CollectionRequestBuilder.php:74-81 | a fresh builder asks for page 1 with limit -1 and has sent nothing |
| Paging.CollectionRequestBuilder.Page | LicenseJet/RequestBuilder/CollectionRequestBuilder.php:89-94 | sets only the page and returns the same builder |
| Paging.CollectionRequestBuilder.Limit | LicenseJet/RequestBuilder/CollectionRequestBuilder.php:102-107 | sets only the limit and returns the same builder |
| Paging.CollectionRequestBuilder.GetParams | LicenseJet/RequestBuilder/CollectionRequestBuilder.php:114-120 | exactly the builder's `limit` (null for none) and `page` |
| Paging.CollectionRequestBuilder.Store | LicenseJet/RequestBuilder/CollectionRequestBuilder.php:141-168 | an unsuccessful response, or one without results, leaves the items; otherwise they become the mapped results |
| Paging.CollectionRequestBuilder.Get | LicenseJet/RequestBuilder/CollectionRequestBuilder.php:133-171 | one request with the merged parameters; raises what the endpoint raises and leaves the caller's `$response` as it was; otherwise sets `$response` to the endpoint's response and returns the builder's one collection, refilled or left as it was |
| Paging.CollectionRequestBuilder.GetIterator | LicenseJet/RequestBuilder/CollectionRequestBuilder.php:181-184 | a new iterator over this builder on page 1, n per request (10 by default), nothing loaded |
| Paging.CollectionIterator.constructor | LicenseJet/Collection/CollectionIterator.php:63-69 | no request: nothing is loaded and the position is 0 |
| Paging.CollectionIterator.RequestData | LicenseJet/Collection/CollectionIterator.php:75-93 | with a page loaded nothing changes and no request is sent; otherwise exactly one fetch of the current page with the iterator's limit, loaded unless it raised |
| Paging.CollectionIterator.ResetData | LicenseJet/Collection/CollectionIterator.php:98-101 | drops the loaded page only |
| Paging.CollectionIterator.All | LicenseJet/Collection/CollectionIterator.php:109-116 | fetches the current page with limit -1 and returns the items; position and loaded page pointer are untouched, but that page is the refilled collection |
| Paging.CollectionIterator.Entries | LicenseJet/Collection/CollectionIterator.php:124-128 | the items of the loaded page, loading it if needed |
| Paging.CollectionIterator.Rewind | LicenseJet/Collection/CollectionIterator.php:136-146 | position 0; the page is kept; the loaded page is reused only on page 1, otherwise the same page is fetched again |
| Paging.CollectionIterator.Current | LicenseJet/Collection/CollectionIterator.php:155-160 | the loaded page's item at the position, null when absent |
| Paging.CollectionIterator.Next | LicenseJet/Collection/CollectionIterator.php:166-178 | at the last position: next page, position 0, nothing loaded; otherwise only the position advances; the position stays within the page size |
| Paging.CollectionIterator.Valid | LicenseJet/Collection/CollectionIterator.php:187-192 | true exactly when the position is below the count and holds a non-null item |
| Paging.CollectionIterator.Key | LicenseJet/Collection/CollectionIterator.php:199-202 | the position within the current page |
| Paging.CollectionIterator.ToArray | LicenseJet/Collection/CollectionIterator.php:210-220 | the attribute arrays of the loaded page when all its items are resources |
| Paging.IndexedItems | LicenseJet/Collection/CollectionIterator.php:191 | on a loaded page, `count()` and `isset($data[$i])` see the page's list |
| Paging.ServedPage | LicenseJet/Collection/CollectionIterator.php:75-93 | fetching page i+1 of a served listing does not raise and leaves exactly that page's items in the collection |
| Paging.RestStep | LicenseJet/Collection/CollectionIterator.php:166-178 | at an item, what is left to yield is that item, then the rest from the next position, or from the next page after the last position (a next page exists, since only the last page is short) |
| Paging.RestIsPages | LicenseJet/Collection/CollectionIterator.php:136-192 | without null items, iteration yields the rest of the page and then the following pages up to the first short one |
| Paging.StepRest | LicenseJet/Collection/CollectionIterator.php:155-178 | yielding the current item and moving on keeps "yielded so far" followed by "left to yield" equal to the whole |
| Paging.Finish | LicenseJet/Collection/CollectionIterator.php:187-192 | once `valid()` is false nothing is left, so what was yielded is the whole iteration, the pages in order when no item is null |
| Paging.Start | LicenseJet/Collection/CollectionIterator.php:136-146 | `rewind()` and `valid()` on a fresh iterator load page 1 at position 0, and `valid()` answers whether an item is there |
| Paging.Take | LicenseJet/Collection/CollectionIterator.php:155-160 | `current()` at an item yields the page's item at the position and moves nothing |
| Paging.Advance | LicenseJet/Collection/CollectionIterator.php:175-177 | inside a page, `next()` and `valid()` reuse the loaded page at the next position |
| Paging.Load | LicenseJet/Collection/CollectionIterator.php:187-192 | `valid()` with nothing loaded fetches the current page of the listing, keeps the position, and answers for it |
| Paging.Roll | LicenseJet/Collection/CollectionIterator.php:168-173 | at the last position of a full page, `next()` and `valid()` fetch the next page at position 0 |
| Paging.Step | LicenseJet/Collection/CollectionIterator.php:155-192 | one round of `current()`, `next()`, `valid()` yields the item at the position and moves to the next position, or to the next page after the last |
| Paging.Yield | LicenseJet/Collection/CollectionIterator.php:155-192 | one loop round appends the item yielded and moves strictly forward |
| Paging.Foreach | LicenseJet/Collection/CollectionIterator.php:136-192 | `foreach` over a fresh iterator, when page i+1 is served with the items `pages[i]` and only the last page is short, yields those items in order, stopping early at a null item |

## Left out

- The HTTP transport. The `send` call, `Identity::client()`, the Response constructor's `Content-Type` check and the JSON decoding are not modelled. A response is taken with its payload already decoded, and the server is the function `Endpoints.Endpoint.send`.
- The value of the client timeout does not reach the transport, because the transport is not modelled. Only its null case is: building the client then raises a TypeError.
- Dates. `getDateTimeOrNull` and every date getter and setter rely on PHP's DateTime parsing and formatting.
- `Resource::link`. It uses object-property access on an array attribute.
- The per-resource endpoint classes, LicenseJet/functions.php, and `Project`, `ProjectOption` and `ProjectCollection` are not part of this model. They are network wrappers and single-key getters.
- PHP's loose comparison and type juggling. The model uses structural equality instead, so:
  - `== 1` holds for `true`, the integer 1 and the string "1"; other numeric strings equal to 1, such as "01", "1.0" or " 1", are not covered;
  - `changes()` compares values structurally;
  - arrays are unordered maps, so key order is not modelled: neither the order of string keys in attribute arrays, nor the insertion order of a collection's integer offsets, which `all()`, `toArray()` and iteration expose after `offsetSet` to a new or negative offset or after `offsetUnset`;
  - attribute keys stay strings, while PHP turns a numeric-string key such as "42" into the integer key 42 (see the Resources.Resource.Fill line below);
  - getters typed `?string` return the attribute as stored: the coercion of an integer or a bool to a string, and the TypeError on an array, are not modelled.
- Resources.IntOrNull: the integer getters require the attribute to be an integer or null. They do not model the `(int)` cast of strings and floats.
- Resources.Resource.GetId: it returns the `id` attribute as stored. The `?int` return coercion is not modelled: a bool or a numeric string such as "5" comes back as an integer in the source, and a non-numeric string or an array raises a TypeError.
- Terms.GetLength: it returns the `length` attribute as stored. The `?int` return coercion is not modelled, as for `Resources.Resource.GetId`.
- Terms.GetEstimatedMinutes: it returns `length_estimate.minutes` as stored. The `?int` return coercion is not modelled, as for `Resources.Resource.GetId`.
- Terms.GetEstimatedHours: it returns `length_estimate.hours` as stored. The `?int` return coercion is not modelled, as for `Resources.Resource.GetId`.
- Terms.GetEstimatedDays: it returns `length_estimate.days` as stored. The `?int` return coercion is not modelled, as for `Resources.Resource.GetId`.
- Licenses.SetUpdateAccessRestrictions: it takes a list or null. A string-keyed array, which the `?array` parameter also accepts, is not modelled.
- Terms.Create: it takes values as stored. It does not model the `?string`/`?int` parameter coercion of `Term::create`.
- Resources.DotGet: it requires every intermediate segment it walks to be a string-keyed map. A scalar intermediate makes `array_key_exists` raise or misbehave, depending on the PHP version. A list intermediate is excluded too, although PHP handles it without raising: a name is not found there, so the default is returned, and `x.0` reads element 0.
- Resources.Resource.Fill: keys are strings. A numeric-string key such as "42" is overwritten, where `array_merge` would append it under a new integer key.
- Resources.DotSet: it requires that no segment before the last be a list. Writing a string key into a list is not modelled.
- BaseCollections.BaseCollection.OffsetSet: offsets are integers. The null offset of `$collection[] = $x` and string offsets are not modelled.
- BaseCollections.BaseCollection.Contains: it requires every item to be a resource whose id is an integer or null. In the source, `getId`'s `?int` return type coerces a bool id or a numeric-string id such as "5" to an integer, which is then compared; a non-numeric string or an array id raises a TypeError.
- BaseCollections.BaseCollection.ToArray: it requires every item to be a resource.
- Paging.CollectionIterator.ToArray: a non-resource item is reported as a raised `TypeError`, without its message.
- Raw array items. A resource in a collection is its attribute array, so nothing tells a resource from a raw array. A builder built with a null callback stores the raw results, and on those `toArray()` and `contains()` raise a TypeError in the source, since their closures take a `Resource`. The model treats them as resources. Every endpoint in the source passes a callback.
- Paging.CollectionRequestBuilder.Get: it requires that a successful `results` be a JSON list. A JSON object there would give the collection string keys.
- Unreachable branches. `dotGet`'s `is_null($key)` check and `requestData()`'s malformed-response throw cannot fire: `$key` is typed `string`, and `get()` always returns a collection.
- Paging.Foreach: it covers iteration that raises nothing. Its hypotheses are that the pages up to the first short one are served without raising, and that none is longer than the page size. These pages are given as a ghost list.
