# URL shortener request handlers

This is a model of the five AWS Lambda request handlers of the URL shortener API (`src/*_function.py`). All of them share one DynamoDB table that maps a key to an item:

- **POST /** creates a short link `{slug, targetUrl, requests = [], createdAt}`.
- **GET /** lists the table.
- **GET /<slug>** appends a visit record to the link's `requests` and redirects (302) to its `targetUrl`.
- **PATCH /** appends a visit record taken from the body.
- **DELETE /** removes an item.
- **PUT /** creates or replaces an item `{id, url, lastUpdatedAt}` keyed by `id`.

Each handler first validates the parsed JSON body (or the path slug). It then makes one read-check-write step on the table and answers a status code with a message.

## Structure

- `wrappers.dfy`: `Option`.
- `json.dfy`: the parsed body. A value is `JNull` or `JStr`, and a body is a map from key to value. `Truthy` is Python truthiness, `Get` is `dict.get` and `Str` is `str()`.
- `validation.dfy`: the ordered required-field loop that POST, PATCH and PUT share. `FindMissingField` is the loop, proved against the recursive `FirstMissing`.
- `items.dfy`: the two shapes of stored item. A `Link` is what POST writes. A `Record` is what PUT writes.
- `http.dfy`: status codes and the response. A response has a status, a body (none, `{"message": ...}` or the GET / listing) and an optional `Location`.
- `store.dfy`: the table as the class `Table` with the field `items: map<Key, Item>`. Also here:
  - the `Fault` parameter, which stands for a `ClientError`;
  - `Outcome`, which pairs a response with the table afterwards;
  - the invariant `WellFormed`. It says every item is stored under its own key attribute, and no two links share a `targetUrl`.
- `post_function.dfy`, `get_function.dfy`, `patch_function.dfy`, `delete_function.dfy`, `put_function.dfy`: one module per handler. Each has:
  - a pure function giving the handler's whole effect (`PostOutcome`, …);
  - the imperative handler method on a `Table`. The method modifies `t` and its `ensures` ties the response and `t.items` to that function of `old(t.items)`;
  - lemmas stating each rule of the handler.
- `workflows.dfy`: the routes as one dispatcher `Handle` and a history of calls `Run`. It proves that the invariant holds for every table reachable from an empty one, plus two cross-handler lemmas.

## Modelling decisions

- **Outside inputs are parameters.** These are the clock (`now`), the generated slug (the first 8 characters of a UUID), the `Referer` header, the caller's source IP and user agent, and the store failure flag.
- **A failure is the store being unavailable.** `Fault.Fails(message)` means the first table call inside a handler's `try` raises `ClientError`. The handler then answers 500 with that message, and the table is unchanged. Every handler makes its validation checks before its first table call, so a failure can only show up after validation passes.
- **Keys are attribute values.** The table is keyed by `JValue`: `JStr(slug)` for links and the body's `id` for PUT records. PUT keys its item by `id` while the other handlers use `slug`, and the model keeps this rather than reconciling it.
- **PUT records have no `requests`.** In GET /<slug> and PATCH, `list_append` on a record fails with DynamoDB's validation error. The model answers 500 with that error's message and leaves the table unchanged.
- **The POST conflict scan is equality.** The scan `Attr("targetUrl").eq(target)` is modelled as equality of `targetUrl` values over links. A record has no `targetUrl`, so it never matches.
- **`Items` in GET / is a set.** It is the set of stored items, because DynamoDB returns scan results in no particular order.
- **The unit tests are stale; the code wins.** For example, the POST test expects 400 for `"targetUrl": null`. The code checks only that the key is present (`post_function.py:61`), and the model follows the code.

## Model

| member | source | states |
|---|---|---|
| `Validation.FirstMissing` | src/put_function.py:42-49 | The field it reports is one of the required fields and is absent from the body. None means every required field is present. |
| `Validation.FirstMissingIsFirst` | src/patch_function.py:59-68 | The reported field is the earliest absent one in the list's order, and every field before it is present. None holds exactly when all fields are present. |
| `Validation.FindMissingField` | src/post_function.py:58-69 | The handlers' `for field in required_fields` loop returns the first absent key, or None when all keys are present. |
| `Store.ItemsMatchKeys` | src/get_function.py:48-58 | When every item sits under its own key, the table holds as many distinct items as keys. |
| `PostFunction.PostOutcome` | src/post_function.py:52-104 | POST changes the table only when it answers 201. A 201 adds exactly the resolved slug to the keys. |
| `PostFunction.PostItem` | src/post_function.py:40-104 | The handler method's response and new table are those of `PostOutcome` applied to the old table. |
| `PostFunction.PostRequiresTargetUrl` | src/post_function.py:58-69 | POST answers 400 exactly when the `targetUrl` key is absent, whatever its value. The 400 carries "The 'targetUrl' field is required." and leaves the table unchanged. |
| `PostFunction.PostSlugChoice` | src/post_function.py:54 | A non-empty string `slug` is used as given. An absent, null or empty slug is replaced by the generated one. |
| `PostFunction.PostConflict` | src/post_function.py:72-83 | If the slug is already a key, or some link already has the same `targetUrl`, POST answers 409 "Item already exists." and the table is unchanged. |
| `PostFunction.PostCreates` | src/post_function.py:85-98 | On success the answer is 201 "Successfully created shortened URL.". Exactly one key is added, and it maps to `{slug, targetUrl, [], createdAt}`. Every other entry is unchanged. |
| `PostFunction.PostStoreFailure` | src/post_function.py:99-104 | A store failure after validation answers 500 with the store's message, and nothing is added. |
| `PostFunction.PostKeepsTargetsDistinct` | src/post_function.py:72-91 | If no two links share a `targetUrl` before a POST, none do after it. |
| `PostFunction.PostKeepsWellFormed` | src/post_function.py:72-91 | If the stored links' `targetUrl`s are pairwise distinct before a POST, they still are after it. Every item stays under its own key. |
| `GetFunction.GetAllItems` | src/get_function.py:43-66 | GET / answers 200. `Count` and `Scanned` equal the number of entries, and `Items` is exactly the set of stored items. A store failure answers 500 with the store's message. |
| `GetFunction.GetAllCountsItems` | src/get_function.py:48-58 | In a well-keyed table the listing holds exactly `Count` distinct items. |
| `GetFunction.GetRefererOrNull` | src/get_function.py:96-100 | The referer is the first value of the `Referer` header when it has one, and null otherwise. |
| `GetFunction.GetBySlugOutcome` | src/get_function.py:70-133 | GET /<slug> changes the table only when it answers 302, and it never adds or removes a key. |
| `GetFunction.GetItemBySlug` | src/get_function.py:70-133 | The handler method's response and new table are those of `GetBySlugOutcome` applied to the old table. |
| `GetFunction.GetBySlugNotFound` | src/get_function.py:87-94 | An absent slug answers 404 "Target URL not found" and leaves the table unchanged. |
| `GetFunction.GetBySlugRecordsVisit` | src/get_function.py:96-127 | A hit answers 302 with `Location` set to the stored `targetUrl`. `requests` grows by one record `{ip, userAgent, referer, timestamp}` at the end, and the old list is its prefix. `referer` is `RefererOf(headers)`: the first `Referer` value, or null when there is none. `targetUrl`, `createdAt` and every other item are unchanged. |
| `GetFunction.GetBySlugStoreFailure` | src/get_function.py:128-133 | A store failure answers 500 with the store's message and changes nothing. |
| `GetFunction.GetBySlugKeepsWellFormed` | src/get_function.py:104-118 | Recording a visit keeps the table invariant. |
| `PatchFunction.PatchOutcome` | src/patch_function.py:44-110 | PATCH changes the table only when it answers 200, and it never adds or removes a key. |
| `PatchFunction.PatchItem` | src/patch_function.py:42-110 | The handler method's response and new table are those of `PatchOutcome` applied to the old table. |
| `PatchFunction.PatchReportsFirstMissing` | src/patch_function.py:59-68 | Fields are checked in the order `slug`, `requestIp`, `userAgent`. The first absent one is reported as 400 "The '<field>' field is required.", and the table is unchanged. |
| `PatchFunction.PatchRefererOrNull` | src/patch_function.py:73 | An absent, null or empty `referer` is stored as null. A non-empty one is stored as given. |
| `PatchFunction.PatchNotFound` | src/patch_function.py:75-81 | A complete body naming an unknown slug answers 404 "Target URL not found", and the table is unchanged. |
| `PatchFunction.PatchRecordsVisit` | src/patch_function.py:83-104 | On success the answer is 200 "Successfully updated shortened URL.". Exactly the record `{requestIp, userAgent, referer, timestamp}` is appended to that link's `requests`, and nothing else changes. |
| `PatchFunction.PatchStoreFailure` | src/patch_function.py:105-110 | A store failure after validation answers 500 with the store's message and changes nothing. |
| `PatchFunction.PatchKeepsWellFormed` | src/patch_function.py:83-97 | Recording a visit keeps the table invariant. |
| `DeleteFunction.DeleteOutcome` | src/delete_function.py:37-81 | DELETE changes the table only when it answers 204. A 204 removes exactly the slug from the keys. |
| `DeleteFunction.DeleteItemBySlug` | src/delete_function.py:35-81 | The handler method's response and new table are those of `DeleteOutcome` applied to the old table. |
| `DeleteFunction.DeleteRequiresSlug` | src/delete_function.py:51-58 | A missing, null or empty `slug` answers 400 "slug is required.", and the table is unchanged. |
| `DeleteFunction.DeleteNotFound` | src/delete_function.py:60-66 | For any body whose `slug` is a non-empty string that is not a key, DELETE answers 404 "Item with a slug of /<slug> not found.", whatever other keys the body holds. The table is unchanged. |
| `DeleteFunction.DeleteRemoves` | src/delete_function.py:68-75 | On success the answer is 204, the key is removed and every other entry is unchanged. |
| `DeleteFunction.DeleteTwice` | src/delete_function.py:60-68 | Sending the same body with a stored, non-empty `slug` twice answers 204 and then 404, and the second call changes nothing. |
| `DeleteFunction.DeleteStoreFailure` | src/delete_function.py:76-81 | A store failure after the slug check answers 500 with the store's message and changes nothing. |
| `DeleteFunction.DeleteKeepsWellFormed` | src/delete_function.py:68 | Removing an entry keeps the table invariant. |
| `PutFunction.PutOutcome` | src/put_function.py:37-69 | PUT changes the table only when it answers 200. A 200 adds `id` to the keys, or keeps it if it is already there. |
| `PutFunction.PutItem` | src/put_function.py:35-69 | The handler method's response and new table are those of `PutOutcome` applied to the old table. |
| `PutFunction.PutReportsFirstMissing` | src/put_function.py:42-49 | `id` is checked before `url`. The first absent key is reported as 400, and the table is unchanged. |
| `PutFunction.PutReplaces` | src/put_function.py:51-63 | PUT creates or replaces: the entry under `id` becomes exactly `{id, url, lastUpdatedAt}`, so a link's `requests` and `createdAt` are gone. The answer is 200 with no body, and no not-found check is made. Other entries are unchanged. |
| `PutFunction.PutStoreFailure` | src/put_function.py:64-69 | A store failure after validation answers 500 with the store's message and changes nothing. |
| `PutFunction.PutKeepsWellFormed` | src/put_function.py:51-57 | A PUT record has no `targetUrl`, so replacing any item with one keeps the links' targets distinct. |
| `Workflows.HandleKeepsWellFormed` | src/post_function.py:72-91 | Every route (POST, GET /, GET /<slug>, PATCH, DELETE, PUT) keeps the table invariant. |
| `Workflows.RunKeepsWellFormed` | src/post_function.py:72-91 | After any sequence of requests, no two links share a `targetUrl`, and every item is under its own key. |
| `Workflows.ReachableTablesWellFormed` | src/post_function.py:72-91 | Every table reachable from an empty one satisfies the invariant. |
| `Workflows.PostThenGetRedirects` | src/get_function.py:120-127 | A link that POST has just created redirects, on GET /<slug>, to the `targetUrl` it was created with. That GET records its first visit. |
| `Workflows.PostThenDeleteForgets` | src/delete_function.py:60-75 | POST then DELETE of the same non-empty slug restores the table, and a following GET /<slug> answers 404. |

## Left out

- Time and randomness: `get_current_time` (`src/core_modules.py:5-17` and its copy in `src/put_function.py:25-32`) and `uuid4`. Their values are parameters.
- HTTP encoding: Powertools routing (`APIGatewayRestResolver`, `app.resolve`, `lambda_handler`), JSON (de)serialisation, `Content-Type`, and the `Access-Control-Allow-Origin` header some responses carry. The model starts from an already-parsed body whose values are null or strings. A body that is not a JSON object, and non-string JSON values, are not modelled.
- DynamoDB internals:
  - scan pagination and the 1 MB page limit;
  - `FilterExpression` semantics beyond equality;
  - `ClientError` beyond a single failure that leaves the table unchanged;
  - the service's rejection of null or empty key values and of items missing the table's key attribute;
  - the deployed key schema in `lib/database-stack.ts`.
- Races between concurrent Lambda invocations, such as between POST's check and its insert. The model is sequential.
- Logging and tracing side effects.
- The infrastructure code (`bin/*.ts`, `lib/*.ts`). It only builds cloud resource descriptors.
