# Pet service request logic, modelled in Dafny

The pet service of this veterinary-hospital application is an Express server
that keeps pet records in a DynamoDB table and uses Redis as a cache-aside
accelerator. This project models its request logic: the three cache helpers,
the five `/pets` routes plus `/health`, and the two retry policies it
configures. The table, the cache, and the "is there a Redis client" flag are
the state. DynamoDB and Redis calls become map operations that may fail.

Layout:

- `wrappers.dfy` (`Wrappers`): `Option`, for cache lookups and the Redis
  error code.
- `values.dfy` (`JsValues`): JSON request values and JavaScript truthiness,
  including `||`.
- `pets.dfy` (`Pets`): the pet record, the POST validation, the record POST
  builds (`NewPet`) and the truthiness merge PUT performs (`Merge`).
- `retry.dfy` (`RetryPolicies`): the DynamoDB `customBackoff` and the Redis
  `retry_strategy`.
- `cache.dfy` (`CacheModel`): the keys `pets:all` and `pet:<id>`, the cached
  JSON, and what it means for the cache to agree with the table (`Coherent`).
- `handlers.dfy` (`Handlers`): one pure function per route, from the old state
  to the new state and response, plus the lemmas about them.
- `server.dfy` (`PetServer`): the class `Server`. Its fields are `store`,
  `cache` and `cacheEnabled`. It has one method per route, written step by step
  in the handler's order. Each cache helper and route method is proved equal to
  the matching `Handlers` function. `Scan` is proved against `IsListing` and
  `Health` against its fixed answer. A short verified walk-through (`PetLifecycle`) steps
  through create, read, update, delete and read on one object of the class.

How external behaviour is represented:

- **Failures.** Every handler takes a `Faults` value. It says, in program
  order, how each of the request's DynamoDB calls ends and which of its cache
  helper calls hit a Redis error. A DynamoDB call either completes (`Ok`),
  throws with the table unchanged (`Fails`), or is applied by the table
  although its reply is lost. With a lost reply the SDK either runs out of
  retries and throws (`FailsApplied`), or retries and gets the second
  attempt's reply (`RetriedApplied`). A call that throws gives the route's
  500, and the cache steps after it are skipped. A failing Redis call is a
  miss or a no-op, as is a malformed cached entry. A failed SETEX or DEL is
  taken as not applied (see `Handlers.CacheSet` under "## Left out"). After `DisableCache` (the
  client's `error` or `end` event, or a failed ping), every cache call is a
  miss or a no-op.
- **Reads.** A DynamoDB `get` or `scan` that completes sees every write made
  before it: reads are strongly consistent in the model (see "## Left out").
- **Start-up.** The table and the Redis instance outlive the process. The
  constructor therefore starts on given contents of both.
- **Generated values.** The uuid and the clock readings are method inputs.
- **Scan order.** `Server.Scan` picks the order of a full-table scan
  nondeterministically.

Facts about the code that the model keeps:

- `initializeRedis` creates the client once (server.js:77), and it runs only
  at load (server.js:165). Every later assignment sets the handle to `null`
  (server.js:99, 108, 116 and 126). So `cacheEnabled` only ever goes from true
  to false within one process.
- POST reads the clock twice, once for `createdAt` and once for `updatedAt`
  (server.js:252-253). It never checks that the uuid is new. So the model
  promises neither `createdAt == updatedAt` nor a fresh id, and
  `CreatePreservesConsistency` covers a reused id.
- PUT merges with `||` (server.js:304-309). A falsy value counts as "not
  supplied", so `age: 0` and an empty breed keep the old value
  (`Pets.FalsyCountsAsAbsent`).

Consistency result: while the cache is in use, no entry is stale
(`Handlers.Consistent`). This holds with strongly consistent table reads.
Reads keep it whatever their faults. A write keeps it whenever two things
hold. First, the cache steps that the three `*PreservesConsistency` lemmas
name succeed: for POST, the `pets:all` invalidation, and the `pet:<id>` write
when the id is already taken. Second, the route sees the outcome of its table
write. Without these conditions consistency can fail, and each way is shown
on a concrete state:

- `Handlers.FailedInvalidationServesStale`: a DELETE whose `pet:<id>`
  invalidation fails answers 200, and the next GET serves the deleted record.
- `Handlers.ReusedIdServesStale`: a POST that reuses a cached id and whose
  `pet:<id>` write fails answers 201, and the old record stays cached.
- `Handlers.LostWriteReplyServesStale`: a PUT whose update is applied but
  whose reply is lost answers 500, and the old record stays cached.
- `Handlers.RetriedDeleteServesStale`: a DELETE retried by the SDK after a
  lost reply answers 404, and the deleted record stays cached.

Each result starts from a consistent state. A new process is consistent when
it starts with an empty cache or without a client.
`Handlers.CacheOutlivesDroppedClient` shows why: an entry left from a time
when this or another process had no client can be stale. The code logs these
failures and otherwise ignores them.

## Model

| member | source | states |
|---|---|---|
| `JsValues.Or` | backend/pet-service/server.js:304-309 | JavaScript's `or` operator on `a` and `b` yields `a` when `a` is truthy and `b` otherwise |
| `JsValues.OrTruthy` | backend/pet-service/server.js:304-309 | that `or` is truthy exactly when `a` or `b` is |
| `JsValues.OrNullNormalises` | backend/pet-service/server.js:248-249 | the fallback of `x` to `null` keeps a truthy `x`, turns every falsy one into `null`, and is never `undefined` |
| `JsValues.TruthyIffNotFalsy` | backend/pet-service/server.js:240 | a value is truthy exactly when it is none of `undefined`, `null`, `false`, `0` and `""` |
| `Pets.NewPet` | backend/pet-service/server.js:244-254 | the created record carries the given id and timestamps and the four required fields as sent; breed and age are the sent value if truthy, else `null`; the record is well formed when validation passed |
| `Pets.Merge` | backend/pet-service/server.js:299-312 | each of the six fields is the supplied value if truthy, else the existing one; `id` and `createdAt` are kept; `updatedAt` is the new reading; a well-formed record stays well formed |
| `Pets.MergeIdempotent` | backend/pet-service/server.js:304-310 | repeating the same update with the same timestamp changes nothing more |
| `Pets.MergeEmptyInput` | backend/pet-service/server.js:304-310 | an update with no fields only moves `updatedAt` |
| `Pets.FalsyCountsAsAbsent` | backend/pet-service/server.js:248-249 | `age: 0` and `breed: ""` become `null` on POST and keep the old value on PUT |
| `Pets.HasRequiredFields` | backend/pet-service/server.js:240 | a POST body passes validation exactly when none of name, species, ownerName and ownerContact is `undefined`, `null`, `false`, `0` or `""` |
| `RetryPolicies.DynamoBackoff` | backend/pet-service/server.js:49-51 | the delay before each DynamoDB retry is a positive multiple of 100 ms |
| `RetryPolicies.BackoffDoubles` | backend/pet-service/server.js:49-51 | each retry waits twice as long as the previous one |
| `RetryPolicies.BackoffMonotone` | backend/pet-service/server.js:49-51 | a later retry never waits less than an earlier one |
| `RetryPolicies.TotalBackoffClosedForm` | backend/pet-service/server.js:49-51 | the first n retries wait 100 * (2^n - 1) ms in all |
| `RetryPolicies.RetryBudget` | backend/pet-service/server.js:47-51 | with three retries the waits are 100, 200 and 400 ms, 700 ms in all |
| `RetryPolicies.RedisRetry` | backend/pet-service/server.js:80-94 | ECONNREFUSED stops at once; otherwise more than an hour of retrying gives up with an error; a retry delay is returned exactly when the connection was not refused, the hour is not used up, and the attempt is at most 3; that delay is min(attempt * 100, 3000) and never above 3000 |
| `RetryPolicies.RedisDelayBelowCap` | backend/pet-service/server.js:89-93 | since a fourth attempt already stops, every delay is attempt * 100 and at most 300 ms: the 3000 ms cap is never reached |
| `CacheModel.KeyName` | backend/pet-service/server.js:175-203 | both key names start with `pet`; the fourth character tells `pets:all` from `pet:<id>`, and the latter carries the id after its colon |
| `CacheModel.KeyNameInjective` | backend/pet-service/server.js:175-203 | `pets:all` and `pet:<id>` for different ids are different Redis keys |
| `Handlers.CacheGet` | backend/pet-service/server.js:131-140 | a hit exactly when a client exists, the call succeeds and the key is cached, and then it yields the cached value |
| `Handlers.CacheSet` | backend/pet-service/server.js:142-149 | with a client and no error, the key holds the value afterwards; no other key changes, nor the table or the client; otherwise nothing changes |
| `Handlers.CacheDel` | backend/pet-service/server.js:151-162 | with a client and no error, the key is gone afterwards; no other key changes, nor the table or the client; otherwise nothing changes |
| `Handlers.GetPetsSpec` | backend/pet-service/server.js:173-198 | GET /pets answers 200 or 500 and never changes the table or the client |
| `Handlers.GetPetSpec` | backend/pet-service/server.js:201-233 | GET /pets/:id answers 200, 404 or 500 and never changes the table or the client |
| `Handlers.CreateSpec` | backend/pet-service/server.js:236-272 | POST answers 201, 400 or 500, never changes the client, and changes the table at most at the new id |
| `Handlers.UpdateSpec` | backend/pet-service/server.js:275-327 | PUT answers 200, 404 or 500, never changes the client, keeps the table's set of ids, and changes at most the record at `id` |
| `Handlers.DeleteSpec` | backend/pet-service/server.js:330-355 | DELETE answers 200, 404 or 500, never changes the client, and the table loses at most `id` |
| `Handlers.GetPetsCacheHit` | backend/pet-service/server.js:178-182 | a cached `pets:all` is answered with 200 and that value, and table and cache are unchanged |
| `Handlers.GetPetsCacheMiss` | backend/pet-service/server.js:184-193 | on a miss with a working table, the scan result is answered with 200 and stored under `pets:all` if the cache takes it; nothing else changes |
| `Handlers.GetPetCacheHit` | backend/pet-service/server.js:203-210 | a cached `pet:<id>` is answered with 200 and that value, with no table read; nothing changes |
| `Handlers.GetPetCacheMiss` | backend/pet-service/server.js:212-228 | on a miss, an absent id gives 404 and caches nothing; a present one is answered with 200 and cached under `pet:<id>` |
| `Handlers.GetPetNeverStale` | backend/pet-service/server.js:201-233 | while the cache is consistent, a 200 carries the table's current record; with a working table the answer is what the table alone gives (200 or 404) |
| `Handlers.GetPetsNeverStale` | backend/pet-service/server.js:173-198 | while the cache is consistent, a 200 lists exactly the table's records, and a working table always gives 200 |
| `Handlers.RepeatedGetPetFromCache` | backend/pet-service/server.js:201-228 | after a successful read on a working cache, the same read is answered from the cache with the same payload, whatever the table does |
| `Handlers.RepeatedGetPetsFromCache` | backend/pet-service/server.js:173-193 | the same for GET /pets |
| `Handlers.ReadsPreserveConsistency` | backend/pet-service/server.js:173-233 | reads never change the table or the client flag and keep the cache consistent under any faults |
| `Handlers.CreateRejectsIncomplete` | backend/pet-service/server.js:240-242 | a POST missing any of name, species, ownerName, ownerContact (falsy) is 400 with table and cache unchanged |
| `Handlers.CreateStoresPet` | backend/pet-service/server.js:244-267 | a valid POST stores the new record under its id, drops `pets:all`, caches `pet:<id>` (when the cache works), leaves every other key alone and answers 201 with the record |
| `Handlers.UpdateMergesPet` | backend/pet-service/server.js:293-322 | a PUT of an existing id stores the merged record, drops `pets:all`, leaves `pet:<id>` either equal to the merged record or absent, leaves other keys alone and answers 200 with the merged record |
| `Handlers.UpdateAbsentIs404` | backend/pet-service/server.js:279-291 | a PUT of an id absent from the table is 404 with nothing changed, whatever the cache holds |
| `Handlers.DeleteAbsentIs404` | backend/pet-service/server.js:340-344 | a DELETE of an absent id is 404 with nothing changed |
| `Handlers.DeleteRemovesPet` | backend/pet-service/server.js:340-350 | a DELETE of an existing id whose call completes on its first attempt removes it, drops `pets:all` and `pet:<id>` when the cache works, changes no other key under any faults, and answers 200 with the confirmation |
| `Handlers.FailedRequestsChangeNothing` | backend/pet-service/server.js:194-354 | every 400, 404 and 500 leaves the cache as it was, and the table too, unless the table applied a write whose reply was lost; then the table holds just that write |
| `Handlers.OnlyStoreFailuresGive500` | backend/pet-service/server.js:131-162 | each route answers 500 exactly when a DynamoDB call it made threw; cache problems never cause a 500 |
| `Handlers.CreateIgnoresCache` | backend/pet-service/server.js:236-272 | POST's answer and resulting table are independent of the cache's contents, flag and faults |
| `Handlers.UpdateIgnoresCache` | backend/pet-service/server.js:275-327 | the same for PUT |
| `Handlers.DeleteIgnoresCache` | backend/pet-service/server.js:330-355 | the same for DELETE |
| `Handlers.CreatePreservesStoreValid` | backend/pet-service/server.js:240-261 | POST keeps every record stored under its own id with truthy required fields |
| `Handlers.UpdatePreservesStoreValid` | backend/pet-service/server.js:299-315 | PUT keeps that too: the id is never rewritten, and a truthy field only ever changes to a truthy one |
| `Handlers.DeletePreservesStoreValid` | backend/pet-service/server.js:340 | DELETE keeps the table valid |
| `Handlers.CreatePreservesConsistency` | backend/pet-service/server.js:259-265 | POST keeps the cache consistent when its `pets:all` invalidation works (and, for a reused id, its `pet:<id>` write), unless the put was applied but threw |
| `Handlers.UpdatePreservesConsistency` | backend/pet-service/server.js:315-320 | PUT keeps the cache consistent when its `pets:all` invalidation and one of its two `pet:<id>` operations work, unless the update was applied but threw |
| `Handlers.DeletePreservesConsistency` | backend/pet-service/server.js:340-348 | DELETE keeps the cache consistent when both invalidations work, unless an existing record was deleted by a call that threw or was retried |
| `Handlers.ReadAfterCreate` | backend/pet-service/server.js:261-267 | right after a POST on a working cache, GET of the new id is served the new record from the cache, even with the table down |
| `Handlers.ReadAfterUpdate` | backend/pet-service/server.js:315-322 | after a PUT whose `pet:<id>` entry was rewritten or dropped, GET returns the merged record |
| `Handlers.ReadAfterDelete` | backend/pet-service/server.js:340-350 | after a DELETE whose `pet:<id>` invalidation worked, GET of that id is 404 |
| `Handlers.ListAfterWrite` | backend/pet-service/server.js:263-264 | after any successful write whose `pets:all` invalidation worked, GET /pets scans afresh |
| `Handlers.FailedInvalidationServesStale` | backend/pet-service/server.js:346-350 | a concrete DELETE whose `pet:<id>` invalidation fails still answers 200, breaks consistency, and the next GET serves the deleted record |
| `Handlers.ReusedIdServesStale` | backend/pet-service/server.js:244-267 | a concrete POST that reuses a cached id and whose `pet:<id>` write fails answers 201, breaks consistency, and the next GET serves the old record |
| `Handlers.LostWriteReplyServesStale` | backend/pet-service/server.js:315-325 | a concrete PUT whose update is applied but whose reply is lost answers 500, skips the invalidations, breaks consistency, and the next GET serves the old record |
| `Handlers.RetriedDeleteServesStale` | backend/pet-service/server.js:338-344 | a concrete DELETE whose first attempt is applied and whose SDK retry finds nothing answers 404, skips the invalidations, and the next GET serves the deleted record |
| `Handlers.CacheOutlivesDroppedClient` | backend/pet-service/server.js:97-108 | a PUT made while there is no client leaves the cache as it was; a process started later with a client on the same table and Redis serves the old record |
| `PetServer.Server.constructor` | backend/pet-service/server.js:70-77 | start-up on the table's and the Redis instance's current contents, with a client exactly when creating it succeeded; consistent when the cache starts empty or there is no client |
| `PetServer.Server.DisableCache` | backend/pet-service/server.js:97-127 | the client handle is dropped; table and cache are untouched and the cache counts as consistent |
| `PetServer.Server.GetFromCache` | backend/pet-service/server.js:131-140 | answers `CacheGet`: a hit only with a client, a successful call and a cached key |
| `PetServer.Server.SetCache` | backend/pet-service/server.js:142-149 | writes the key only with a client and a successful call, and is otherwise a no-op |
| `PetServer.Server.InvalidateCache` | backend/pet-service/server.js:151-162 | deletes the key only with a client and a successful call, and is otherwise a no-op |
| `PetServer.Server.Scan` | backend/pet-service/server.js:188 | the scan returns every record of the table exactly once |
| `PetServer.Server.Health` | backend/pet-service/server.js:168-170 | always 200 `{status: "healthy"}`, touching neither table nor cache |
| `PetServer.Server.GetPets` | backend/pet-service/server.js:173-198 | new state and response are those of `GetPetsSpec` for a scan result that lists the table; the table stays valid |
| `PetServer.Server.GetPet` | backend/pet-service/server.js:201-233 | new state and response are those of `GetPetSpec` |
| `PetServer.Server.CreatePet` | backend/pet-service/server.js:236-272 | new state and response are those of `CreateSpec`; the table stays valid |
| `PetServer.Server.UpdatePet` | backend/pet-service/server.js:275-327 | new state and response are those of `UpdateSpec`; the table stays valid |
| `PetServer.Server.DeletePet` | backend/pet-service/server.js:330-355 | new state and response are those of `DeleteSpec`; the table stays valid |

## Left out

- Express wiring, CORS, body parsing and the request-logging middleware (lines 22-42, 357-362): a route is a method taking already parsed fields and returning status and body.
- The winston logger and every `logger` call: they have no effect on the state or the responses.
- The AWS SDK's own retry loop, the connection pool and the timeouts (lines 44-66): only the backoff policy is modelled. A DynamoDB call with its retries is one `StoreCall` outcome in `Faults`. The model does not say which outcomes the timeouts make likely.
- The Redis client internals and its reconnect loop (lines 75-128): only the strategy function is modelled, and the effect of giving up is `DisableCache`.
- The asynchronous `error`, `end` and ping callbacks and the fire-and-forget `initializeRedis()` (lines 97-123, 165): each is modelled as an explicit `DisableCache` call between requests. Requests do not interleave in the model, although the server can interleave them at every `await`.
- The five-minute TTL (line 71): cache entries never expire in the model. An expiry deletes an entry, and deletions never make the cache inconsistent.
- The glob semantics of Redis `KEYS` (line 154): every call passes a literal key, and ids come from `uuidv4`, so they contain no glob characters. Invalidation is exact-key deletion.
- JSON serialisation: caching stores the value itself. A malformed cached entry makes `JSON.parse` throw, and that is a failing Redis call.
- DynamoDB scan pagination: a real scan returns at most 1 MB per page, and the handler ignores `LastEvaluatedKey`. `Server.Scan` always returns the whole table, so on large tables it promises more than the code delivers.
- JavaScript numbers are `real` in the model: a JSON `-0` is the real 0, falsy as in JavaScript, and JSON cannot carry NaN. Objects and arrays in a request body are one opaque truthy value `Compound`.
- Records written by anything other than these routes: the constructor requires every record of the starting table to be stored under its own id and well formed, and `Valid` keeps that. So the model never sends DynamoDB an `undefined` attribute value.
- Eventually consistent DynamoDB reads: the `get` calls (lines 219, 287) and the `scan` (line 188) do not set `ConsistentRead`, so DynamoDB may answer them from a replica that has not yet seen the latest write. The model reads the table as it is after every earlier write. A GET right after a write can therefore return the previous record, or a deleted one, and cache it for five minutes (line 226). `Handlers.GetPetNeverStale`, `GetPetsNeverStale`, `ReadsPreserveConsistency`, `ReadAfterDelete`, `ReadAfterUpdate` and `ListAfterWrite` hold only under strongly consistent reads.
- `Handlers.CacheSet` and `Handlers.CacheDel` take a Redis error as "not applied". When the connection drops, node_redis rejects commands still in flight, although Redis may already have run the SETEX or DEL. So the unchanged-cache branch of both, of `GetPetsCacheMiss` and `GetPetCacheMiss`, and `UpdateMergesPet`'s "`pet:<id>` absent when only the final write fails", are not guaranteed by the program. `Consistent` is unaffected: every cache write stores the fresh value, and a DEL only removes an entry.
- Other processes sharing the table or the Redis instance while this one runs: they are concurrent writers. Only what they leave behind at start-up is modelled, through the constructor's arguments.
- frontend/src/pages/Billing.js: a React page over hard-coded mock data. It has floating-point totals printed with `toFixed`, a status-to-colour switch and form state, but no request logic.
