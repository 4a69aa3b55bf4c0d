/** The request logic of the pet service, one pure function per route over
    an abstract state: the DynamoDB table (`store`), the Redis cache (`cache`)
    and whether a Redis client is present (`cacheEnabled`). Each function
    takes the outcome of every external call the request makes and returns
    the new state with the HTTP response. */
module Handlers {
  import opened Wrappers
  import opened JsValues
  import opened Pets
  import opened CacheModel

  datatype Body =
    | Data(json: Json)
    | ErrorBody(error: string)
    | MessageBody(message: string)
    | HealthBody(status: string)

  datatype Response = Response(status: int, body: Body)

  const FetchPetsFailed := "Failed to fetch pets"
  const FetchPetFailed := "Failed to fetch pet"
  const PetNotFound := "Pet not found"
  const MissingFields := "Missing required fields"
  const CreateFailed := "Failed to create pet"
  const UpdateFailed := "Failed to update pet"
  const DeleteFailed := "Failed to delete pet"
  const PetDeleted := "Pet deleted successfully"

  datatype State = State(store: map<string, Pet>, cache: map<CacheKey, Json>, cacheEnabled: bool)

  datatype Outcome = Outcome(state: State, response: Response)

  /** How one DynamoDB call ends. `Ok`: it completes. `Fails`: it throws and
      the table is unchanged. `FailsApplied`: the table applied the write
      but every reply was lost (the 5-second socket timeout, through the
      SDK's three retries), so the call throws all the same.
      `RetriedApplied`: the table applied the write, the reply was lost, and
      a retry of the SDK completed, so the reply describes the second
      attempt. A read applies nothing: for it `FailsApplied` is `Fails` and
      `RetriedApplied` is `Ok`. */
  datatype StoreCall = Ok | Fails | FailsApplied | RetriedApplied

  /** How the external calls of one request end: entry `i` of `store` is the
      i-th DynamoDB call the request reaches, entry `i` of `cache` is true
      when the i-th cache helper call (`getFromCache`, `setCache` or
      `invalidateCache`) hits a Redis error, both counted from 0 in program
      order. Missing entries are `Ok` and false. */
  datatype Faults = Faults(store: seq<StoreCall>, cache: seq<bool>)

  const NoFaults := Faults([], [])

  predicate FailsAt(calls: seq<bool>, i: nat) {
    i < |calls| && calls[i]
  }

  function StoreAt(f: Faults, i: nat): StoreCall {
    if i < |f.store| then f.store[i] else Ok
  }

  /** The i-th DynamoDB call throws, whether or not the table applied it. */
  predicate Throws(f: Faults, i: nat) {
    StoreAt(f, i).Fails? || StoreAt(f, i).FailsApplied?
  }

  /** Every record is stored under its own id and was built by POST or PUT. */
  ghost predicate StoreValid(store: map<string, Pet>) {
    forall id :: id in store ==> store[id].id == id && WellFormed(store[id])
  }

  /** While the cache is in use, nothing in it is stale. A cache this process
      no longer has a client for is not read by it again, so its contents do
      not matter to it. */
  ghost predicate Consistent(s: State) {
    s.cacheEnabled ==> Coherent(s.store, s.cache)
  }

  // ---------------------------------------------------------------------
  // The cache helpers: a missing client or a failing call is a miss or a
  // no-op, never an error.

  /** `getFromCache`. */
  function CacheGet(s: State, key: CacheKey, fails: bool): (r: Option<Json>)
    ensures r.Some? <==> s.cacheEnabled && !fails && key in s.cache
    ensures r.Some? ==> r.value == s.cache[key]
  {
    if s.cacheEnabled && !fails && key in s.cache then Some(s.cache[key]) else None
  }

  /** `setCache`: with a client and no error, `key` maps to `v` afterwards
      and every other key is as before; otherwise nothing changes. The table
      and the client handle are never touched. */
  function CacheSet(s: State, key: CacheKey, v: Json, fails: bool): (t: State)
    ensures t.store == s.store && t.cacheEnabled == s.cacheEnabled
    ensures s.cacheEnabled && !fails ==> key in t.cache && t.cache[key] == v
    ensures forall k :: k != key ==> (k in t.cache <==> k in s.cache) && (k in s.cache ==> t.cache[k] == s.cache[k])
    ensures !s.cacheEnabled || fails ==> t == s
  {
    if s.cacheEnabled && !fails then s.(cache := s.cache[key := v]) else s
  }

  /** `invalidateCache` with a literal key: with a client and no error,
      `key` is gone afterwards and every other key is as before; otherwise
      nothing changes. The table and the client handle are never touched. */
  function CacheDel(s: State, key: CacheKey, fails: bool): (t: State)
    ensures t.store == s.store && t.cacheEnabled == s.cacheEnabled
    ensures s.cacheEnabled && !fails ==> key !in t.cache
    ensures forall k :: k != key ==> (k in t.cache <==> k in s.cache) && (k in s.cache ==> t.cache[k] == s.cache[k])
    ensures !s.cacheEnabled || fails ==> t == s
  {
    if s.cacheEnabled && !fails then s.(cache := s.cache - {key}) else s
  }

  // ---------------------------------------------------------------------
  // The routes. None of them changes whether there is a Redis client.

  /** GET /pets. `scanned` is what the table scan returns when it succeeds.
      It answers 200 or 500 and never writes the table. */
  function GetPetsSpec(s: State, scanned: seq<Pet>, f: Faults): (o: Outcome)
    ensures o.state.store == s.store && o.state.cacheEnabled == s.cacheEnabled
    ensures o.response.status == 200 || o.response.status == 500
  {
    match CacheGet(s, AllPets, FailsAt(f.cache, 0))
    case Some(v) => Outcome(s, Response(200, Data(v)))
    case None =>
      if Throws(f, 0) then Outcome(s, Response(500, ErrorBody(FetchPetsFailed)))
      else
        Outcome(CacheSet(s, AllPets, PetListJson(scanned), FailsAt(f.cache, 1)),
                Response(200, Data(PetListJson(scanned))))
  }

  /** GET /pets/:id. It answers 200, 404 or 500 and never writes the table. */
  function GetPetSpec(s: State, id: string, f: Faults): (o: Outcome)
    ensures o.state.store == s.store && o.state.cacheEnabled == s.cacheEnabled
    ensures o.response.status == 200 || o.response.status == 404 || o.response.status == 500
  {
    match CacheGet(s, PetById(id), FailsAt(f.cache, 0))
    case Some(v) => Outcome(s, Response(200, Data(v)))
    case None =>
      if Throws(f, 0) then Outcome(s, Response(500, ErrorBody(FetchPetFailed)))
      else if id !in s.store then Outcome(s, Response(404, ErrorBody(PetNotFound)))
      else
        Outcome(CacheSet(s, PetById(id), PetJson(s.store[id]), FailsAt(f.cache, 1)),
                Response(200, Data(PetJson(s.store[id]))))
  }

  /** POST /pets. `newId` is the generated uuid, `createdAt` and `updatedAt`
      the two clock readings. It answers 201, 400 or 500, and the table
      changes at most at `newId`. A put the table applied although the call
      threw answers 500 and skips the cache steps. */
  function CreateSpec(s: State, input: PetInput, newId: string, createdAt: string, updatedAt: string,
                      f: Faults): (o: Outcome)
    ensures o.state.cacheEnabled == s.cacheEnabled
    ensures o.response.status == 201 || o.response.status == 400 || o.response.status == 500
    ensures forall id :: id != newId ==> (id in o.state.store <==> id in s.store)
    ensures forall id :: id != newId && id in s.store ==> o.state.store[id] == s.store[id]
  {
    if !HasRequiredFields(input) then Outcome(s, Response(400, ErrorBody(MissingFields)))
    else if StoreAt(f, 0).Fails? then Outcome(s, Response(500, ErrorBody(CreateFailed)))
    else
      var pet := NewPet(input, newId, createdAt, updatedAt);
      var s1 := s.(store := s.store[newId := pet]);
      if StoreAt(f, 0).FailsApplied? then Outcome(s1, Response(500, ErrorBody(CreateFailed)))
      else
        var s2 := CacheDel(s1, AllPets, FailsAt(f.cache, 0));
        var s3 := CacheSet(s2, PetById(newId), PetJson(pet), FailsAt(f.cache, 1));
        Outcome(s3, Response(201, Data(PetJson(pet))))
  }

  /** PUT /pets/:id. Store call 0 is the existence check, store call 1 the
      update. It answers 200, 404 or 500, and the table changes at most at
      `id`. An update the table applied although the call threw answers 500
      and skips the cache steps. */
  function UpdateSpec(s: State, id: string, input: PetInput, updatedAt: string, f: Faults): (o: Outcome)
    ensures o.state.cacheEnabled == s.cacheEnabled
    ensures o.response.status == 200 || o.response.status == 404 || o.response.status == 500
    ensures o.state.store.Keys == s.store.Keys
    ensures forall other :: other != id && other in s.store ==> o.state.store[other] == s.store[other]
  {
    if Throws(f, 0) then Outcome(s, Response(500, ErrorBody(UpdateFailed)))
    else if id !in s.store then Outcome(s, Response(404, ErrorBody(PetNotFound)))
    else if StoreAt(f, 1).Fails? then Outcome(s, Response(500, ErrorBody(UpdateFailed)))
    else
      var pet := Merge(s.store[id], input, updatedAt);
      var s1 := s.(store := s.store[id := pet]);
      if StoreAt(f, 1).FailsApplied? then Outcome(s1, Response(500, ErrorBody(UpdateFailed)))
      else
        var s2 := CacheDel(s1, AllPets, FailsAt(f.cache, 0));
        var s3 := CacheDel(s2, PetById(id), FailsAt(f.cache, 1));
        var s4 := CacheSet(s3, PetById(id), PetJson(pet), FailsAt(f.cache, 2));
        Outcome(s4, Response(200, Data(PetJson(pet))))
  }

  /** DELETE /pets/:id. The 404 test reads the reply of the delete itself.
      It answers 200, 404 or 500, and the table loses at most `id`. A delete
      the table applied although the call threw answers 500; one whose SDK
      retry found the record already gone answers 404. Neither runs the
      invalidations. */
  function DeleteSpec(s: State, id: string, f: Faults): (o: Outcome)
    ensures o.state.cacheEnabled == s.cacheEnabled
    ensures o.response.status == 200 || o.response.status == 404 || o.response.status == 500
    ensures o.state.store == s.store || o.state.store == s.store - {id}
  {
    if StoreAt(f, 0).Fails? then Outcome(s, Response(500, ErrorBody(DeleteFailed)))
    else if StoreAt(f, 0).FailsApplied? then
      Outcome(s.(store := s.store - {id}), Response(500, ErrorBody(DeleteFailed)))
    else if id !in s.store then Outcome(s, Response(404, ErrorBody(PetNotFound)))
    else if StoreAt(f, 0).RetriedApplied? then
      Outcome(s.(store := s.store - {id}), Response(404, ErrorBody(PetNotFound)))
    else
      var s1 := s.(store := s.store - {id});
      var s2 := CacheDel(s1, AllPets, FailsAt(f.cache, 0));
      var s3 := CacheDel(s2, PetById(id), FailsAt(f.cache, 1));
      Outcome(s3, Response(200, MessageBody(PetDeleted)))
  }

  // ---------------------------------------------------------------------
  // Reads.

  /** A cached `pets:all` is returned as is; nothing changes. */
  lemma GetPetsCacheHit(s: State, scanned: seq<Pet>, f: Faults)
    requires s.cacheEnabled && !FailsAt(f.cache, 0) && AllPets in s.cache
    ensures GetPetsSpec(s, scanned, f) == Outcome(s, Response(200, Data(s.cache[AllPets])))
  {
  }

  /** On a miss the scan result is returned and, if the cache takes it,
      stored under `pets:all`; nothing else changes. */
  lemma GetPetsCacheMiss(s: State, scanned: seq<Pet>, f: Faults)
    requires CacheGet(s, AllPets, FailsAt(f.cache, 0)).None? && !Throws(f, 0)
    ensures var o := GetPetsSpec(s, scanned, f);
      && o.response == Response(200, Data(PetListJson(scanned)))
      && o.state.store == s.store && o.state.cacheEnabled == s.cacheEnabled
      && o.state.cache == (if s.cacheEnabled && !FailsAt(f.cache, 1)
                           then s.cache[AllPets := PetListJson(scanned)] else s.cache)
  {
  }

  /** A cached `pet:<id>` is returned as is, without asking the table. */
  lemma GetPetCacheHit(s: State, id: string, f: Faults)
    requires s.cacheEnabled && !FailsAt(f.cache, 0) && PetById(id) in s.cache
    ensures GetPetSpec(s, id, f) == Outcome(s, Response(200, Data(s.cache[PetById(id)])))
  {
  }

  /** On a miss the table's record is returned and cached; an absent record
      gives 404 and caches nothing. */
  lemma GetPetCacheMiss(s: State, id: string, f: Faults)
    requires CacheGet(s, PetById(id), FailsAt(f.cache, 0)).None? && !Throws(f, 0)
    ensures var o := GetPetSpec(s, id, f);
      && (id !in s.store ==> o == Outcome(s, Response(404, ErrorBody(PetNotFound))))
      && (id in s.store ==>
            && o.response == Response(200, Data(PetJson(s.store[id])))
            && o.state.store == s.store && o.state.cacheEnabled == s.cacheEnabled
            && o.state.cache == (if s.cacheEnabled && !FailsAt(f.cache, 1)
                                 then s.cache[PetById(id) := PetJson(s.store[id])] else s.cache))
  {
  }

  /** While the cache is consistent, a successful GET /pets/:id returns the
      table's current record, and with a working table the response is
      exactly what the table alone would give: the cache is invisible. */
  lemma GetPetNeverStale(s: State, id: string, f: Faults)
    requires Consistent(s)
    ensures var r := GetPetSpec(s, id, f).response;
      r.status == 200 ==> id in s.store && r == Response(200, Data(PetJson(s.store[id])))
    ensures !Throws(f, 0) ==>
      GetPetSpec(s, id, f).response ==
        (if id in s.store then Response(200, Data(PetJson(s.store[id]))) else Response(404, ErrorBody(PetNotFound)))
  {
  }

  /** While the cache is consistent, a successful GET /pets lists exactly the
      records of the table, whether it came from the cache or the scan. */
  lemma GetPetsNeverStale(s: State, scanned: seq<Pet>, f: Faults)
    requires Consistent(s) && IsListing(s.store, scanned)
    ensures var r := GetPetsSpec(s, scanned, f).response;
      r.status == 200 ==> r.body.Data? && r.body.json.PetListJson? && IsListing(s.store, r.body.json.items)
    ensures !Throws(f, 0) ==> GetPetsSpec(s, scanned, f).response.status == 200
  {
  }

  /** Reading the same record twice: once the first read succeeded on a
      working cache, the second is answered from the cache with the same
      payload, whatever the table would do. */
  lemma RepeatedGetPetFromCache(s: State, id: string, f: Faults, g: Faults)
    requires GetPetSpec(s, id, f).response.status == 200
    requires s.cacheEnabled && !FailsAt(f.cache, 1) && !FailsAt(g.cache, 0)
    ensures var o := GetPetSpec(s, id, f);
      GetPetSpec(o.state, id, g) == Outcome(o.state, o.response)
  {
  }

  /** The same for GET /pets. */
  lemma RepeatedGetPetsFromCache(s: State, scanned: seq<Pet>, again: seq<Pet>, f: Faults, g: Faults)
    requires GetPetsSpec(s, scanned, f).response.status == 200
    requires s.cacheEnabled && !FailsAt(f.cache, 1) && !FailsAt(g.cache, 0)
    ensures var o := GetPetsSpec(s, scanned, f);
      GetPetsSpec(o.state, again, g) == Outcome(o.state, o.response)
  {
  }

  /** Reads never touch the table or the cache flag, and whatever their
      faults they keep the cache consistent. */
  lemma ReadsPreserveConsistency(s: State, scanned: seq<Pet>, id: string, f: Faults)
    requires Consistent(s) && IsListing(s.store, scanned)
    ensures var o := GetPetsSpec(s, scanned, f);
      o.state.store == s.store && o.state.cacheEnabled == s.cacheEnabled && Consistent(o.state)
    ensures var o := GetPetSpec(s, id, f);
      o.state.store == s.store && o.state.cacheEnabled == s.cacheEnabled && Consistent(o.state)
  {
  }

  // ---------------------------------------------------------------------
  // Writes.

  /** A POST lacking a required field is rejected before anything is done. */
  lemma CreateRejectsIncomplete(s: State, input: PetInput, newId: string, t0: string, t1: string, f: Faults)
    requires !HasRequiredFields(input)
    ensures CreateSpec(s, input, newId, t0, t1, f) == Outcome(s, Response(400, ErrorBody(MissingFields)))
  {
  }

  /** A complete POST stores the new record under its id, drops `pets:all`,
      caches the record under `pet:<id>` and returns it with 201. */
  lemma CreateStoresPet(s: State, input: PetInput, newId: string, t0: string, t1: string, f: Faults)
    requires HasRequiredFields(input) && !Throws(f, 0)
    ensures var pet := NewPet(input, newId, t0, t1);
      var o := CreateSpec(s, input, newId, t0, t1, f);
      && o.response == Response(201, Data(PetJson(pet)))
      && o.state.store == s.store[newId := pet]
      && o.state.cacheEnabled == s.cacheEnabled
      && (s.cacheEnabled && !FailsAt(f.cache, 0) ==> AllPets !in o.state.cache)
      && (s.cacheEnabled && !FailsAt(f.cache, 1) ==> o.state.cache[PetById(newId)] == PetJson(pet))
      && (forall k :: k != AllPets && k != PetById(newId) ==>
            (k in o.state.cache <==> k in s.cache) && (k in s.cache ==> o.state.cache[k] == s.cache[k]))
  {
  }

  /** A PUT of an existing id writes the merged record, leaves neither
      `pets:all` nor a stale `pet:<id>` behind when the cache works, and
      returns the merged record. */
  lemma UpdateMergesPet(s: State, id: string, input: PetInput, t: string, f: Faults)
    requires id in s.store && !Throws(f, 0) && !Throws(f, 1)
    ensures var pet := Merge(s.store[id], input, t);
      var o := UpdateSpec(s, id, input, t, f);
      && o.response == Response(200, Data(PetJson(pet)))
      && o.state.store == s.store[id := pet]
      && o.state.cacheEnabled == s.cacheEnabled
      && (s.cacheEnabled && !FailsAt(f.cache, 0) ==> AllPets !in o.state.cache)
      && (s.cacheEnabled && !FailsAt(f.cache, 2) ==> o.state.cache[PetById(id)] == PetJson(pet))
      && (s.cacheEnabled && !FailsAt(f.cache, 1) && FailsAt(f.cache, 2) ==> PetById(id) !in o.state.cache)
      && (forall k :: k != AllPets && k != PetById(id) ==>
            (k in o.state.cache <==> k in s.cache) && (k in s.cache ==> o.state.cache[k] == s.cache[k]))
  {
  }

  /** PUT looks the id up in the table only: an id absent from the table is
      404 with nothing changed, even when the cache still holds a record for
      it. */
  lemma UpdateAbsentIs404(s: State, id: string, input: PetInput, t: string, f: Faults)
    requires id !in s.store && !Throws(f, 0)
    ensures UpdateSpec(s, id, input, t, f) == Outcome(s, Response(404, ErrorBody(PetNotFound)))
  {
  }

  /** DELETE of an absent id is 404 with nothing changed. */
  lemma DeleteAbsentIs404(s: State, id: string, f: Faults)
    requires id !in s.store && !Throws(f, 0)
    ensures DeleteSpec(s, id, f) == Outcome(s, Response(404, ErrorBody(PetNotFound)))
  {
  }

  /** A DELETE of an existing id removes the record, drops both cache keys
      when the cache works, and otherwise the cache only ever loses those
      two keys. */
  lemma DeleteRemovesPet(s: State, id: string, f: Faults)
    requires id in s.store && StoreAt(f, 0).Ok?
    ensures var o := DeleteSpec(s, id, f);
      && o.response == Response(200, MessageBody(PetDeleted))
      && o.state.store == s.store - {id}
      && o.state.cacheEnabled == s.cacheEnabled
      && (s.cacheEnabled && !FailsAt(f.cache, 0) ==> AllPets !in o.state.cache)
      && (s.cacheEnabled && !FailsAt(f.cache, 1) ==> PetById(id) !in o.state.cache)
      && (forall k :: k in o.state.cache ==> k in s.cache && o.state.cache[k] == s.cache[k])
      && (forall k :: k != AllPets && k != PetById(id) && k in s.cache ==> k in o.state.cache)
  {
  }

  /** A request that fails (400, 404 or 500) never touches the cache, and
      it leaves the table as it was unless the table applied a write whose
      reply was lost: then the table holds exactly that write. */
  lemma FailedRequestsChangeNothing(s: State, scanned: seq<Pet>, id: string, input: PetInput,
                                    newId: string, t0: string, t1: string, f: Faults)
    ensures var o := GetPetsSpec(s, scanned, f); o.response.status != 200 ==> o.state == s
    ensures var o := GetPetSpec(s, id, f); o.response.status != 200 ==> o.state == s
    ensures var o := CreateSpec(s, input, newId, t0, t1, f);
      o.response.status != 201 ==>
        || o.state == s
        || (StoreAt(f, 0).FailsApplied? && o.state == s.(store := s.store[newId := NewPet(input, newId, t0, t1)]))
    ensures var o := UpdateSpec(s, id, input, t1, f);
      o.response.status != 200 ==>
        || o.state == s
        || (id in s.store && StoreAt(f, 1).FailsApplied? &&
            o.state == s.(store := s.store[id := Merge(s.store[id], input, t1)]))
    ensures var o := DeleteSpec(s, id, f);
      o.response.status != 200 ==>
        || o.state == s
        || ((StoreAt(f, 0).FailsApplied? || StoreAt(f, 0).RetriedApplied?) && o.state == s.(store := s.store - {id}))
  {
  }

  /** Cache problems never cause a 500: every 500 comes from a failing table
      call, and with a working table no route answers 500. */
  lemma OnlyStoreFailuresGive500(s: State, scanned: seq<Pet>, id: string, input: PetInput,
                                 newId: string, t0: string, t1: string, f: Faults)
    ensures GetPetsSpec(s, scanned, f).response.status == 500 <==>
              CacheGet(s, AllPets, FailsAt(f.cache, 0)).None? && Throws(f, 0)
    ensures GetPetSpec(s, id, f).response.status == 500 <==>
              CacheGet(s, PetById(id), FailsAt(f.cache, 0)).None? && Throws(f, 0)
    ensures CreateSpec(s, input, newId, t0, t1, f).response.status == 500 <==>
              HasRequiredFields(input) && Throws(f, 0)
    ensures UpdateSpec(s, id, input, t1, f).response.status == 500 <==>
              Throws(f, 0) || (id in s.store && Throws(f, 1))
    ensures DeleteSpec(s, id, f).response.status == 500 <==> Throws(f, 0)
  {
  }

  /** What POST answers and what the table holds afterwards depend only on
      the table and the table's faults: not on the cache's contents, whether
      it is enabled, or its faults. */
  lemma CreateIgnoresCache(s: State, t: State, input: PetInput, newId: string, t0: string, t1: string,
                           f: Faults, g: Faults)
    requires s.store == t.store && f.store == g.store
    ensures CreateSpec(s, input, newId, t0, t1, f).response == CreateSpec(t, input, newId, t0, t1, g).response
    ensures CreateSpec(s, input, newId, t0, t1, f).state.store == CreateSpec(t, input, newId, t0, t1, g).state.store
  {
  }

  /** The same for PUT. */
  lemma UpdateIgnoresCache(s: State, t: State, id: string, input: PetInput, t1: string, f: Faults, g: Faults)
    requires s.store == t.store && f.store == g.store
    ensures UpdateSpec(s, id, input, t1, f).response == UpdateSpec(t, id, input, t1, g).response
    ensures UpdateSpec(s, id, input, t1, f).state.store == UpdateSpec(t, id, input, t1, g).state.store
  {
  }

  /** The same for DELETE. */
  lemma DeleteIgnoresCache(s: State, t: State, id: string, f: Faults, g: Faults)
    requires s.store == t.store && f.store == g.store
    ensures DeleteSpec(s, id, f).response == DeleteSpec(t, id, g).response
    ensures DeleteSpec(s, id, f).state.store == DeleteSpec(t, id, g).state.store
  {
  }

  /** POST keeps every stored record keyed by its own id and well formed:
      it only stores a record that passed validation, under that record's
      id. */
  lemma CreatePreservesStoreValid(s: State, input: PetInput, newId: string, t0: string, t1: string, f: Faults)
    requires StoreValid(s.store)
    ensures StoreValid(CreateSpec(s, input, newId, t0, t1, f).state.store)
  {
    if HasRequiredFields(input) && !Throws(f, 0) {
      CreateStoresPet(s, input, newId, t0, t1, f);
    }
  }

  /** PUT keeps the store valid: a truthy field is only ever replaced by a
      truthy one, and `id` is never rewritten. */
  lemma UpdatePreservesStoreValid(s: State, id: string, input: PetInput, t: string, f: Faults)
    requires StoreValid(s.store)
    ensures StoreValid(UpdateSpec(s, id, input, t, f).state.store)
  {
    if id in s.store && !Throws(f, 0) && !Throws(f, 1) {
      UpdateMergesPet(s, id, input, t, f);
    }
  }

  /** DELETE keeps the store valid. */
  lemma DeletePreservesStoreValid(s: State, id: string, f: Faults)
    requires StoreValid(s.store)
    ensures StoreValid(DeleteSpec(s, id, f).state.store)
  {
    if id in s.store && StoreAt(f, 0).Ok? {
      DeleteRemovesPet(s, id, f);
    }
  }

  /** POST keeps the cache consistent when its `pets:all` invalidation works
      and, should the id already be taken, its `pet:<id>` write works too;
      unless the table applied the put but the call threw, which skips both
      (`LostWriteReplyServesStale` shows the effect with PUT). */
  lemma CreatePreservesConsistency(s: State, input: PetInput, newId: string, t0: string, t1: string, f: Faults)
    requires Consistent(s)
    requires s.cacheEnabled ==> !FailsAt(f.cache, 0) && (newId in s.store ==> !FailsAt(f.cache, 1))
    ensures !HasRequiredFields(input) || !StoreAt(f, 0).FailsApplied? ==>
      Consistent(CreateSpec(s, input, newId, t0, t1, f).state)
  {
  }

  /** PUT keeps the cache consistent when its `pets:all` invalidation works
      and at least one of its two `pet:<id>` operations does; unless the
      table applied the update but the call threw. */
  lemma UpdatePreservesConsistency(s: State, id: string, input: PetInput, t: string, f: Faults)
    requires Consistent(s)
    requires s.cacheEnabled ==> !FailsAt(f.cache, 0) && (!FailsAt(f.cache, 1) || !FailsAt(f.cache, 2))
    ensures Throws(f, 0) || id !in s.store || !StoreAt(f, 1).FailsApplied? ==>
      Consistent(UpdateSpec(s, id, input, t, f).state)
  {
  }

  /** DELETE keeps the cache consistent when both invalidations work; unless
      the table deleted an existing record without the route seeing it (a
      lost reply, or an SDK retry that found the record gone), which skips
      them. */
  lemma DeletePreservesConsistency(s: State, id: string, f: Faults)
    requires Consistent(s)
    requires s.cacheEnabled ==> !FailsAt(f.cache, 0) && !FailsAt(f.cache, 1)
    ensures id !in s.store || StoreAt(f, 0).Ok? || StoreAt(f, 0).Fails? ==>
      Consistent(DeleteSpec(s, id, f).state)
  {
  }

  /** Write-then-read: right after a POST on a working cache, GET of the new
      id answers the new record from the cache, even if the table is down. */
  lemma ReadAfterCreate(s: State, input: PetInput, newId: string, t0: string, t1: string, f: Faults, g: Faults)
    requires HasRequiredFields(input) && !Throws(f, 0)
    requires s.cacheEnabled && !FailsAt(f.cache, 1) && !FailsAt(g.cache, 0)
    ensures var o := CreateSpec(s, input, newId, t0, t1, f);
      GetPetSpec(o.state, newId, g) == Outcome(o.state, Response(200, Data(PetJson(NewPet(input, newId, t0, t1)))))
  {
  }

  /** Write-then-read: after a PUT whose `pet:<id>` entry was overwritten or
      dropped, GET returns the merged record. */
  lemma ReadAfterUpdate(s: State, id: string, input: PetInput, t: string, f: Faults, g: Faults)
    requires id in s.store && !Throws(f, 0) && !Throws(f, 1) && !Throws(g, 0)
    requires s.cacheEnabled ==> !FailsAt(f.cache, 1) || !FailsAt(f.cache, 2)
    ensures var o := UpdateSpec(s, id, input, t, f);
      GetPetSpec(o.state, id, g).response == Response(200, Data(PetJson(Merge(s.store[id], input, t))))
  {
  }

  /** Write-then-read: after a DELETE whose `pet:<id>` invalidation worked,
      GET of that id is 404. */
  lemma ReadAfterDelete(s: State, id: string, f: Faults, g: Faults)
    requires id in s.store && StoreAt(f, 0).Ok? && !Throws(g, 0)
    requires s.cacheEnabled ==> !FailsAt(f.cache, 1)
    ensures GetPetSpec(DeleteSpec(s, id, f).state, id, g).response == Response(404, ErrorBody(PetNotFound))
  {
  }

  /** Write-then-list: after any successful write whose `pets:all`
      invalidation worked, GET /pets scans the table afresh. */
  lemma ListAfterWrite(s: State, id: string, input: PetInput, newId: string, t0: string, t1: string,
                       scanned: seq<Pet>, f: Faults, g: Faults)
    requires !Throws(f, 0) && !Throws(f, 1) && !Throws(g, 0)
    requires s.cacheEnabled ==> !FailsAt(f.cache, 0)
    ensures HasRequiredFields(input) ==>
      GetPetsSpec(CreateSpec(s, input, newId, t0, t1, f).state, scanned, g).response == Response(200, Data(PetListJson(scanned)))
    ensures id in s.store ==>
      GetPetsSpec(UpdateSpec(s, id, input, t1, f).state, scanned, g).response == Response(200, Data(PetListJson(scanned)))
    ensures id in s.store && StoreAt(f, 0).Ok? ==>
      GetPetsSpec(DeleteSpec(s, id, f).state, scanned, g).response == Response(200, Data(PetListJson(scanned)))
  {
  }

  /** The limit of the guarantee: a DELETE whose `pet:<id>` invalidation
      fails still answers 200, and the next GET serves the deleted record
      from the cache. */
  lemma FailedInvalidationServesStale()
    ensures var p := NewPet(PetInput(Str("Max"), Str("Dog"), Undefined, Undefined, Str("John Doe"), Str("555-1234")),
                            "a", "t0", "t0");
      var s := State(map["a" := p], map[PetById("a") := PetJson(p)], true);
      var o := DeleteSpec(s, "a", Faults([], [false, true]));
      && Consistent(s)
      && o.response == Response(200, MessageBody(PetDeleted))
      && "a" !in o.state.store
      && !Consistent(o.state)
      && GetPetSpec(o.state, "a", NoFaults).response == Response(200, Data(PetJson(p)))
  {
    var p := NewPet(PetInput(Str("Max"), Str("Dog"), Undefined, Undefined, Str("John Doe"), Str("555-1234")),
                    "a", "t0", "t0");
    var s := State(map["a" := p], map[PetById("a") := PetJson(p)], true);
    var o := DeleteSpec(s, "a", Faults([], [false, true]));
    assert o.state.store == map[];
    assert o.state.cache == s.cache;
    assert !EntryFresh(o.state.store, PetById("a"), o.state.cache[PetById("a")]);
  }

  /** POST never checks that the generated id is new. A POST that reuses an
      id cached under `pet:<id>` and whose `pet:<id>` write fails still
      answers 201; its `pets:all` invalidation does not touch the old entry,
      so the next GET serves the record the table no longer holds. */
  lemma ReusedIdServesStale()
    ensures var p := NewPet(PetInput(Str("Max"), Str("Dog"), Undefined, Undefined, Str("John Doe"), Str("555-1234")),
                            "a", "t0", "t0");
      var input := PetInput(Str("Bella"), Str("Cat"), Undefined, Undefined, Str("Jane Roe"), Str("555-9876"));
      var s := State(map["a" := p], map[PetById("a") := PetJson(p)], true);
      var o := CreateSpec(s, input, "a", "t1", "t1", Faults([], [false, true]));
      && Consistent(s)
      && o.response == Response(201, Data(PetJson(NewPet(input, "a", "t1", "t1"))))
      && !Consistent(o.state)
      && GetPetSpec(o.state, "a", NoFaults).response == Response(200, Data(PetJson(p)))
  {
    var p := NewPet(PetInput(Str("Max"), Str("Dog"), Undefined, Undefined, Str("John Doe"), Str("555-1234")),
                    "a", "t0", "t0");
    var input := PetInput(Str("Bella"), Str("Cat"), Undefined, Undefined, Str("Jane Roe"), Str("555-9876"));
    var s := State(map["a" := p], map[PetById("a") := PetJson(p)], true);
    var o := CreateSpec(s, input, "a", "t1", "t1", Faults([], [false, true]));
    assert o.state.cache == s.cache;
    assert o.state.store["a"].name == Str("Bella") != p.name;
    assert !EntryFresh(o.state.store, PetById("a"), o.state.cache[PetById("a")]);
  }

  /** A PUT whose update the table applied but whose reply was lost answers
      500 and skips the invalidations: the old `pet:<id>` entry outlives the
      record it copied, and the next GET serves it. */
  lemma LostWriteReplyServesStale()
    ensures var p := NewPet(PetInput(Str("Max"), Str("Dog"), Undefined, Undefined, Str("John Doe"), Str("555-1234")),
                            "a", "t0", "t0");
      var input := PetInput(Undefined, Undefined, Undefined, Num(5.0), Undefined, Undefined);
      var s := State(map["a" := p], map[PetById("a") := PetJson(p)], true);
      var o := UpdateSpec(s, "a", input, "t1", Faults([Ok, FailsApplied], []));
      && Consistent(s)
      && o.response == Response(500, ErrorBody(UpdateFailed))
      && o.state.store == map["a" := Merge(p, input, "t1")]
      && !Consistent(o.state)
      && GetPetSpec(o.state, "a", NoFaults).response == Response(200, Data(PetJson(p)))
  {
    var p := NewPet(PetInput(Str("Max"), Str("Dog"), Undefined, Undefined, Str("John Doe"), Str("555-1234")),
                    "a", "t0", "t0");
    var input := PetInput(Undefined, Undefined, Undefined, Num(5.0), Undefined, Undefined);
    var s := State(map["a" := p], map[PetById("a") := PetJson(p)], true);
    var o := UpdateSpec(s, "a", input, "t1", Faults([Ok, FailsApplied], []));
    assert o.state.cache == s.cache;
    assert o.state.store["a"].age == Num(5.0) != p.age;
    assert !EntryFresh(o.state.store, PetById("a"), o.state.cache[PetById("a")]);
  }

  /** A DELETE whose first attempt the table applied but whose reply was
      lost is retried by the SDK; the retry finds nothing, so the route
      answers 404, skips the invalidations, and the deleted record is still
      served from the cache. */
  lemma RetriedDeleteServesStale()
    ensures var p := NewPet(PetInput(Str("Max"), Str("Dog"), Undefined, Undefined, Str("John Doe"), Str("555-1234")),
                            "a", "t0", "t0");
      var s := State(map["a" := p], map[PetById("a") := PetJson(p)], true);
      var o := DeleteSpec(s, "a", Faults([RetriedApplied], []));
      && Consistent(s)
      && o.response == Response(404, ErrorBody(PetNotFound))
      && "a" !in o.state.store
      && !Consistent(o.state)
      && GetPetSpec(o.state, "a", NoFaults).response == Response(200, Data(PetJson(p)))
  {
    var p := NewPet(PetInput(Str("Max"), Str("Dog"), Undefined, Undefined, Str("John Doe"), Str("555-1234")),
                    "a", "t0", "t0");
    var s := State(map["a" := p], map[PetById("a") := PetJson(p)], true);
    var o := DeleteSpec(s, "a", Faults([RetriedApplied], []));
    assert o.state.store == map[];
    assert o.state.cache == s.cache;
    assert !EntryFresh(o.state.store, PetById("a"), o.state.cache[PetById("a")]);
  }

  /** Cache entries outlive the client handle: a PUT made after the handle
      was dropped leaves `pet:<id>` as it was, and a process started later
      on the same table and the same Redis instance serves the old record. */
  lemma CacheOutlivesDroppedClient()
    ensures var p := NewPet(PetInput(Str("Max"), Str("Dog"), Undefined, Undefined, Str("John Doe"), Str("555-1234")),
                            "a", "t0", "t0");
      var input := PetInput(Undefined, Undefined, Undefined, Num(5.0), Undefined, Undefined);
      var s := State(map["a" := p], map[PetById("a") := PetJson(p)], false);
      var o := UpdateSpec(s, "a", input, "t1", NoFaults);
      var restarted := State(o.state.store, o.state.cache, true);
      && Consistent(s)
      && o.response == Response(200, Data(PetJson(Merge(p, input, "t1"))))
      && Consistent(o.state)
      && !Consistent(restarted)
      && GetPetSpec(restarted, "a", NoFaults).response == Response(200, Data(PetJson(p)))
  {
    var p := NewPet(PetInput(Str("Max"), Str("Dog"), Undefined, Undefined, Str("John Doe"), Str("555-1234")),
                    "a", "t0", "t0");
    var input := PetInput(Undefined, Undefined, Undefined, Num(5.0), Undefined, Undefined);
    var s := State(map["a" := p], map[PetById("a") := PetJson(p)], false);
    var o := UpdateSpec(s, "a", input, "t1", NoFaults);
    var restarted := State(o.state.store, o.state.cache, true);
    assert o.state.cache == s.cache;
    assert o.state.store["a"].age == Num(5.0) != p.age;
    assert !EntryFresh(restarted.store, PetById("a"), restarted.cache[PetById("a")]);
  }
}
