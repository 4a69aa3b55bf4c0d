/** The pet service process: the DynamoDB table, the Redis cache and the
    module-level Redis client handle as the fields of one object, and one
    method per route that changes them step by step in the order the
    handler does. Each method is proved to do what the matching function of
    `Handlers` says. */
module PetServer {
  import opened Wrappers
  import opened JsValues
  import opened Pets
  import opened CacheModel
  import opened Handlers

  class Server {
    /** The DynamoDB table, by id. */
    var store: map<string, Pet>
    /** The Redis cache. */
    var cache: map<CacheKey, Json>
    /** `redisClient !== null`. */
    var cacheEnabled: bool

    ghost function Model(): State
      reads this
    {
      State(store, cache, cacheEnabled)
    }

    ghost predicate Valid()
      reads this
    {
      StoreValid(store)
    }

    /** Start-up. The table and the Redis instance outlive the process, so
        it starts on whatever they hold: `table` (records written by these
        handlers) and `redisContents`, which may be stale
        (`CacheOutlivesDroppedClient`). `redisCreated` says whether creating
        the Redis client succeeded. Only a cache that starts empty is sure
        to be consistent. */
    constructor (table: map<string, Pet>, redisContents: map<CacheKey, Json>, redisCreated: bool)
      requires StoreValid(table)
      ensures Valid()
      ensures Model() == State(table, redisContents, redisCreated)
      ensures redisContents == map[] || !redisCreated ==> Consistent(Model())
    {
      store := table;
      cache := redisContents;
      cacheEnabled := redisCreated;
    }

    /** The client's `error` or `end` event, or a failed ping: the handle is
        dropped and caching stays off for the life of the process. */
    method DisableCache()
      modifies this`cacheEnabled
      ensures Model() == old(Model()).(cacheEnabled := false)
      ensures Consistent(Model())
    {
      cacheEnabled := false;
    }

    /** `getFromCache`: a hit, or a miss when there is no client or the call
        fails. */
    method GetFromCache(key: CacheKey, fails: bool) returns (r: Option<Json>)
      ensures r == CacheGet(Model(), key, fails)
    {
      if !cacheEnabled {
        return None;
      }
      if fails {
        return None;
      }
      r := if key in cache then Some(cache[key]) else None;
    }

    /** `setCache`: a no-op when there is no client or the call fails. */
    method SetCache(key: CacheKey, v: Json, fails: bool)
      modifies this`cache
      ensures Model() == CacheSet(old(Model()), key, v, fails)
    {
      if !cacheEnabled {
        return;
      }
      if !fails {
        cache := cache[key := v];
      }
    }

    /** `invalidateCache` of a literal key: KEYS finds at most that key, and
        DEL runs only when it was found. */
    method InvalidateCache(key: CacheKey, fails: bool)
      modifies this`cache
      ensures Model() == CacheDel(old(Model()), key, fails)
    {
      if !cacheEnabled {
        return;
      }
      if !fails && key in cache {
        cache := cache - {key};
      }
    }

    /** A full-table DynamoDB scan: every record once, in an order the table
        chooses. */
    method Scan() returns (items: seq<Pet>)
      requires Valid()
      ensures IsListing(store, items)
    {
      items := [];
      var pending := store.Keys;
      while pending != {}
        invariant pending <= store.Keys
        invariant forall i :: 0 <= i < |items| ==>
                    items[i].id in store && store[items[i].id] == items[i] && items[i].id !in pending
        invariant forall i, j :: 0 <= i < j < |items| ==> items[i].id != items[j].id
        invariant forall id :: id in store && id !in pending ==> exists i :: 0 <= i < |items| && items[i].id == id
        decreases pending
      {
        var id :| id in pending;
        assert store[id].id == id;
        ghost var before := items;
        items := items + [store[id]];
        pending := pending - {id};
        assert items[|before|].id == id;
        forall other | other in store && other !in pending
          ensures exists i :: 0 <= i < |items| && items[i].id == other
        {
          if other != id {
            var i :| 0 <= i < |before| && before[i].id == other;
            assert items[i] == before[i];
          }
        }
      }
    }

    /** GET /health. */
    method Health() returns (resp: Response)
      ensures resp == Response(200, HealthBody("healthy"))
    {
      resp := Response(200, HealthBody("healthy"));
    }

    /** GET /pets. */
    method GetPets(f: Faults) returns (resp: Response)
      requires Valid()
      modifies this`cache
      ensures Valid()
      ensures exists scanned ::
                && (CacheGet(old(Model()), AllPets, FailsAt(f.cache, 0)).None? && !Throws(f, 0) ==>
                      IsListing(old(store), scanned))
                && Outcome(Model(), resp) == GetPetsSpec(old(Model()), scanned, f)
    {
      var cached := GetFromCache(AllPets, FailsAt(f.cache, 0));
      if cached.Some? {
        resp := Response(200, Data(cached.value));
        assert Outcome(Model(), resp) == GetPetsSpec(old(Model()), [], f);
        return;
      }
      if Throws(f, 0) {
        resp := Response(500, ErrorBody(FetchPetsFailed));
        assert Outcome(Model(), resp) == GetPetsSpec(old(Model()), [], f);
        return;
      }
      var items := Scan();
      SetCache(AllPets, PetListJson(items), FailsAt(f.cache, 1));
      resp := Response(200, Data(PetListJson(items)));
      assert Outcome(Model(), resp) == GetPetsSpec(old(Model()), items, f);
    }

    /** GET /pets/:id. */
    method GetPet(id: string, f: Faults) returns (resp: Response)
      requires Valid()
      modifies this`cache
      ensures Valid()
      ensures Outcome(Model(), resp) == GetPetSpec(old(Model()), id, f)
    {
      var cached := GetFromCache(PetById(id), FailsAt(f.cache, 0));
      if cached.Some? {
        return Response(200, Data(cached.value));
      }
      if Throws(f, 0) {
        return Response(500, ErrorBody(FetchPetFailed));
      }
      if id !in store {
        return Response(404, ErrorBody(PetNotFound));
      }
      var item := store[id];
      SetCache(PetById(id), PetJson(item), FailsAt(f.cache, 1));
      resp := Response(200, Data(PetJson(item)));
    }

    /** POST /pets, with the generated id and the two clock readings as
        inputs. */
    method CreatePet(input: PetInput, newId: string, createdAt: string, updatedAt: string, f: Faults)
      returns (resp: Response)
      requires Valid()
      modifies this`store, this`cache
      ensures Valid()
      ensures Outcome(Model(), resp) == CreateSpec(old(Model()), input, newId, createdAt, updatedAt, f)
    {
      if !HasRequiredFields(input) {
        return Response(400, ErrorBody(MissingFields));
      }
      var pet := NewPet(input, newId, createdAt, updatedAt);
      var put := StoreAt(f, 0);
      if put.Fails? {
        return Response(500, ErrorBody(CreateFailed));
      }
      store := store[pet.id := pet];
      CreatePreservesStoreValid(old(Model()), input, newId, createdAt, updatedAt, f);
      if put.FailsApplied? {
        return Response(500, ErrorBody(CreateFailed));
      }
      InvalidateCache(AllPets, FailsAt(f.cache, 0));
      SetCache(PetById(pet.id), PetJson(pet), FailsAt(f.cache, 1));
      resp := Response(201, Data(PetJson(pet)));
    }

    /** PUT /pets/:id, with the clock reading as input. */
    method UpdatePet(id: string, input: PetInput, updatedAt: string, f: Faults) returns (resp: Response)
      requires Valid()
      modifies this`store, this`cache
      ensures Valid()
      ensures Outcome(Model(), resp) == UpdateSpec(old(Model()), id, input, updatedAt, f)
    {
      if Throws(f, 0) {
        return Response(500, ErrorBody(UpdateFailed));
      }
      if id !in store {
        return Response(404, ErrorBody(PetNotFound));
      }
      var existing := store[id];
      var pet := Merge(existing, input, updatedAt);
      var update := StoreAt(f, 1);
      if update.Fails? {
        return Response(500, ErrorBody(UpdateFailed));
      }
      store := store[id := pet];
      UpdatePreservesStoreValid(old(Model()), id, input, updatedAt, f);
      if update.FailsApplied? {
        return Response(500, ErrorBody(UpdateFailed));
      }
      InvalidateCache(AllPets, FailsAt(f.cache, 0));
      InvalidateCache(PetById(id), FailsAt(f.cache, 1));
      SetCache(PetById(id), PetJson(pet), FailsAt(f.cache, 2));
      resp := Response(200, Data(PetJson(pet)));
    }

    /** DELETE /pets/:id. */
    method DeletePet(id: string, f: Faults) returns (resp: Response)
      requires Valid()
      modifies this`store, this`cache
      ensures Valid()
      ensures Outcome(Model(), resp) == DeleteSpec(old(Model()), id, f)
    {
      var delete := StoreAt(f, 0);
      if delete.Fails? {
        return Response(500, ErrorBody(DeleteFailed));
      }
      // The reply's `Attributes` are the record the table removed, if any.
      var removed := id in store;
      store := store - {id};
      DeletePreservesStoreValid(old(Model()), id, f);
      if delete.FailsApplied? {
        return Response(500, ErrorBody(DeleteFailed));
      }
      if !removed || delete.RetriedApplied? {
        return Response(404, ErrorBody(PetNotFound));
      }
      InvalidateCache(AllPets, FailsAt(f.cache, 0));
      InvalidateCache(PetById(id), FailsAt(f.cache, 1));
      resp := Response(200, MessageBody(PetDeleted));
    }
  }

  /** One pet's life on a working cache: create Max, read him back from the
      cache while the table is down, set his age, delete him, and find him
      gone. */
  method PetLifecycle() {
    var server := new Server(map[], map[], true);
    var input := PetInput(Str("Max"), Str("Dog"), Undefined, Undefined, Str("John Doe"), Str("555-1234"));
    var max := NewPet(input, "id-1", "t0", "t0");
    var r := server.CreatePet(input, "id-1", "t0", "t0", NoFaults);
    assert r == Response(201, Data(PetJson(max)));
    assert max.breed == Null && max.age == Null;
    r := server.GetPet("id-1", Faults([Fails], []));
    assert r == Response(200, Data(PetJson(max)));
    var older := PetInput(Undefined, Undefined, Undefined, Num(5.0), Undefined, Undefined);
    r := server.UpdatePet("id-1", older, "t1", NoFaults);
    assert r == Response(200, Data(PetJson(max.(age := Num(5.0), updatedAt := "t1"))));
    r := server.DeletePet("id-1", NoFaults);
    assert r == Response(200, MessageBody(PetDeleted));
    r := server.GetPet("id-1", NoFaults);
    assert r == Response(404, ErrorBody(PetNotFound));
  }
}
