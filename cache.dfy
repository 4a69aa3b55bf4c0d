/** The Redis side of the pet service: the two kinds of cache key, the values
    stored under them, and what it means for the cache to agree with the
    table. */
module CacheModel {
  import opened Pets

  /** `pets:all` holds the whole table, `pet:<id>` one record. */
  datatype CacheKey = AllPets | PetById(id: string)

  /** The Redis key string of a cache key. Both kinds start with "pet"; the
      fourth character tells them apart, and an id key carries the id after
      its colon. */
  function KeyName(k: CacheKey): (name: string)
    ensures |name| >= 4 && name[..3] == "pet"
    ensures k.PetById? <==> name[3] == ':'
    ensures k.PetById? ==> name[4..] == k.id
  {
    match k
    case AllPets => "pets:all"
    case PetById(id) => "pet:" + id
  }

  /** Distinct cache keys have distinct Redis names (by the decoding that
      `KeyName` guarantees), so a cache indexed by `CacheKey` is the same as
      one indexed by the strings the service uses. */
  lemma KeyNameInjective(a: CacheKey, b: CacheKey)
    ensures KeyName(a) == KeyName(b) ==> a == b
  {
  }

  /** The JSON the service caches and returns: one record or an array of them. */
  datatype Json = PetJson(pet: Pet) | PetListJson(items: seq<Pet>)

  /** `items` lists every record of `store` exactly once, in some order: what
      a DynamoDB scan of the whole table returns. */
  ghost predicate IsListing(store: map<string, Pet>, items: seq<Pet>) {
    && (forall i :: 0 <= i < |items| ==> items[i].id in store && store[items[i].id] == items[i])
    && (forall i, j :: 0 <= i < j < |items| ==> items[i].id != items[j].id)
    && (forall id :: id in store ==> exists i :: 0 <= i < |items| && items[i].id == id)
  }

  /** The value cached under `k` is what the table currently holds for it. */
  ghost predicate EntryFresh(store: map<string, Pet>, k: CacheKey, v: Json) {
    match k
    case AllPets => v.PetListJson? && IsListing(store, v.items)
    case PetById(id) => id in store && v == PetJson(store[id])
  }

  /** Every cache entry is fresh. */
  ghost predicate Coherent(store: map<string, Pet>, cache: map<CacheKey, Json>) {
    forall k :: k in cache ==> EntryFresh(store, k, cache[k])
  }
}
