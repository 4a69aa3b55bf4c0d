/** The pet record of the pet service, the fields a client may send, and the
    two record-building rules of the POST and PUT handlers. */
module Pets {
  import opened JsValues

  /** A stored pet. `id`, `createdAt` and `updatedAt` are strings produced by
      the server; the other fields hold whatever the client sent. */
  datatype Pet = Pet(
    id: string,
    name: Value,
    species: Value,
    breed: Value,
    age: Value,
    ownerName: Value,
    ownerContact: Value,
    createdAt: string,
    updatedAt: string)

  /** The six fields read from a POST or PUT body. */
  datatype PetInput = PetInput(
    name: Value,
    species: Value,
    breed: Value,
    age: Value,
    ownerName: Value,
    ownerContact: Value)

  /** A body with none of the fields present. */
  const EmptyInput := PetInput(Undefined, Undefined, Undefined, Undefined, Undefined, Undefined)

  /** The POST guard: all four required fields are truthy. */
  predicate HasRequiredFields(input: PetInput)
    ensures HasRequiredFields(input) <==>
      && input.name !in FalsyValues && input.species !in FalsyValues
      && input.ownerName !in FalsyValues && input.ownerContact !in FalsyValues
  {
    Truthy(input.name) && Truthy(input.species) && Truthy(input.ownerName) && Truthy(input.ownerContact)
  }

  /** What every record in the table satisfies when it was written by these
      handlers: required fields truthy, optional ones present (maybe `null`). */
  predicate WellFormed(p: Pet) {
    && Truthy(p.name) && Truthy(p.species) && Truthy(p.ownerName) && Truthy(p.ownerContact)
    && p.breed != Undefined && p.age != Undefined
  }

  /** The record POST builds: the id and both timestamps come from the
      server, breed and age fall back to `null` when falsy. */
  function NewPet(input: PetInput, id: string, createdAt: string, updatedAt: string): (p: Pet)
    ensures p.id == id && p.createdAt == createdAt && p.updatedAt == updatedAt
    ensures p.name == input.name && p.species == input.species
    ensures p.ownerName == input.ownerName && p.ownerContact == input.ownerContact
    ensures Truthy(input.breed) ==> p.breed == input.breed
    ensures !Truthy(input.breed) ==> p.breed == Null
    ensures Truthy(input.age) ==> p.age == input.age
    ensures !Truthy(input.age) ==> p.age == Null
    ensures HasRequiredFields(input) ==> WellFormed(p)
  {
    Pet(id, input.name, input.species, Or(input.breed, Null), Or(input.age, Null),
        input.ownerName, input.ownerContact, createdAt, updatedAt)
  }

  /** The record PUT writes: each of the six fields takes the supplied value
      when it is truthy and keeps the existing one otherwise; `id` and
      `createdAt` are kept and `updatedAt` is replaced. */
  function Merge(existing: Pet, input: PetInput, updatedAt: string): (p: Pet)
    ensures p.id == existing.id && p.createdAt == existing.createdAt && p.updatedAt == updatedAt
    ensures p.name == (if Truthy(input.name) then input.name else existing.name)
    ensures p.species == (if Truthy(input.species) then input.species else existing.species)
    ensures p.breed == (if Truthy(input.breed) then input.breed else existing.breed)
    ensures p.age == (if Truthy(input.age) then input.age else existing.age)
    ensures p.ownerName == (if Truthy(input.ownerName) then input.ownerName else existing.ownerName)
    ensures p.ownerContact == (if Truthy(input.ownerContact) then input.ownerContact else existing.ownerContact)
    ensures WellFormed(existing) ==> WellFormed(p)
  {
    existing.(
      name := Or(input.name, existing.name),
      species := Or(input.species, existing.species),
      breed := Or(input.breed, existing.breed),
      age := Or(input.age, existing.age),
      ownerName := Or(input.ownerName, existing.ownerName),
      ownerContact := Or(input.ownerContact, existing.ownerContact),
      updatedAt := updatedAt)
  }

  /** Applying the same update twice with the same timestamp changes nothing
      the second time. */
  lemma MergeIdempotent(existing: Pet, input: PetInput, updatedAt: string)
    ensures Merge(Merge(existing, input, updatedAt), input, updatedAt) == Merge(existing, input, updatedAt)
  {
  }

  /** An update that supplies no field only moves `updatedAt`. */
  lemma MergeEmptyInput(existing: Pet, updatedAt: string)
    ensures Merge(existing, EmptyInput, updatedAt) == existing.(updatedAt := updatedAt)
  {
  }

  /** Truthiness, not presence, decides: an age of `0` or an empty breed is
      treated as "not supplied", both on creation and on update. */
  lemma FalsyCountsAsAbsent(existing: Pet, input: PetInput, id: string, t0: string, t1: string)
    requires input.age == Num(0.0) && input.breed == Str("")
    ensures NewPet(input, id, t0, t1).age == Null && NewPet(input, id, t0, t1).breed == Null
    ensures Merge(existing, input, t1).age == existing.age
    ensures Merge(existing, input, t1).breed == existing.breed
  {
  }
}
