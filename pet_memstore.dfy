/**
 * pkg/pet/memstore.go: the newer in-memory store. A sync.Map holds the entries as
 * untyped values; create and delete run their check-then-act under a mutex. Each
 * operation is modelled as one atomic step.
 */
module PetMemStore {
  import opened Wrappers
  import opened Ints
  import opened Decimal
  import opened PetModels
  import opened PetErrors

  /** A value held by the sync.Map: a Pet, or (never in practice) a value of another type. */
  datatype StoredValue = AsPet(pet: Pet) | NotAPet

  function NoPetError(petID: int32): APIError {
    APIErrorf(ErrIDNotFound, "No pet exists with id " + FormatInt(petID as int))
  }

  function DuplicateError(petID: int32): APIError {
    APIErrorf(ErrIDAlreadyExists, "Pet with id " + FormatInt(petID as int) + " already exists")
  }

  class MemStore {
    var store: map<int32, StoredValue>

    /** Only pets are ever stored. */
    ghost predicate Valid()
      reads this
    {
      forall id :: id in store ==> store[id].AsPet?
    }

    /** The stored pets by ID. */
    ghost function Contents(): map<int32, Pet>
      reads this
      requires Valid()
    {
      map id | id in store :: store[id].pet
    }

    /** NewMemStore. */
    constructor ()
      ensures Valid() && Contents() == map[]
    {
      store := map[];
    }

    /**
     * The pet under petID, or an ErrIDNotFound error and no pet. The ErrUnknown branch
     * (a stored value that is not a Pet) cannot be taken: Valid() rules it out.
     */
    method GetPet(petID: int32) returns (pet: Option<Pet>, err: Option<APIError>)
      requires Valid()
      ensures petID in Contents() ==> pet == Some(Contents()[petID]) && err == None
      ensures petID !in Contents() ==> pet == None && err == Some(NoPetError(petID))
    {
      if petID !in store {
        return None, Some(NoPetError(petID));
      }
      match store[petID] {
        case NotAPet =>
          return None, Some(APIErrorf(ErrUnknown, "Could not read pet data from store"));
        case AsPet(p) =>
          pet, err := Some(p), None;
      }
    }

    /** Inserts the pet under pet.ID; a taken ID is an ErrIDAlreadyExists error and changes nothing. */
    method PostPet(pet: Pet) returns (err: Option<APIError>)
      requires Valid()
      modifies this
      ensures Valid()
      ensures pet.id in old(Contents()) ==> err == Some(DuplicateError(pet.id)) && Contents() == old(Contents())
      ensures pet.id !in old(Contents()) ==> err == None && Contents() == old(Contents())[pet.id := pet]
    {
      if pet.id in store {
        return Some(DuplicateError(pet.id));
      }
      store := store[pet.id := AsPet(pet)];
      err := None;
    }

    /** Upsert under the petID argument (not pet.ID); never an error. */
    method PutPet(petID: int32, pet: Pet) returns (err: Option<APIError>)
      requires Valid()
      modifies this
      ensures Valid()
      ensures err == None
      ensures Contents() == old(Contents())[petID := pet]
    {
      store := store[petID := AsPet(pet)];
      err := None;
    }

    /** Removes the entry if present; the boolean says whether one was removed. Never an error. */
    method DeletePet(petID: int32) returns (deleted: bool, err: Option<APIError>)
      requires Valid()
      modifies this
      ensures Valid()
      ensures err == None
      ensures deleted <==> petID in old(Contents())
      ensures Contents() == old(Contents()) - {petID}
    {
      if petID !in store {
        return false, None;
      }
      store := store - {petID};
      deleted, err := true, None;
    }
  }

  /** A pet created under a free ID reads back equal. */
  method CreateThenRead(p: Pet) returns (created: Option<APIError>, read: Option<Pet>)
    ensures created == None && read == Some(p)
  {
    var s := new MemStore();
    created := s.PostPet(p);
    var readErr;
    read, readErr := s.GetPet(p.id);
  }

  /** A second create under a taken ID fails with ErrIDAlreadyExists and the first pet stays. */
  method CreateTwiceKeepsFirst(first: Pet, second: Pet) returns (err: Option<APIError>, read: Option<Pet>)
    requires first.id == second.id
    ensures err.Some? && err.value.code == ErrIDAlreadyExists
    ensures read == Some(first)
  {
    var s := new MemStore();
    var e := s.PostPet(first);
    err := s.PostPet(second);
    var readErr;
    read, readErr := s.GetPet(first.id);
  }

  /**
   * Update is an upsert keyed by its ID argument: over a store seeded with one pet,
   * PutPet(petID, p) then a read of petID gives p, whether or not petID was taken,
   * and the seed stays readable under its own ID unless it was overwritten.
   */
  method UpdateIsUpsert(seed: Pet, petID: int32, p: Pet) returns (err: Option<APIError>, read: Option<Pet>, seedRead: Option<Pet>)
    ensures err == None && read == Some(p)
    ensures seedRead == if seed.id == petID then Some(p) else Some(seed)
  {
    var s := new MemStore();
    var e := s.PostPet(seed);
    err := s.PutPet(petID, p);
    var readErr;
    read, readErr := s.GetPet(petID);
    seedRead, readErr := s.GetPet(seed.id);
  }

  /** Deleting twice reports true, then false, and a read afterwards fails with ErrIDNotFound. */
  method DeleteTwice(p: Pet) returns (first: bool, second: bool, readErr: Option<APIError>)
    ensures first && !second
    ensures readErr.Some? && readErr.value.code == ErrIDNotFound
  {
    var s := new MemStore();
    var e := s.PostPet(p);
    first, e := s.DeletePet(p.id);
    second, e := s.DeletePet(p.id);
    var read;
    read, readErr := s.GetPet(p.id);
  }
}
