/**
 * pkg/petservice/memstore.go: the older in-memory store, a plain Go map from ID to
 * pet with no locking. Its errors are plain fmt.Errorf errors.
 */
module PetserviceMemStore {
  import opened Wrappers
  import opened Ints
  import opened Decimal
  import opened PetModels
  import opened PetserviceErrors

  function NoPetError(petID: int32): Err {
    Plain("No pet exists with id " + FormatInt(petID as int))
  }

  function DuplicateError(petID: int32): Err {
    Plain("Pet with id " + FormatInt(petID as int) + " already exists")
  }

  class MemStore {
    var store: map<int32, Pet>

    /** NewMemStore: an empty map. */
    constructor ()
      ensures store == map[]
    {
      store := map[];
    }

    /** A copy of the pet under petID, or an error naming the ID when there is none. */
    method GetPet(petID: int32) returns (pet: Option<Pet>, err: Option<Err>)
      ensures petID in store ==> pet == Some(store[petID]) && err == None
      ensures petID !in store ==> pet == None && err == Some(NoPetError(petID))
    {
      if petID !in store {
        return None, Some(NoPetError(petID));
      }
      pet, err := Some(store[petID]), None;
    }

    /** Inserts the pet under pet.ID unless that key is taken; a taken key is an error and changes nothing. */
    method PostPet(pet: Pet) returns (err: Option<Err>)
      modifies this
      ensures pet.id in old(store) ==> err == Some(DuplicateError(pet.id)) && store == old(store)
      ensures pet.id !in old(store) ==> err == None && store == old(store)[pet.id := pet]
    {
      if pet.id in store {
        return Some(DuplicateError(pet.id));
      }
      store := store[pet.id := pet];
      err := None;
    }

    /**
     * Upsert that never fails. The key is pet.ID: the petID argument is ignored, so a
     * body whose ID differs from the path ID is written under the body's ID.
     */
    method PutPet(petID: int32, pet: Pet) returns (err: Option<Err>)
      modifies this
      ensures err == None
      ensures store == old(store)[pet.id := pet]
    {
      store := store[pet.id := pet];
      err := None;
    }

    /** Removes the entry if present; the boolean says whether one was removed. Never an error. */
    method DeletePet(petID: int32) returns (deleted: bool, err: Option<Err>)
      modifies this
      ensures err == None
      ensures deleted <==> petID in old(store)
      ensures store == old(store) - {petID}
    {
      if petID !in store {
        return false, None;
      }
      store := store - {petID};
      deleted, err := true, None;
    }
  }

  /** A second create under a taken ID fails, and the first pet stays stored. */
  method CreateTwiceKeepsFirst(first: Pet, second: Pet) returns (err: Option<Err>, stored: Option<Pet>)
    requires first.id == second.id
    ensures err == Some(DuplicateError(first.id))
    ensures stored == Some(first)
  {
    var s := new MemStore();
    var e := s.PostPet(first);
    err := s.PostPet(second);
    var readErr;
    stored, readErr := s.GetPet(first.id);
  }

  /**
   * In this store an update is keyed by the body's ID: after PutPet(petID, p) on an
   * empty store, a read of petID fails whenever it differs from p.ID, and a read of
   * p.ID returns p.
   */
  method PutKeysByBodyID(petID: int32, p: Pet) returns (atPath: Option<Pet>, atBody: Option<Pet>)
    ensures atBody == Some(p)
    ensures atPath == if petID == p.id then Some(p) else None
  {
    var s := new MemStore();
    var e := s.PutPet(petID, p);
    var readErr;
    atPath, readErr := s.GetPet(petID);
    atBody, readErr := s.GetPet(p.id);
  }

  /** Deleting twice reports true, then false, and leaves no pet behind. */
  method DeleteTwice(p: Pet) returns (first: bool, second: bool, after: Option<Pet>)
    ensures first && !second
    ensures after == None
  {
    var s := new MemStore();
    var e := s.PostPet(p);
    first, e := s.DeletePet(p.id);
    second, e := s.DeletePet(p.id);
    after, e := s.GetPet(p.id);
  }
}
