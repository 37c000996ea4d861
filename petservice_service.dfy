/**
 * pkg/petservice/petservice.go: the older service. Each handler turns a request into
 * a (status, response, error) triple; with a non-nil error the status is the
 * placeholder nilStatus, which the error path of the HTTP adapter overrides.
 */
module Petservice {
  import opened Wrappers
  import opened Ints
  import opened Decimal
  import opened PetModels
  import opened Http
  import opened PetserviceErrors
  import opened PetserviceMemStore

  /** What the request context holds under keyID: nothing, a string, or a value of another type. */
  datatype ContextValue = Absent | Text(s: string) | NotText

  /** A request, reduced to the context value under keyID and the body. */
  datatype Request = Request(key: ContextValue, body: Body)

  /** A handler's (status, response, error) triple; the response is nil or a pet. */
  datatype Reply = Reply(status: int, response: Option<Pet>, err: Option<Err>)

  /** The status returned beside an error, expected to be overridden. */
  const NilStatus: int := StatusInternalServerError

  /**
   * readPetID: the context must hold a string (else a 500 error), the string must be
   * non-empty (else a 400 error), and it must be base-10 text of a value in the
   * int32 range (else a 400 error echoing the text).
   */
  function ReadPetID(key: ContextValue): (r: Result<int32, APIError>)
    ensures !key.Text? <==> r == Failure(KeyExtractionError)
    ensures key == Text("") ==> r == Failure(KeyMissingError)
    ensures key.Text? && key.s != "" && !(IsDecimalSyntax(key.s) && InInt32Range(SignedValue(key.s)))
            ==> r == Failure(InvalidPetIDError(key.s))
    ensures r.Success? <==> key.Text? && IsDecimalSyntax(key.s) && InInt32Range(SignedValue(key.s))
    ensures r.Success? ==> r.value as int == SignedValue(key.s)
    ensures r.Failure? ==> r.error.statusCode == if key.Text? then StatusBadRequest else StatusInternalServerError
  {
    match key
    case Text(s) =>
      if s == "" then Failure(KeyMissingError)
      else (
        match ParseInt32(s)
        case None => Failure(InvalidPetIDError(s))
        case Some(id) => Success(id))
    case _ => Failure(KeyExtractionError)
  }

  /**
   * readPetBody: a missing or unreadable body is a 400 "could not read" error, an
   * undecodable one a 400 "pet data invalid" error; only a decoded pet succeeds.
   */
  function ReadPetBody(body: Body): (r: Result<Pet, APIError>)
    ensures r.Success? <==> body.Readable? && body.decoded.Decoded?
    ensures r.Success? ==> r.value == body.decoded.pet
    ensures r.Failure? ==> r.error.statusCode == StatusBadRequest
    ensures r.Failure? ==> r.error.responseMessage == if body.Readable? then BadDataResponse else BadBodyResponse
    ensures body.NoBody? ==> r == Failure(BadRequestBodyError(Plain("Missing Body")))
    ensures body.Unreadable? ==> r == Failure(BadRequestBodyError(Plain(body.cause)))
    ensures body.Readable? && body.decoded.Undecodable? ==> r == Failure(BadPetDataError(Plain(body.decoded.cause)))
  {
    match body
    case NoBody => Failure(BadRequestBodyError(Plain("Missing Body")))
    case Unreadable(cause) => Failure(BadRequestBodyError(Plain(cause)))
    case Readable(Undecodable(cause)) => Failure(BadPetDataError(Plain(cause)))
    case Readable(Decoded(pet)) => Success(pet)
  }

  /** The error PostPet reports when the store refuses the pet: a server error. */
  function PostFailedError(err: Err): (e: APIError)
    ensures e.statusCode == StatusInternalServerError
    ensures EndsWith(e.Error(), err.Error()) && e.responseMessage != e.Error()
  {
    APIError("Error posting new pet to store. " + err.Error(), "Could not POST pet to store", StatusInternalServerError)
  }

  /** The error PutPet would report if the store failed. */
  function PutFailedError(petID: int32, err: Err): (e: APIError)
    ensures e.statusCode == StatusInternalServerError
    ensures EndsWith(e.Error(), err.Error())
  {
    APIError("Could not put pet data. ID: " + FormatInt(petID as int) + ", error: " + err.Error(),
             "Could not PUT new pet data", StatusInternalServerError)
  }

  /** The error DeletePet would report if the store failed. */
  function DeleteFailedError(petID: int32, err: Err): (e: APIError)
    ensures e.statusCode == StatusInternalServerError
    ensures EndsWith(e.Error(), err.Error())
  {
    APIError("Could not delete pet. ID: " + FormatInt(petID as int) + ", error: " + err.Error(),
             "Could not delete pet data", StatusInternalServerError)
  }

  function ErrorReply(e: APIError): Reply {
    Reply(NilStatus, None, Some(Api(e)))
  }

  class PetService {
    const store: MemStore

    /** NewPetService: a service over a fresh, empty in-memory store. */
    constructor ()
      ensures fresh(store) && store.store == map[]
    {
      store := new MemStore();
    }

    /** GET: 200 with the stored pet, or a 404 error for the parsed ID when the store has none. */
    method GetPet(r: Request) returns (reply: Reply)
      ensures reply == match ReadPetID(r.key)
        case Failure(e) => ErrorReply(e)
        case Success(id) =>
          if id in store.store then Reply(StatusOK, Some(store.store[id]), None)
          else ErrorReply(PetIDNotFoundError(id, NoPetError(id)))
    {
      var petID := ReadPetID(r.key);
      if petID.Failure? {
        return ErrorReply(petID.error);
      }
      var pet, err := store.GetPet(petID.value);
      match err {
        case Some(e) =>
          return ErrorReply(PetIDNotFoundError(petID.value, e));
        case None =>
      }
      reply := Reply(StatusOK, pet, None);
    }

    /** POST: 201 with no body when the store accepts the pet; a duplicate ID is a 500 error. */
    method PostPet(r: Request) returns (reply: Reply)
      modifies store
      ensures match ReadPetBody(r.body)
        case Failure(e) => reply == ErrorReply(e) && store.store == old(store.store)
        case Success(p) =>
          if p.id in old(store.store) then
            reply == ErrorReply(PostFailedError(DuplicateError(p.id))) && store.store == old(store.store)
          else
            reply == Reply(StatusCreated, None, None) && store.store == old(store.store)[p.id := p]
    {
      var newPet := ReadPetBody(r.body);
      if newPet.Failure? {
        return ErrorReply(newPet.error);
      }
      var err := store.PostPet(newPet.value);
      match err {
        case Some(e) =>
          return ErrorReply(PostFailedError(e));
        case None =>
      }
      reply := Reply(StatusCreated, None, None);
    }

    /**
     * PUT: the ID is checked before the body, so a bad ID is reported even when the
     * body is bad too; on success the store's upsert (keyed by the body's ID) and 200.
     */
    method PutPet(r: Request) returns (reply: Reply)
      modifies store
      ensures match ReadPetID(r.key)
        case Failure(e) => reply == ErrorReply(e) && store.store == old(store.store)
        case Success(_) =>
          match ReadPetBody(r.body)
          case Failure(e) => reply == ErrorReply(e) && store.store == old(store.store)
          case Success(p) => reply == Reply(StatusOK, None, None) && store.store == old(store.store)[p.id := p]
    {
      var petID := ReadPetID(r.key);
      if petID.Failure? {
        return ErrorReply(petID.error);
      }
      var id := petID.value;
      var pet := ReadPetBody(r.body);
      if pet.Failure? {
        return ErrorReply(pet.error);
      }
      var err := store.PutPet(id, pet.value);
      match err {
        case Some(e) =>
          return ErrorReply(PutFailedError(id, e));
        case None =>
      }
      reply := Reply(StatusOK, None, None);
    }

    /** DELETE: 200 when a pet was removed, 204 when there was none; no body either way. */
    method DeletePet(r: Request) returns (reply: Reply)
      modifies store
      ensures match ReadPetID(r.key)
        case Failure(e) => reply == ErrorReply(e) && store.store == old(store.store)
        case Success(id) =>
          reply == Reply(if id in old(store.store) then StatusOK else StatusNoContent, None, None)
          && store.store == old(store.store) - {id}
    {
      var petID := ReadPetID(r.key);
      if petID.Failure? {
        return ErrorReply(petID.error);
      }
      var id := petID.value;
      var petDeleted, err := store.DeletePet(id);
      match err {
        case Some(e) =>
          return ErrorReply(DeleteFailedError(id, e));
        case None =>
      }
      if petDeleted {
        return Reply(StatusOK, None, None);
      }
      reply := Reply(StatusNoContent, None, None);
    }
  }
}
