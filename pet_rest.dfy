/**
 * pkg/pet/rest.go: the newer service. Each handler writes its outcome to the client;
 * the model returns the sequence of responses written. This file still speaks the
 * earlier vocabulary (ErrInvalidInput, ErrNotFound, *Error, ReadPet, CreatePet,
 * UpdatePet); those names stand for ErrBadRequest, ErrIDNotFound, *APIError and the
 * store's GetPet, PostPet and PutPet. It reads the path ID as a uint32, which the
 * int32-keyed store receives as the same 32 bits, Go's int32(id).
 */
module PetRest {
  import opened Wrappers
  import opened Ints
  import opened Decimal
  import opened PetModels
  import opened Http
  import opened PetErrors
  import opened PetMemStore

  const ErrInvalidInput: int := ErrBadRequest
  const ErrNotFound: int := ErrIDNotFound

  /** errStatusMap of this file: only invalid input and not-found have specific statuses. */
  const ErrStatusMap: map<int, int> := map[ErrInvalidInput := StatusBadRequest, ErrNotFound := StatusNotFound]

  /**
   * renderErrorResponse: 500 with the error's text by default; a package error answers
   * with its message, and with the mapped status when its code is in the table.
   */
  function RenderErrorResponse(err: Err): (w: Response)
    ensures w.TextResponse?
    ensures w.message == if err.Api? then err.e.message else err.Error()
    ensures w.status != StatusInternalServerError <==> err.Api? && err.e.code in ErrStatusMap
    ensures err.Api? && err.e.code in ErrStatusMap ==> w.status == ErrStatusMap[err.e.code]
  {
    var message := err.Error();
    var responseStatus := StatusInternalServerError;
    match err
    case Api(specificError) =>
      TextResponse(if specificError.code in ErrStatusMap then ErrStatusMap[specificError.code] else responseStatus,
                   specificError.message)
    case Plain(_) => TextResponse(responseStatus, message)
  }

  /** The two renderers of the package answer every error identically, although their tables differ. */
  lemma RenderersAgree(err: Err)
    ensures RenderErrorResponse(err) == RenderHTTPErrorResponse(err)
  {
  }

  /** What the store's errors become: not found is 404, a duplicate ID and an unknown error are 500. */
  lemma StoreErrorStatuses(petID: int32, message: string)
    ensures RenderErrorResponse(Api(NoPetError(petID))).status == StatusNotFound
    ensures RenderErrorResponse(Api(DuplicateError(petID))).status == StatusInternalServerError
    ensures RenderErrorResponse(Api(APIErrorf(ErrUnknown, message))).status == StatusInternalServerError
  {
  }

  /** A request, reduced to the URL parameter the middleware stored (nil if none) and the body. */
  datatype Request = Request(idParam: Option<string>, body: Body)

  /**
   * readPetID: no ID in the context is an ErrUnknown error; text ParseInt(·, 10, 32)
   * rejects is an ErrInvalidInput error; an accepted value is converted to uint32,
   * so a negative ID wraps modulo 2^32.
   */
  function ReadPetID(idParam: Option<string>): (r: Result<uint32, APIError>)
    ensures idParam.None? ==> r.Failure? && r.error.code == ErrUnknown
    ensures idParam.Some? ==>
              (r.Success? <==> IsDecimalSyntax(idParam.value) && InInt32Range(SignedValue(idParam.value)))
    ensures idParam.Some? && r.Failure? ==> r.error.code == ErrInvalidInput
    ensures r.Success? ==> ToInt32(r.value) as int == SignedValue(idParam.value)
    ensures r.Failure? ==> r.error.cause == None
  {
    match idParam
    case None => Failure(APIErrorf(ErrUnknown, "pet ID was lost somewhere"))
    case Some(petID) =>
      match ParseInt32(petID)
      case None => Failure(APIErrorf(ErrInvalidInput, "Invalid pet ID " + petID + ". ID should be a number"))
      case Some(intID) =>
        Int32RoundTrip(intID);
        Success(ToUint32(intID))
  }

  /** An int32 printed into the path reads back as its uint32 wrap, and the store key recovers it. */
  lemma ReadPetIDWraps(x: int32)
    ensures ReadPetID(Some(FormatInt(x as int))) == Success(ToUint32(x))
    ensures ToInt32(ToUint32(x)) == x
  {
    FormatParseRoundTrip(x);
    Int32RoundTrip(x);
  }

  /** "-1" is read as 2^32 - 1. */
  lemma MinusOneWraps()
    ensures ReadPetID(Some("-1")) == Success(0xFFFF_FFFF)
  {
    ReadPetIDWraps(-1);
    assert FormatInt(-1) == "-1";
  }

  /** The example of the REST tests: "111x" is answered with 400. */
  lemma InvalidIDIsBadRequest()
    ensures ReadPetID(Some("111x")).Failure?
    ensures RenderErrorResponse(Api(ReadPetID(Some("111x")).error)).status == StatusBadRequest
  {
    RejectsTrailingLetter();
  }

  /** readPetBody: every failure is an ErrInvalidInput error; only a decoded pet succeeds. */
  function ReadPetBody(body: Body): (r: Result<Pet, APIError>)
    ensures r.Success? <==> body.Readable? && body.decoded.Decoded?
    ensures r.Success? ==> r.value == body.decoded.pet
    ensures r.Failure? ==> r.error.code == ErrInvalidInput
    ensures r.Failure? ==> (r.error.cause.Some? <==> !body.NoBody?)
    ensures body.NoBody? ==> r == Failure(APIErrorf(ErrInvalidInput, "No request body"))
    ensures body.Unreadable? ==> r.Failure? && r.error.cause == Some(body.cause)
    ensures body.Readable? && body.decoded.Undecodable? ==> r.Failure? && r.error.cause == Some(body.decoded.cause)
  {
    match body
    case NoBody => Failure(APIErrorf(ErrInvalidInput, "No request body"))
    case Unreadable(cause) => Failure(APIErrorEf(ErrInvalidInput, Some(cause), "Bad request body"))
    case Readable(Undecodable(cause)) => Failure(APIErrorEf(ErrInvalidInput, Some(cause), "Invalid pet data"))
    case Readable(Decoded(pet)) => Success(pet)
  }

  function ErrorWrites(e: APIError): seq<Response> {
    [RenderErrorResponse(Api(e))]
  }

  /**
   * The end of PutPet as written: a store error is rendered, and with no return after
   * it, render.Status(201) and render.JSON(nil) run as well. Each render call is one
   * element here; net/http keeps the first status written, so the client sees the
   * error's status with the text "null" appended to the error message.
   */
  function PutPetTail(storeErr: Option<APIError>): (writes: seq<Response>)
    ensures |writes| > 0 && writes[|writes| - 1] == JsonResponse(StatusCreated, None)
  {
    (match storeErr
     case Some(e) => ErrorWrites(e)
     case None => []) + [JsonResponse(StatusCreated, None)]
  }

  /** The counterexample: after a failing update the 201 render still runs, after the error's. */
  lemma PutPetTailWritesTwice(e: APIError)
    ensures PutPetTail(Some(e)) == [RenderErrorResponse(Api(e)), JsonResponse(StatusCreated, None)]
  {
  }

  /** The end of PutPet with the missing return: exactly one response, the error's if there is one. */
  function PutPetTailCorrected(storeErr: Option<APIError>): (writes: seq<Response>)
    ensures |writes| == 1
    ensures storeErr.Some? ==> writes[0] == RenderErrorResponse(Api(storeErr.value))
    ensures storeErr.None? ==> writes[0] == JsonResponse(StatusCreated, None)
  {
    match storeErr
    case Some(e) => ErrorWrites(e)
    case None => [JsonResponse(StatusCreated, None)]
  }

  /** Without a store error the two tails agree; the in-memory store's update never fails. */
  lemma PutPetTailsAgreeOnSuccess()
    ensures PutPetTail(None) == PutPetTailCorrected(None)
  {
  }

  class Service {
    const store: MemStore

    /** NewPetService. */
    constructor (storer: MemStore)
      ensures store == storer
    {
      store := storer;
    }

    /** GET: 200 with the stored pet; the store's not-found error otherwise. */
    method GetPet(r: Request) returns (writes: seq<Response>)
      requires store.Valid()
      ensures writes == match ReadPetID(r.idParam)
        case Failure(e) => ErrorWrites(e)
        case Success(id) =>
          if ToInt32(id) in store.Contents() then [JsonResponse(StatusOK, Some(store.Contents()[ToInt32(id)]))]
          else ErrorWrites(NoPetError(ToInt32(id)))
    {
      var petID := ReadPetID(r.idParam);
      if petID.Failure? {
        return ErrorWrites(petID.error);
      }
      var pet, err := store.GetPet(ToInt32(petID.value));
      match err {
        case Some(e) =>
          return ErrorWrites(e);
        case None =>
      }
      writes := [JsonResponse(StatusOK, pet)];
    }

    /** POST: 201 with an empty body when the ID is free; a taken ID gives the store's error (500). */
    method PostPet(r: Request) returns (writes: seq<Response>)
      requires store.Valid()
      modifies store
      ensures store.Valid()
      ensures match ReadPetBody(r.body)
        case Failure(e) => writes == ErrorWrites(e) && store.Contents() == old(store.Contents())
        case Success(p) =>
          if p.id in old(store.Contents()) then
            writes == ErrorWrites(DuplicateError(p.id)) && store.Contents() == old(store.Contents())
          else
            writes == [JsonResponse(StatusCreated, None)] && store.Contents() == old(store.Contents())[p.id := p]
    {
      var newPet := ReadPetBody(r.body);
      if newPet.Failure? {
        return ErrorWrites(newPet.error);
      }
      var err := store.PostPet(newPet.value);
      match err {
        case Some(e) =>
          return ErrorWrites(e);
        case None =>
      }
      writes := [JsonResponse(StatusCreated, None)];
    }

    /**
     * PUT: the ID before the body; the store's upsert under the path ID, then 201.
     * The update cannot fail, so the missing return after its error never shows.
     */
    method PutPet(r: Request) returns (writes: seq<Response>)
      requires store.Valid()
      modifies store
      ensures store.Valid()
      ensures match ReadPetID(r.idParam)
        case Failure(e) => writes == ErrorWrites(e) && store.Contents() == old(store.Contents())
        case Success(id) =>
          match ReadPetBody(r.body)
          case Failure(e) => writes == ErrorWrites(e) && store.Contents() == old(store.Contents())
          case Success(p) =>
            writes == [JsonResponse(StatusCreated, None)] && store.Contents() == old(store.Contents())[ToInt32(id) := p]
    {
      var petID := ReadPetID(r.idParam);
      if petID.Failure? {
        return ErrorWrites(petID.error);
      }
      var id := petID.value;
      var pet := ReadPetBody(r.body);
      if pet.Failure? {
        return ErrorWrites(pet.error);
      }
      var err := store.PutPet(ToInt32(id), pet.value);
      writes := PutPetTail(err);
    }

    /** DELETE: 200 when a pet was removed, 204 when none existed. */
    method DeletePet(r: Request) returns (writes: seq<Response>)
      requires store.Valid()
      modifies store
      ensures store.Valid()
      ensures match ReadPetID(r.idParam)
        case Failure(e) => writes == ErrorWrites(e) && store.Contents() == old(store.Contents())
        case Success(id) =>
          writes == [JsonResponse(if ToInt32(id) in old(store.Contents()) then StatusOK else StatusNoContent, None)]
          && store.Contents() == old(store.Contents()) - {ToInt32(id)}
    {
      var petID := ReadPetID(r.idParam);
      if petID.Failure? {
        return ErrorWrites(petID.error);
      }
      var id := petID.value;
      var petDeleted, err := store.DeletePet(ToInt32(id));
      match err {
        case Some(e) =>
          return ErrorWrites(e);
        case None =>
      }
      if petDeleted {
        return [JsonResponse(StatusOK, None)];
      }
      writes := [JsonResponse(StatusNoContent, None)];
    }
  }

  /**
   * The REST tests as one session on a fresh store: create p (201), create it again
   * (500), read it (200), replace it with q under the same path ID (201), read q (200),
   * delete twice (200, then 204), read the deleted ID (404), and read "111x" (400).
   */
  method RestSession(p: Pet, q: Pet) returns (statuses: seq<int>, firstRead: Option<Pet>, secondRead: Option<Pet>)
    ensures statuses == [StatusCreated, StatusInternalServerError, StatusOK, StatusCreated, StatusOK,
                         StatusOK, StatusNoContent, StatusNotFound, StatusBadRequest]
    ensures firstRead == Some(p) && secondRead == Some(q)
  {
    var store := new MemStore();
    var s := new Service(store);
    var path := Some(FormatInt(p.id as int));
    ReadPetIDWraps(p.id);
    InvalidIDIsBadRequest();
    StoreErrorStatuses(p.id, "");
    var posted := s.PostPet(Request(None, Readable(Decoded(p))));
    var postedAgain := s.PostPet(Request(None, Readable(Decoded(p))));
    var got := s.GetPet(Request(path, NoBody));
    var put := s.PutPet(Request(path, Readable(Decoded(q))));
    var gotAgain := s.GetPet(Request(path, NoBody));
    var deleted := s.DeletePet(Request(path, NoBody));
    var deletedAgain := s.DeletePet(Request(path, NoBody));
    var gone := s.GetPet(Request(path, NoBody));
    var invalid := s.GetPet(Request(Some("111x"), NoBody));
    statuses := [posted[0].status, postedAgain[0].status, got[0].status, put[0].status, gotAgain[0].status,
                 deleted[0].status, deletedAgain[0].status, gone[0].status, invalid[0].status];
    firstRead := got[0].value;
    secondRead := gotAgain[0].value;
  }
}
