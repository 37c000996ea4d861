/**
 * pkg/petservice/rest.go, its response-selection logic: the middleware that puts the
 * URL segment in the request context, the error renderer, and makeHandler, which
 * turns a handler's (status, response, error) triple into what the client receives.
 */
module PetserviceRest {
  import opened Wrappers
  import opened Ints
  import opened Decimal
  import opened PetModels
  import opened Http
  import opened PetserviceErrors
  import opened Petservice

  /** keyExtractorMiddleware: the raw path segment, as an unparsed string, under keyID. */
  function KeyExtractor(segment: string): (v: ContextValue)
    ensures v.Text? && v.s == segment
    ensures ReadPetID(v) != Failure(KeyExtractionError)
  {
    Text(segment)
  }

  /**
   * renderErrorResponse: the service's own errors answer with their status and their
   * response message; any other error is a 500 carrying the error's text.
   */
  function RenderErrorResponse(e: Err): (w: Response)
    ensures w.TextResponse?
    ensures e.Api? ==> w.status == e.api.statusCode && w.message == e.api.responseMessage
    ensures e.Plain? ==> w.status == StatusInternalServerError && w.message == e.Error()
  {
    match e
    case Api(apiError) => TextResponse(apiError.statusCode, apiError.responseMessage)
    case Plain(_) => TextResponse(StatusInternalServerError, e.Error())
  }

  /** makeHandler: a non-nil error is rendered as an error; otherwise the status and response go out as JSON. */
  function MakeHandler(reply: Reply): (w: Response)
    ensures reply.err.Some? ==> w == RenderErrorResponse(reply.err.value)
    ensures reply.err.None? ==> w == JsonResponse(reply.status, reply.response)
  {
    match reply.err
    case Some(e) => RenderErrorResponse(e)
    case None => JsonResponse(reply.status, reply.response)
  }

  /** With an error, the status and response the handler returned beside it make no difference. */
  lemma ErrorIgnoresReturnedStatus(reply: Reply, status: int, response: Option<Pet>)
    requires reply.err.Some?
    ensures MakeHandler(reply) == MakeHandler(Reply(status, response, reply.err))
  {
  }

  /**
   * An APIError from a handler reaches the client with its own status and its response
   * message; the internal message (its Error() text) stays in the logs.
   */
  lemma ApiErrorReachesClient(e: APIError, status: int, response: Option<Pet>)
    ensures MakeHandler(Reply(status, response, Some(Api(e)))) == TextResponse(e.statusCode, e.responseMessage)
  {
  }

  /** Every int32 written into the path in "%d" form is read back by readPetID as that ID. */
  lemma PathSegmentRoundTrip(id: int32)
    ensures ReadPetID(KeyExtractor(FormatInt(id as int))) == Success(id)
  {
    FormatParseRoundTrip(id);
  }

  /** Behind the middleware a key is always present, so ID errors are client errors (400), never 500. */
  lemma SegmentErrorsAreClientErrors(segment: string)
    ensures ReadPetID(KeyExtractor(segment)) != Failure(KeyExtractionError)
    ensures ReadPetID(KeyExtractor(segment)).Failure? ==>
              MakeHandler(ErrorReply(ReadPetID(KeyExtractor(segment)).error)).status == StatusBadRequest
  {
  }

  /**
   * A store that refuses a write or a delete is answered with 500 and a fixed response
   * message; the store's error text stays in the internal message.
   */
  lemma StoreFailuresAreServerErrors(id: int32, e: Err)
    ensures MakeHandler(ErrorReply(PostFailedError(e))) == TextResponse(StatusInternalServerError, "Could not POST pet to store")
    ensures MakeHandler(ErrorReply(PutFailedError(id, e))) == TextResponse(StatusInternalServerError, "Could not PUT new pet data")
    ensures MakeHandler(ErrorReply(DeleteFailedError(id, e))) == TextResponse(StatusInternalServerError, "Could not delete pet data")
  {
  }

  lemma RejectsLetters()
    ensures ReadPetID(KeyExtractor("abc")) == Failure(InvalidPetIDError("abc"))
  {
    assert !IsDigit("abc"[0]) && !IsSign("abc"[0]);
  }

  /**
   * A CRUD session on a fresh service: create p, read it, replace it with q
   * under the same ID, read q back, delete twice, and ask for a non-numeric ID.
   */
  method CrudSession(p: Pet, q: Pet) returns (responses: seq<Response>)
    requires q.id == p.id
    ensures responses == [
      JsonResponse(StatusCreated, None),
      JsonResponse(StatusOK, Some(p)),
      JsonResponse(StatusOK, None),
      JsonResponse(StatusOK, Some(q)),
      JsonResponse(StatusOK, None),
      JsonResponse(StatusNoContent, None),
      TextResponse(StatusBadRequest, InvalidPetIDError("abc").responseMessage)]
  {
    var s := new PetService();
    var key := KeyExtractor(FormatInt(p.id as int));
    PathSegmentRoundTrip(p.id);
    RejectsLetters();
    var posted := s.PostPet(Request(Absent, Readable(Decoded(p))));
    var got := s.GetPet(Request(key, NoBody));
    var put := s.PutPet(Request(key, Readable(Decoded(q))));
    var gotAgain := s.GetPet(Request(key, NoBody));
    var deleted := s.DeletePet(Request(key, NoBody));
    var deletedAgain := s.DeletePet(Request(key, NoBody));
    var invalid := s.GetPet(Request(KeyExtractor("abc"), NoBody));
    responses := [MakeHandler(posted), MakeHandler(got), MakeHandler(put), MakeHandler(gotAgain),
                  MakeHandler(deleted), MakeHandler(deletedAgain), MakeHandler(invalid)];
  }
}
