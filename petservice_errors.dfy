/**
 * pkg/petservice/petserviceerrors.go: an error value that keeps the text for the
 * logs (internal message) apart from the text for the client (response message),
 * and the six errors the older service raises, each with its HTTP status.
 */
module PetserviceErrors {
  import opened Wrappers
  import opened Ints
  import opened Decimal
  import opened Http

  /** The package's error struct. As a Go error its text is the internal message. */
  datatype APIError = APIError(internalMessage: string, responseMessage: string, statusCode: int) {
    /** The text logged for the error; the response message is never part of it. */
    function Error(): (s: string)
      ensures s == internalMessage
    {
      internalMessage
    }
  }

  /** A Go error value as the older service sees it: its own APIError, or any other error (fmt.Errorf). */
  datatype Err = Api(api: APIError) | Plain(text: string) {
    function Error(): string {
      match this
      case Api(e) => e.Error()
      case Plain(t) => t
    }
  }

  predicate EndsWith(s: string, suffix: string) {
    |suffix| <= |s| && s[|s| - |suffix|..] == suffix
  }

  /** The context held no string under the key: a routing bug, reported as a server error. */
  const KeyExtractionError: APIError :=
    APIError("Unknown error extracting petID from request context", "An Unkown internal error occured", StatusInternalServerError)

  /** The key was the empty string: a client error, although the response text says "internal error". */
  const KeyMissingError: APIError :=
    APIError("Key missing", "An unkown internal error occured", StatusBadRequest)

  const InvalidIDPrefix: string := "Invalid pet ID "
  const NotFoundInternalPrefix: string := "Pet ID not found. "
  const NotFoundResponsePrefix: string := "No pet found with ID "
  const BadBodyInternalPrefix: string := "Error reading request body. "
  const BadBodyResponse: string := "Could not read request body"
  const BadDataInternalPrefix: string := "Request pet data invalid. "
  const BadDataResponse: string := "Request pet data invalid"

  /** The ID text is not a 32-bit decimal number: a client error that echoes the raw text in both messages. */
  function InvalidPetIDError(petID: string): (e: APIError)
    ensures e.statusCode == StatusBadRequest
    ensures e.internalMessage == e.responseMessage
    ensures EndsWith(e.responseMessage, petID)
  {
    var m := InvalidIDPrefix + petID;
    assert m[|m| - |petID|..] == petID;
    APIError(m, m, StatusBadRequest)
  }

  /**
   * No pet under the parsed ID: 404. The response names the ID in "%d" form, which
   * parses back to the same ID; the store's error goes to the internal message only.
   */
  function PetIDNotFoundError(petID: int32, err: Err): (e: APIError)
    ensures e.statusCode == StatusNotFound
    ensures |NotFoundResponsePrefix| <= |e.responseMessage|
    ensures ParseInt32(e.responseMessage[|NotFoundResponsePrefix|..]) == Some(petID)
    ensures EndsWith(e.internalMessage, err.Error())
  {
    var response := NotFoundResponsePrefix + FormatInt(petID as int);
    var internal := NotFoundInternalPrefix + err.Error();
    FormatParseRoundTrip(petID);
    assert response[|NotFoundResponsePrefix|..] == FormatInt(petID as int);
    assert internal[|internal| - |err.Error()|..] == err.Error();
    APIError(internal, response, StatusNotFound)
  }

  /** The body was missing or could not be read: 400, the cause in the internal message only. */
  function BadRequestBodyError(err: Err): (e: APIError)
    ensures e.statusCode == StatusBadRequest
    ensures EndsWith(e.internalMessage, err.Error())
  {
    var internal := BadBodyInternalPrefix + err.Error();
    assert internal[|internal| - |err.Error()|..] == err.Error();
    APIError(internal, BadBodyResponse, StatusBadRequest)
  }

  /** The body did not decode as a pet: 400, the decoder's error in the internal message only. */
  function BadPetDataError(err: Err): (e: APIError)
    ensures e.statusCode == StatusBadRequest
    ensures EndsWith(e.internalMessage, err.Error())
  {
    var internal := BadDataInternalPrefix + err.Error();
    assert internal[|internal| - |err.Error()|..] == err.Error();
    APIError(internal, BadDataResponse, StatusBadRequest)
  }

  lemma PrefixCancel(p: string, a: string, b: string)
    ensures p + a == p + b <==> a == b
  {
    if p + a == p + b {
      assert a == (p + a)[|p|..];
      assert b == (p + b)[|p|..];
    }
  }

  /**
   * The underlying error never reaches the client: the response message does not
   * depend on it, while the internal message determines its text exactly.
   */
  lemma CauseOnlyInInternalMessage(petID: int32, e1: Err, e2: Err)
    ensures PetIDNotFoundError(petID, e1).responseMessage == PetIDNotFoundError(petID, e2).responseMessage
    ensures BadRequestBodyError(e1).responseMessage == BadRequestBodyError(e2).responseMessage
    ensures BadPetDataError(e1).responseMessage == BadPetDataError(e2).responseMessage
    ensures PetIDNotFoundError(petID, e1).internalMessage == PetIDNotFoundError(petID, e2).internalMessage
            <==> e1.Error() == e2.Error()
    ensures BadRequestBodyError(e1).internalMessage == BadRequestBodyError(e2).internalMessage
            <==> e1.Error() == e2.Error()
    ensures BadPetDataError(e1).internalMessage == BadPetDataError(e2).internalMessage
            <==> e1.Error() == e2.Error()
  {
    PrefixCancel(NotFoundInternalPrefix, e1.Error(), e2.Error());
    PrefixCancel(BadBodyInternalPrefix, e1.Error(), e2.Error());
    PrefixCancel(BadDataInternalPrefix, e1.Error(), e2.Error());
  }

  /** Two invalid ID texts give the same error exactly when they are the same text. */
  lemma InvalidPetIDErrorEchoesText(s1: string, s2: string)
    ensures InvalidPetIDError(s1) == InvalidPetIDError(s2) <==> s1 == s2
  {
    PrefixCancel(InvalidIDPrefix, s1, s2);
  }
}
