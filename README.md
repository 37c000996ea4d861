# Pet store: a verified model of the in-memory store and its REST service

The repository is a small REST service for one resource, a pet, kept in an in-memory
map from a 32-bit ID to a pet record. It exists in two snapshots, and this model covers both:

- `pkg/petservice` (older): a plain Go map without locking. Each handler returns a
  `(status, response, error)` triple. `makeHandler` renders that triple, and errors
  carry separate internal and response messages.
- `pkg/pet` (newer, mid-rename): a `sync.Map` behind a mutex. Error values carry
  numeric codes, which are mapped to HTTP statuses. Handlers write their response directly.

Each store has four operations. Read fails on a missing ID. Create rejects a taken ID
and changes nothing. Update is an upsert and never fails. Delete is idempotent, and its
boolean says whether a record was removed. The service layer adds three things: the
path-ID parser (Go's `strconv.ParseInt(s, 10, 32)`), the body reader (decoding
abstracted), and the choice of status for each outcome.

Files and modules:

| file | module | models |
|---|---|---|
| wrappers.dfy | `Wrappers` | `Option`, `Result` for Go's nil and `(value, error)` returns |
| ints.dfy | `Ints` | `int32`, `uint32` and Go's conversions between them |
| decimal.dfy | `Decimal` | base-10 text accepted by `ParseInt(s, 10, 32)`, and the `%d` printer |
| pet_models.dfy | `PetModels` | the `Pet` record (`types.go`, `petmodels.go`) and the request-body abstraction |
| http.dfy | `Http` | status codes and the response a handler writes |
| petservice_errors.dfy | `PetserviceErrors` | `pkg/petservice/petserviceerrors.go` |
| petservice_memstore.dfy | `PetserviceMemStore` | `pkg/petservice/memstore.go` |
| petservice_service.dfy | `Petservice` | `pkg/petservice/petservice.go` |
| petservice_rest.dfy | `PetserviceRest` | `pkg/petservice/rest.go` (middleware value, `renderErrorResponse`, `makeHandler`) |
| pet_errors.dfy | `PetErrors` | `pkg/pet/errors.go` |
| pet_memstore.dfy | `PetMemStore` | `pkg/pet/memstore.go` |
| pet_rest.dfy | `PetRest` | `pkg/pet/rest.go` |

Modelling decisions:

- The stores are classes, and each has a map field that its methods replace.
  - The newer store holds `StoredValue`s (a pet, or a value of another type) because a `sync.Map` holds untyped values.
  - Its `Valid()` invariant says only pets are stored. Every operation keeps it, and so `GetPet`'s `ErrUnknown` branch is kept in the code but proved unreachable.
  - The mutex is modelled as atomicity: each store operation is one step.
- The five error codes of `pkg/pet/errors.go` are the distinct constants 0 to 4 of `PetErrors`, in the order of the source.
- Each service is a class that holds its store. `GetPet` only reads the store, while the other handlers modify it.
- `pkg/pet` is a mid-rename snapshot, and the model treats the old and new names as aliases:
  - `ErrInvalidInput` = `ErrBadRequest`, `ErrNotFound` = `ErrIDNotFound`, and `Errorf`/`ErrorEf`/`*Error` = `APIErrorf`/`APIErrorEf`/`*APIError`.
  - `ReadPet`/`CreatePet`/`UpdatePet` = `GetPet`/`PostPet`/`PutPet`.
  - Each file keeps its own vocabulary and its own `errStatusMap`. `PetRest.RenderersAgree` proves that the two tables give every error the same response.
- `pkg/pet/rest.go` reads the ID as a `uint32`, while the store is keyed by `int32`. The model hands the store the same 32 bits, as Go's `int32(id)` would, and proves that this recovers the parsed value.
- The two updates are modelled as written, and they differ:
  - The older `PutPet` ignores its ID argument and keys the write by the body's `pet.ID`.
  - The newer one keys it by the path ID.
- Message texts are kept as the source writes them. `%d` is `Decimal.FormatInt`, and an error's `%v` is its `Error()` text.
- The model follows the code on these points:
  - The ID is `int32` in the store and the record, not unsigned.
  - The older update keys by the body's ID, not the path ID.
  - The older service answers a successful PUT with 200 and the newer one with 201.
  - A duplicate create is answered with 500 in both snapshots.

## Model

| member | source | states |
|---|---|---|
| `Ints.ToUint32` | pkg/pet/rest.go:164 | Go's `uint32(intID)` keeps a non-negative ID and wraps a negative one to ID + 2^32 |
| `Ints.Int32RoundTrip` | pkg/pet/rest.go:164 | reading the wrapped bits back as int32 gives the original ID, so the store sees the parsed value |
| `Ints.Uint32RoundTrip` | pkg/pet/rest.go:164 | the wrap is onto: every uint32 is the wrap of some int32 |
| `Ints.ToUint32Injective` | pkg/pet/rest.go:164 | two IDs wrap to the same uint32 exactly when they are equal |
| `Decimal.ParseInt32` | pkg/petservice/petservice.go:118 | `ParseInt(s, 10, 32)` succeeds exactly when s is an optional sign followed by one or more ASCII digits and its value lies in [-2^31, 2^31-1]; the parsed value is the value of the text |
| `Decimal.FormatNat` | pkg/petservice/petserviceerrors.go:43 | `%d` of a natural number is non-empty, made only of digits, and has no leading zero unless the number is 0 |
| `Decimal.FormatInt` | pkg/petservice/petserviceerrors.go:43 | `%d` of an integer starts with '-' exactly for negatives, and its digits have no leading zero unless the number is 0 |
| `Decimal.FormatNatValue` | pkg/petservice/petserviceerrors.go:43 | the digits printed by `%d` denote the printed number |
| `Decimal.ParseFormat` | pkg/petservice/petservice.go:118-121 | parsing `%d` text of any integer gives that integer when it fits in int32, and a range error otherwise |
| `Decimal.FormatParseRoundTrip` | pkg/petservice/petservice.go:118-122 | every int32 printed with `%d` parses back to itself |
| `Decimal.FormatIntInjective` | pkg/petservice/petserviceerrors.go:43 | distinct IDs print as distinct text |
| `Decimal.RejectsTrailingLetter` | pkg/pet/rest_test.go:99-113 | "111x" is rejected by the parser |
| `PetserviceErrors.APIError.Error` | pkg/petservice/petserviceerrors.go:15-17 | an APIError's error text is its internal message; the response message and status play no part in it |
| `PetserviceErrors.InvalidPetIDError` | pkg/petservice/petserviceerrors.go:32-38 | status 400; both messages are the same and end with the raw ID text |
| `PetserviceErrors.InvalidPetIDErrorEchoesText` | pkg/petservice/petserviceerrors.go:32-38 | two ID texts give the same error exactly when the texts are equal |
| `PetserviceErrors.PetIDNotFoundError` | pkg/petservice/petserviceerrors.go:40-46 | status 404; the response message names the ID in a form that parses back to it; the internal message ends with the store's error |
| `PetserviceErrors.BadRequestBodyError` | pkg/petservice/petserviceerrors.go:48-54 | status 400; the cause ends the internal message |
| `PetserviceErrors.BadPetDataError` | pkg/petservice/petserviceerrors.go:56-62 | status 400; the cause ends the internal message |
| `PetserviceErrors.CauseOnlyInInternalMessage` | pkg/petservice/petserviceerrors.go:40-62 | for the three cause-carrying errors the response message does not depend on the cause, while equal internal messages mean equal cause texts |
| `PetserviceMemStore.MemStore.constructor` | pkg/petservice/memstore.go:14-18 | a new store is empty |
| `PetserviceMemStore.MemStore.GetPet` | pkg/petservice/memstore.go:22-28 | a present ID gives the stored pet and no error; an absent one gives no pet and an error naming the ID; the map is not changed |
| `PetserviceMemStore.MemStore.PostPet` | pkg/petservice/memstore.go:32-39 | a free pet.ID is inserted with no error; a taken one is an error and the map is unchanged |
| `PetserviceMemStore.MemStore.PutPet` | pkg/petservice/memstore.go:44-47 | never an error; the map afterwards is the old one with pet.ID mapped to the pet (the ID argument is ignored) |
| `PetserviceMemStore.MemStore.DeletePet` | pkg/petservice/memstore.go:52-59 | never an error; true exactly when the ID was present; afterwards the map is the old one without that key |
| `PetserviceMemStore.CreateTwiceKeepsFirst` | pkg/petservice/memstore.go:32-39 | a second create under a taken ID fails and the first pet stays readable |
| `PetserviceMemStore.PutKeysByBodyID` | pkg/petservice/memstore.go:44-47 | after an update on an empty store, the pet reads back under its own ID, and under the path ID only when the two agree |
| `PetserviceMemStore.DeleteTwice` | pkg/petservice/memstore.go:52-59 | two deletes of a stored pet return true, then false, and a read afterwards finds nothing |
| `Petservice.ReadPetID` | pkg/petservice/petservice.go:110-123 | a missing or non-string context value is keyExtractionError (500); "" is keyMissingError (400); text the parser rejects is invalidPetIDError for that text (400); otherwise exactly the parsed int32 |
| `Petservice.ReadPetBody` | pkg/petservice/petservice.go:125-142 | only a decoded pet succeeds; a missing body is `badRequestBodyError` of "Missing Body", an unreadable one `badRequestBodyError` of the reader's error, an undecodable one `badPetDataError` of the decoder's error (all 400) |
| `Petservice.PetService.constructor` | pkg/petservice/petservice.go:26-30 | a new service owns a fresh, empty store |
| `Petservice.PetService.GetPet` | pkg/petservice/petservice.go:38-48 | an ID error is returned as is; any store failure becomes petIDNotFoundError for the parsed ID; success is 200 with the stored pet |
| `Petservice.PetService.PostPet` | pkg/petservice/petservice.go:51-66 | a body error is returned as is; a taken ID is a 500 APIError and the store is unchanged; success is 201 with no body and the pet stored |
| `Petservice.PetService.PutPet` | pkg/petservice/petservice.go:69-87 | the ID is checked before the body; on success the reply is 200 and the pet is stored under its body ID |
| `Petservice.PetService.DeletePet` | pkg/petservice/petservice.go:90-108 | 200 when a pet was removed, 204 when none existed; the key is gone afterwards |
| `PetserviceRest.KeyExtractor` | pkg/petservice/rest.go:18-26 | the middleware stores the raw path segment as a string, so reading the key never hits the extraction error |
| `PetserviceRest.RenderErrorResponse` | pkg/petservice/rest.go:41-48 | an APIError is answered with its status and its response message; any other error with 500 and its text |
| `Petservice.PostFailedError` | pkg/petservice/petservice.go:57-62 | a refused create is a 500 error whose internal message ends with the store's error |
| `Petservice.PutFailedError` | pkg/petservice/petservice.go:79-85 | a failed update is a 500 error whose internal message ends with the store's error |
| `Petservice.DeleteFailedError` | pkg/petservice/petservice.go:97-103 | a failed delete is a 500 error whose internal message ends with the store's error |
| `PetserviceRest.MakeHandler` | pkg/petservice/rest.go:50-60 | an error is rendered as an error; otherwise the handler's status and response go out unchanged |
| `PetserviceRest.ErrorIgnoresReturnedStatus` | pkg/petservice/rest.go:52-55 | with an error, the status and response returned beside it make no difference |
| `PetserviceRest.ApiErrorReachesClient` | pkg/petservice/rest.go:43-44 | an APIError reaches the client with its status and response message, not its internal message |
| `PetserviceRest.PathSegmentRoundTrip` | pkg/petservice/rest.go:18-26 | an ID written into the path in `%d` form reaches the handler, through the middleware and readPetID, as that ID |
| `PetserviceRest.SegmentErrorsAreClientErrors` | pkg/petservice/rest.go:18-26 | behind the middleware the key is always a string, so readPetID never reports keyExtractionError and its errors answer 400 |
| `PetserviceRest.StoreFailuresAreServerErrors` | pkg/petservice/petservice.go:57-103 | a refused create, update or delete reaches the client as 500 with its fixed response message |
| `PetserviceRest.RejectsLetters` | pkg/petservice/petservice.go:118-121 | the segment "abc" is invalidPetIDError("abc") |
| `PetserviceRest.CrudSession` | pkg/petservice/rest.go:29-39 | on a fresh service: POST 201, GET 200 with p, PUT 200, GET 200 with q, DELETE 200, DELETE 204, GET /abc 400 |
| `PetErrors.APIError.Error` | pkg/pet/errors.go:29-34 | the text is the message when there is no cause, and "message : cause" when there is one |
| `PetErrors.APIErrorf` | pkg/pet/errors.go:37-39 | an error with the given code whose text is exactly the message |
| `PetErrors.APIErrorEf` | pkg/pet/errors.go:42-48 | an error with the given code, message and cause; its text is the message exactly when the cause is nil |
| `PetErrors.RenderHTTPErrorResponse` | pkg/pet/errors.go:57-69 | an APIError is answered with its message and 400 for ErrBadRequest, 404 for ErrIDNotFound, otherwise 500; a non-APIError with 500 and its text |
| `PetErrors.InvalidIDIsServerError` | pkg/pet/errors.go:50-55 | ErrInvalidID has no table entry and gets 500 |
| `PetMemStore.MemStore.constructor` | pkg/pet/memstore.go:14-19 | a new store is empty and holds only pets |
| `PetMemStore.MemStore.GetPet` | pkg/pet/memstore.go:22-32 | a present ID gives the stored pet and no error; an absent one an ErrIDNotFound error and no pet; ErrUnknown never occurs |
| `PetMemStore.MemStore.PostPet` | pkg/pet/memstore.go:35-43 | a free pet.ID is stored with no error; a taken one is ErrIDAlreadyExists and nothing changes; only pets stay stored |
| `PetMemStore.MemStore.PutPet` | pkg/pet/memstore.go:46-49 | never an error; the pet is stored under the ID argument, other keys unchanged |
| `PetMemStore.MemStore.DeletePet` | pkg/pet/memstore.go:52-60 | never an error; true exactly when the ID was present; exactly that entry is removed |
| `PetMemStore.CreateThenRead` | pkg/pet/storer_test.go:89-103 | a pet created under a free ID reads back equal |
| `PetMemStore.CreateTwiceKeepsFirst` | pkg/pet/storer_test.go:105-120 | a second create fails with ErrIDAlreadyExists and the first pet stays |
| `PetMemStore.UpdateIsUpsert` | pkg/pet/storer_test.go:122-152 | an update reads back whether or not the ID existed, and a seeded pet under another ID is untouched |
| `PetMemStore.DeleteTwice` | pkg/pet/storer_test.go:154-174 | two deletes return true, then false, and a read afterwards fails with ErrIDNotFound |
| `PetRest.RenderErrorResponse` | pkg/pet/rest.go:29-41 | the status is 500 unless the error is a package error whose code is in the table (invalid input 400, not found 404); a package error shows its message, others their text |
| `PetRest.RenderersAgree` | pkg/pet/errors.go:57-69 | the renderer of rest.go and that of errors.go give every error the same response |
| `PetRest.StoreErrorStatuses` | pkg/pet/rest.go:23-26 | the store's not-found error gives 404; its duplicate-ID and unknown errors give 500 |
| `PetRest.ReadPetID` | pkg/pet/rest.go:154-165 | no ID is an ErrUnknown error; text the parser rejects is an ErrInvalidInput error; accepted text gives the uint32 whose int32 reading is its value |
| `PetRest.ReadPetIDWraps` | pkg/pet/rest.go:160-164 | the `%d` text of any int32 reads as its uint32 wrap, which the store key turns back into the ID |
| `PetRest.MinusOneWraps` | pkg/pet/rest.go:164 | "-1" is read as 4294967295 |
| `PetRest.InvalidIDIsBadRequest` | pkg/pet/rest_test.go:99-113 | "111x" is rejected and answered with 400 |
| `PetRest.ReadPetBody` | pkg/pet/rest.go:167-180 | only a decoded pet succeeds; every failure is ErrInvalidInput; a missing body has no cause, an unreadable or undecodable one carries the reader's or decoder's error as its cause |
| `PetRest.PutPetTail` | pkg/pet/rest.go:127-131 | as written, the last render call is always the 201 one, even after a store error has been rendered |
| `PetRest.PutPetTailWritesTwice` | pkg/pet/rest.go:127-131 | after a store error two render calls run: the error's, then the 201 one (net/http drops that second status, so the client gets the error status with `null` appended to its body) |
| `PetRest.PutPetTailCorrected` | pkg/pet/rest.go:127-131 | with the return restored there is exactly one render call: the error's, or 201 |
| `PetRest.PutPetTailsAgreeOnSuccess` | pkg/pet/rest.go:127-131 | without a store error the written and corrected ends agree |
| `PetRest.Service.constructor` | pkg/pet/rest.go:74-78 | the service holds the given store |
| `PetRest.Service.GetPet` | pkg/pet/rest.go:84-97 | an ID error is rendered; a present ID gives 200 with the stored pet; an absent one passes the store's not-found error through |
| `PetRest.Service.PostPet` | pkg/pet/rest.go:100-113 | a body error is rendered; a taken ID renders the store's duplicate error and changes nothing; otherwise 201 and the pet stored |
| `PetRest.Service.PutPet` | pkg/pet/rest.go:116-132 | the ID is checked before the body; on success 201 and the pet stored under the path ID |
| `PetRest.Service.DeletePet` | pkg/pet/rest.go:135-152 | 200 when a pet was removed, 204 when none existed; that key is gone afterwards |
| `PetRest.RestSession` | pkg/pet/rest_test.go:59-280 | on a fresh store: POST 201, duplicate POST 500, GET 200 with p, PUT 201, GET 200 with q, DELETE 200, DELETE 204, GET 404, GET /111x 400 |

## Findings

| source | as written | input that shows it | evidently intended | confidence | as-written member | corrected member |
|---|---|---|---|---|---|---|
| pkg/pet/rest.go:127-131 | after rendering an `UpdatePet` error there is no `return`, so `render.Status(201)` and `render.JSON(nil)` run too | any store whose update returns an error e: the error for e is rendered, then the 201 render runs; net/http ignores the superfluous 201, so the client gets the error status with `null` appended to the error text | return after rendering the error, so there is exactly one render call | high; not executed | `PetRest.PutPetTail` (`PetRest.PutPetTailWritesTwice`) | `PetRest.PutPetTailCorrected` |

Both tails agree when there is no store error (`PetRest.PutPetTailsAgreeOnSuccess`). The in-memory store's update never fails, so `PetRest.Service.PutPet` follows the code as written and still answers exactly once.

## Left out

- HTTP plumbing is not modelled: chi routing and route setup, context wiring, `render.JSON` encoding, `http.Error` writes and logrus logging. A handler's result is modelled as the response(s) it would write.
- `json.Unmarshal` and `ioutil.ReadAll` are library calls. A body is modelled as absent, unreadable or read, and a read body as decoded to a pet or undecodable.
- The swapped JSON tags (`Species` is tagged "owner", `Owner` "species") are consistent in both directions and so are not modelled, because encoding is not modelled.
- `PetRest.PutPetTail`: each render call is modelled as one response of its own. net/http keeps the first status written and only appends later bodies, which is not captured.
- `Petservice.PetService` and `PetRest.Service` hold the concrete `MemStore`, not the `PetStorer`/`Storer` interface (pkg/petservice/petservice.go:20-23, pkg/pet/rest.go:68-77), because every caller in the repository passes a `MemStore`. The in-memory stores never fail an update or a delete, so the handler branches for a failing store (pkg/petservice/petservice.go:79-85 and 97-103, pkg/pet/rest.go:127-129 and 142-145) cannot run in the model. Their 500 replies are stated only on the error values (`Petservice.PutFailedError`, `Petservice.DeleteFailedError`, `PetserviceRest.StoreFailuresAreServerErrors`), and the pkg/pet branch at 127-129 only by `PetRest.PutPetTail`.
- Concurrency is not modelled: each store operation is one atomic step, and there are no interleavings.
- `cmd/petserver/main.go` builds `&pet.MemStore{}` without `NewMemStore`. Its mutex is then nil, and its create and delete would panic. Process setup (flags, store selection, listening) is not part of this model.
- `Extra` is a Go map that a stored copy shares with the caller. The model treats `Pet` as an immutable value, so this aliasing is not captured.
- Formatting is modelled only where it is used:
  - `fmt.Sprintf` with `%d` is modelled (`Decimal.FormatInt`).
  - Other formatting of `APIErrorf`/`APIErrorEf` is not. They take the already formatted message.
  - A cause is kept as its error text.
- `PetRest.ReadPetID` does not model the placeholder ID returned beside an error, because every caller discards it.
- `PetRest.ReadPetID` does not model the panic of `petID.(string)` when the context holds a non-string, because the middleware stores only strings.
- The package-level `errStatusMap` of errors.go and that of rest.go clash under one name in Go. Each is kept in its own module.
