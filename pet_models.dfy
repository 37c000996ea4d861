/**
 * The pet record, declared identically in pkg/pet/types.go and pkg/petservice/petmodels.go,
 * and the abstraction of a request body that the two readPetBody functions decode.
 */
module PetModels {
  import opened Wrappers
  import opened Ints

  /** One value of the open-ended "extra" object, kept as its JSON text. */
  datatype JsonValue = JsonValue(text: string)

  /**
   * A pet. Extra is None for Go's nil map. The record is an immutable value: the
   * stores copy the struct, and the sharing of the Extra map between copies is not modelled.
   */
  datatype Pet = Pet(id: int32, name: string, species: string, owner: string, extra: Option<map<string, JsonValue>>)

  /** The outcome of json.Unmarshal on the body bytes; the cause is the decoder's error text. */
  datatype DecodeResult = Decoded(pet: Pet) | Undecodable(cause: string)

  /** A request body: absent (r.Body == nil), failing to read (ioutil.ReadAll error), or read and decoded. */
  datatype Body = NoBody | Unreadable(cause: string) | Readable(decoded: DecodeResult)
}
