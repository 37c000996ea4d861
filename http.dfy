/** The HTTP status codes the services use and what a handler writes back. */
module Http {
  import opened Wrappers
  import opened PetModels

  const StatusOK: int := 200
  const StatusCreated: int := 201
  const StatusNoContent: int := 204
  const StatusBadRequest: int := 400
  const StatusNotFound: int := 404
  const StatusInternalServerError: int := 500

  /**
   * One response written to the client: a plain-text error (http.Error) or a status
   * with a JSON rendering of an optional pet (render.Status followed by render.JSON).
   */
  datatype Response = TextResponse(status: int, message: string) | JsonResponse(status: int, value: Option<Pet>)
}
