/** The HTTP error a FastAPI handler raises as `HTTPException`. */
module Http {
  datatype HttpError = HttpError(status: nat, detail: string)

  const InternalServerError: nat := 500
}
