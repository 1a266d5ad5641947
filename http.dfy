/** The HTTP status codes the handlers answer with. */
module Http {
  const Ok: int := 200
  const Created: int := 201
  const BadRequest: int := 400
  const Unauthorized: int := 401
  const Forbidden: int := 403
  const NotFound: int := 404
  const InternalError: int := 500
}
