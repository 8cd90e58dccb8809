/** The HTTP statuses the routes answer with. */
module Statuses {
  const OK: int := 200
  const NO_CONTENT: int := 204
  const BAD_REQUEST: int := 400
  const UNAUTHORIZED: int := 401
  const FORBIDDEN: int := 403
  const NOT_FOUND: int := 404
  const PAYLOAD_TOO_LARGE: int := 413
  const UNSUPPORTED_MEDIA_TYPE: int := 415
  const UNPROCESSABLE_ENTITY: int := 422
  const INTERNAL_SERVER_ERROR: int := 500
  const SERVICE_UNAVAILABLE: int := 503
}
