/** The constants of src/utils/constants.js that the core uses. */
module Constants {

  // HTTP status codes
  const OK := 200
  const CREATED := 201
  const BAD_REQUEST := 400
  const UNAUTHORIZED := 401
  const FORBIDDEN := 403
  const NOT_FOUND := 404
  const TOO_MANY_REQUESTS := 429
  const INTERNAL_SERVER_ERROR := 500

  // API defaults
  const USER: string := "user"
  const ADMIN: string := "admin"
  const ROLES: seq<string> := [USER, ADMIN]
  const LOGGED_IN: string := "logged_in"
  const DEFAULT_IMAGE: string := "default.jpg"

  // Messages
  const NO_RECORD_FOUND: string := "No record found for given details"
  const VALIDATION_ERROR: string := "Validation Error"
  const INVALID_CREDENTIALS: string := "Invalid Credentials, Please check and try again"
  const EMAIL_EXIST: string := "Email is already in use by another account"

  // The literal marker the controllers put next to every successful payload
  const SUCCESS: string := "SUCCESS"
}
