/** Outcomes at the HTTP boundary: the errors the routes raise and the
    value-or-error results every operation returns. */
module Http {

  datatype Option<+T> = None | Some(value: T)

  /** An `HTTPException`: a status code and its detail text. */
  datatype HttpError = HttpError(status: nat, detail: string)

  /** Either the route's normal response body or the exception it raises. */
  datatype Result<+T> = Ok(value: T) | Err(error: HttpError)

  /** The bearer token could not be decoded, verified or was expired. */
  const InvalidToken := HttpError(401, "Invalid token")

  /** The token decoded, but carries no subject or names no stored user. */
  const InvalidCredentials := HttpError(401, "Invalid credentials")

  /** Login with an unknown name or a wrong password. */
  const IncorrectLogin := HttpError(400, "Incorrect username or password")

  /** An authenticated user whose role does not match the route's role. */
  const Forbidden := HttpError(403, "Unauthorized access")
}
