/**
 * The rows of the `users` table and the error responses of the backend.
 */
module UserModel {

  /**
   * A row of `users`. `createdAt` is the value `datetime.now()` gave when the
   * row was made, kept abstract as a number.
   */
  datatype UserRecord = UserRecord(id: int, email: string, hashedPassword: string, createdAt: int)

  /** The `UserRead` response model: a row without its password hash. */
  datatype UserRead = UserRead(id: int, email: string, createdAt: int)

  function ToRead(u: UserRecord): (r: UserRead)
    ensures r.id == u.id && r.email == u.email && r.createdAt == u.createdAt
  {
    UserRead(u.id, u.email, u.createdAt)
  }

  /** An `HTTPException`: status code, `detail` and extra response headers. */
  datatype HttpError = HttpError(status: int, detail: string, headers: map<string, string>)
}
