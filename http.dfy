/** The HTTP vocabulary the client uses: request methods and response status codes. */
module Http {

  datatype Method =
    | Options
    | Get
    | Post
    | Put
    | Delete
    | Head
    | Trace
    | Connect
    | Patch
    | Extension(name: string)

  /** A numeric HTTP status code (16 bits, as the HTTP library stores it). */
  newtype StatusCode = c: int | 0 <= c < 0x1_0000

  const OK: StatusCode := 200
  const UNAUTHORIZED: StatusCode := 401
  const NOT_FOUND: StatusCode := 404
}
