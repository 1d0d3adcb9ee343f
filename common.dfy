/** Small shared vocabulary: optional values, database reads that may fail,
    document identifiers, HTTP status codes and method names. */
module Common {

  datatype Option<T> = None | Some(value: T)

  /** The answer of a database read: the value read, or an error. */
  datatype Fetch<T> = Fetched(value: T) | FetchFailed

  /** Document identifiers as the database assigns them. */
  type Id = string

  /** Instants, in whole seconds since the Unix epoch. */
  type Time = int

  const StatusOK: int := 200
  const StatusCreated: int := 201
  const StatusNoContent: int := 204
  const StatusBadRequest: int := 400
  const StatusUnauthorized: int := 401
  const StatusNotFound: int := 404
  const StatusMethodNotAllowed: int := 405
  const StatusConflict: int := 409
  const StatusInternalServerError: int := 500

  const MethodGet: string := "GET"
  const MethodPost: string := "POST"
  const MethodOptions: string := "OPTIONS"

  /** Plain string prefix test, as Go's strings.HasPrefix. */
  predicate StartsWith(s: string, prefix: string) {
    |prefix| <= |s| && s[..|prefix|] == prefix
  }
}
