/** Value types shared by the views: optional values, the JavaScript
    truthiness of a string that may be null, the shape of a rejected
    request as the forms inspect it, and the server's Seat and Candidate
    records. */
module Common {

  datatype Option<+T> = None | Some(value: T)

  /** `!s` is false for a string-or-null exactly when it is present and
      non-empty; the views use this test for image paths and tokens. */
  predicate Truthy(s: Option<string>) {
    s.Some? && s.value != ""
  }

  /** The part of an error response's `data` that the forms read. */
  datatype ErrorBody = ErrorBody(detail: Option<string>)

  /** A rejected request: no response at all (network failure), or a
      response whose `data` may be missing (`error.response.data`). */
  datatype RequestError = NoResponse | Response(data: Option<ErrorBody>)

  /** An electoral seat as `GET /api/seats/` lists it. */
  datatype Seat = Seat(id: nat, name: string)

  /** A candidate as the candidate endpoints return it. */
  datatype Candidate = Candidate(
    id: nat,
    name: string,
    seat: nat,
    seatName: string,
    bio: Option<string>,
    party: Option<string>,
    position: Option<string>,
    profileImage: Option<string>)
}
