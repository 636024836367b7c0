/** What a handler sends back: a status code and a body. */
module Responses {
  import opened Models
  import opened Policy

  const OK: int := 200
  const CREATED: int := 201
  const BAD_REQUEST: int := 400
  const UNAUTHORIZED: int := 401
  const NOT_FOUND: int := 404

  datatype Payload =
    | Text(message: string)            // a fixed message string
    | ErrorObject                      // a validation or store error object, contents not modelled
    | Token(claims: Claims)            // a signed token, represented by the claims it carries
    | UserView(view: PublicUser)       // the projected single user
    | UserRecord(user: User)           // a whole user document
    | UserList(users: map<UserId, User>)
    | CardRecord(card: Card)
    | CardList(cards: map<CardId, Card>)

  datatype Outcome = Outcome(status: int, payload: Payload)

  /**
   * The auth middleware's answer to a request without a token or with one
   * that does not verify. Both are 400; the source sends this text only for
   * a missing header, and the error object for a token that fails.
   */
  const NoValidToken := Outcome(BAD_REQUEST, Text("no valid token"))

  /** Every handler's answer to a caller the access rule turns away. */
  const Denied := Outcome(UNAUTHORIZED, Text("unauthorized"))

  /** A body that fails Joi validation, or a write the store refuses. */
  const Rejected := Outcome(BAD_REQUEST, ErrorObject)
}
