/**
 * The lines of server/routes/r_cards.js and server/routes/r_users.js whose
 * literal behaviour differs from what they evidently intend, modelled as
 * they stand, each with the lemma that shows the difference. The handlers of
 * module Routes model the intended behaviour.
 *
 * Only the JavaScript semantics these lines rely on is modelled: what
 * `Card.find` yields (always an array), truthiness (an array is truthy even
 * when empty), property reads (an array has no `createdBy` or `likes`, so
 * they are `undefined`), loose `!=`, and that calling a method of
 * `undefined`, or a method that does not exist, throws into the handler's
 * `catch`, which answers 400.
 */
module AsWritten {
  import opened Wrappers
  import opened Models
  import opened Responses

  datatype JsValue =
    | Undefined
    | Null
    | Str(s: string)
    | Bool(b: bool)
    | CardArray(items: set<Card>)   // a Mongoose query result; element order is not modelled
    | CardDoc(card: Card)
    | IdArray(ids: seq<UserId>)
    | ClaimSet(claims: Claims)      // `req.payload` as the auth middleware sets it

  predicate Truthy(v: JsValue) {
    match v
    case Undefined => false
    case Null => false
    case Str(s) => s != ""
    case Bool(b) => b
    case CardArray(_) => true
    case CardDoc(_) => true
    case IdArray(_) => true
    case ClaimSet(_) => true
  }

  /** Loose equality `==` on the values these lines compare. */
  predicate LooseEq(a: JsValue, b: JsValue) {
    || ((a.Undefined? || a.Null?) && (b.Undefined? || b.Null?))
    || (a.Str? && b.Str? && a.s == b.s)
    || (a.Bool? && b.Bool? && a.b == b.b)
  }

  /** `Card.find({_id: id})`: an array holding the card if there is one. */
  function FindById(cards: map<CardId, Card>, id: CardId): JsValue {
    CardArray(if id in cards then {cards[id]} else {})
  }

  /** `Card.find({createdBy: email})`. */
  function FindByCreator(cards: map<CardId, Card>, email: Email): JsValue {
    CardArray(set k | k in cards && cards[k].createdBy == email :: cards[k])
  }

  /** `Card.find({bizNumber: n})`. */
  function FindByBizNumber(cards: map<CardId, Card>, n: string): JsValue {
    CardArray(set k | k in cards && cards[k].bizNumber == Some(n) :: cards[k])
  }

  /** `v.createdBy`. */
  function CreatedByOf(v: JsValue): JsValue {
    if v.CardDoc? then Str(v.card.createdBy) else Undefined
  }

  /** `v.likes`. */
  function LikesOf(v: JsValue): JsValue {
    if v.CardDoc? then IdArray(v.card.likes) else Undefined
  }

  /** `req.params.email` on a route whose only parameter is `:id`. */
  const ParamsEmail: JsValue := Undefined

  /** Status of PUT /cards/:id as written (server/routes/r_cards.js:119-132). */
  function EditCardStatus(c: Claims, id: CardId, cards: map<CardId, Card>): int {
    var card := FindById(cards, id);
    if !Truthy(card) then NOT_FOUND
    else if !LooseEq(CreatedByOf(card), ParamsEmail) then UNAUTHORIZED
    else CREATED
  }

  /**
   * As written, every authenticated caller passes the edit check: the array
   * has no `createdBy` and the route has no `email` parameter, and undefined
   * equals undefined. A missing card is not reported either.
   */
  lemma EditCheckNeverDenies(c: Claims, id: CardId, cards: map<CardId, Card>)
    ensures EditCardStatus(c, id, cards) == CREATED
  {
  }

  /** Status of DELETE /cards/:id as written (server/routes/r_cards.js:175-188). */
  function DeleteCardStatus(c: Claims, id: CardId, cards: map<CardId, Card>): int {
    var card := FindById(cards, id);
    if !Truthy(card) then NOT_FOUND
    else if !LooseEq(CreatedByOf(card), Str(c.email)) || !c.isAdmin then UNAUTHORIZED
    else OK
  }

  /** As written, nobody can delete a card, not even its owner who is an administrator. */
  lemma DeleteCheckAlwaysDenies(c: Claims, id: CardId, cards: map<CardId, Card>)
    ensures DeleteCardStatus(c, id, cards) == UNAUTHORIZED
  {
  }

  /**
   * Lines 151-158 of server/routes/r_cards.js on the likes of a fetched card:
   * the new likes, or `None` when a call throws. `likesArr.indexof` is not a
   * function, so removing a like throws.
   */
  function ToggleLines(likesArr: JsValue, me: UserId): Option<seq<UserId>> {
    if !likesArr.IdArray? then None                  // likesArr.includes on undefined
    else if me in likesArr.ids then None             // likesArr.indexof is not a function
    else Some(likesArr.ids + [me])
  }

  /** Status of PATCH /cards/:id as written (server/routes/r_cards.js:143-164). */
  function ToggleLikeStatus(c: Claims, id: CardId, cards: map<CardId, Card>): int {
    var card := FindById(cards, id);
    if !Truthy(card) then NOT_FOUND
    else if ToggleLines(LikesOf(card), c.id).None? then BAD_REQUEST
    else OK
  }

  /**
   * As written, the toggle always fails with 400, since the array that
   * `Card.find` yields has no `likes`; and even on a fetched document,
   * taking a like back always fails.
   */
  lemma ToggleAlwaysFails(c: Claims, id: CardId, cards: map<CardId, Card>, card: Card)
    ensures ToggleLikeStatus(c, id, cards) == BAD_REQUEST
    ensures c.id in card.likes ==> ToggleLines(LikesOf(CardDoc(card)), c.id).None?
  {
  }

  /** Status of PATCH /cards/:id/biznumber as written (server/routes/r_cards.js:199-215). */
  function SetBizNumberStatus(c: Claims, id: CardId, n: string, cards: map<CardId, Card>): int {
    if !c.isAdmin then UNAUTHORIZED
    else if !Truthy(FindById(cards, id)) then NOT_FOUND
    else if Truthy(FindByBizNumber(cards, n)) then BAD_REQUEST
    else OK
  }

  /** As written, every number counts as taken, even on an empty directory. */
  lemma BizNumberAlwaysTaken(c: Claims, id: CardId, n: string)
    requires c.isAdmin
    ensures SetBizNumberStatus(c, id, n, map[]) == BAD_REQUEST
    ensures forall cards: map<CardId, Card> :: SetBizNumberStatus(c, id, n, cards) == BAD_REQUEST
  {
  }

  /** `req.payload` on a route mounted without the auth middleware. */
  const PayloadWithoutAuth: JsValue := Undefined

  /** Status of POST /cards (server/routes/r_cards.js:28-50) for a given `req.payload`. */
  function CreateCardStatus(payload: JsValue, bodyValid: bool): int {
    if !payload.ClaimSet? then BAD_REQUEST           // reading isBusiness of undefined throws
    else if !payload.claims.isBusiness then UNAUTHORIZED
    else if !bodyValid then BAD_REQUEST
    else OK
  }

  /**
   * As written, the route has no auth middleware, so not even a business
   * account can create a card; behind the middleware it could.
   */
  lemma CreateAlwaysFails(c: Claims, bodyValid: bool)
    ensures CreateCardStatus(PayloadWithoutAuth, bodyValid) == BAD_REQUEST
    ensures c.isBusiness && bodyValid ==> CreateCardStatus(ClaimSet(c), bodyValid) == OK
  {
  }

  /**
   * Status of POST /users/login as written (server/routes/r_users.js:67):
   * `loginJoiSchema` is not defined anywhere, so the first line throws.
   */
  function LoginStatus(users: map<UserId, User>, email: Email, password: string): int {
    BAD_REQUEST
  }

  /** As written, a registered user with the right password still cannot log in. */
  lemma LoginAlwaysFails(id: UserId, u: User, password: string)
    requires u.id == id && Verify(password, u.password)
    ensures LoginStatus(map[id := u], u.email, password) == BAD_REQUEST
  {
  }

  /** Status of GET /cards/my-cards as written (server/routes/r_cards.js:77-91). */
  function MyCardsStatus(c: Claims, cards: map<CardId, Card>): int {
    var card := FindByCreator(cards, c.email);
    if !Truthy(card) then NOT_FOUND
    else if !LooseEq(Str(c.email), CreatedByOf(card)) then UNAUTHORIZED
    else OK
  }

  /** As written, every caller is turned away from their own cards. */
  lemma MyCardsAlwaysDenied(c: Claims, cards: map<CardId, Card>)
    ensures MyCardsStatus(c, cards) == UNAUTHORIZED
  {
  }

  /** GET /cards/:id as written (server/routes/r_cards.js:102-108): status and body. */
  function GetCardAsWritten(id: CardId, cards: map<CardId, Card>): (int, JsValue) {
    var card := FindById(cards, id);
    if !Truthy(card) then (NOT_FOUND, Str("card not found")) else (OK, card)
  }

  /** As written, a card that does not exist is answered with 200 and an empty array. */
  lemma MissingCardFound(id: CardId, cards: map<CardId, Card>)
    requires id !in cards
    ensures GetCardAsWritten(id, cards) == (OK, CardArray({}))
  {
  }
}
