/**
 * The handlers of server/routes/r_users.js (mounted at /api/users) and
 * server/routes/r_cards.js (mounted at /api/cards) over an in-memory
 * directory holding both collections. Requests run one at a time.
 *
 * A handler takes those inputs its route has: the claim set the auth
 * middleware extracted, on the routes behind `auth` (`None` when the request
 * carried no token or one that does not verify; the middleware then answers
 * 400 and the handler body never runs), the path id on the routes under
 * `/:id`, and the request body on the routes that read one. The store's
 * fresh ObjectId, the bcrypt salt and the creation timestamp are parameters
 * of the handlers that create.
 *
 * Where the literal code cannot do what it evidently means to (single-card
 * lookups written with `Card.find`, an un-awaited `User.findById`, the
 * `indexof` and `req.params.email` slips, the missing `auth` on POST /cards,
 * the undefined `loginJoiSchema`), the handler models the intended
 * behaviour and a comment marks the place; module AsWritten models those
 * lines as they stand.
 */
module Routes {
  import opened Wrappers
  import opened Models
  import opened Requests
  import opened Policy
  import opened Likes
  import opened Responses

  /** No two stored users share an e-mail: the unique index of server/models/User.js:6. */
  ghost predicate UniqueEmails(users: map<UserId, User>) {
    forall a, b :: a in users && b in users && users[a].email == users[b].email ==> a == b
  }

  /** No two stored cards hold the same bizNumber. */
  ghost predicate UniqueBizNumbers(cards: map<CardId, Card>) {
    forall a, b :: a in cards && b in cards && cards[a].bizNumber.Some? && cards[a].bizNumber == cards[b].bizNumber ==> a == b
  }

  /** `User.findOne({email})` finds a user. */
  predicate EmailTaken(users: map<UserId, User>, email: Email) {
    exists k :: k in users && users[k].email == email
  }

  /** A user other than `id` holds `email`: a write of it to `id` breaks the unique index. */
  predicate EmailTakenByOther(users: map<UserId, User>, email: Email, id: UserId) {
    exists k :: k in users && k != id && users[k].email == email
  }

  /** `Card.find({bizNumber: n})` finds a card; the target card itself is not excluded. */
  predicate BizNumberTaken(cards: map<CardId, Card>, n: string) {
    exists k :: k in cards && cards[k].bizNumber == Some(n)
  }

  /** `Card.find({createdBy: email})`: exactly the cards that `email` created, as stored. */
  function CardsBy(cards: map<CardId, Card>, email: Email): (mine: map<CardId, Card>)
    ensures forall k :: k in mine <==> k in cards && cards[k].createdBy == email
    ensures forall k :: k in mine ==> mine[k] == cards[k]
  {
    map k | k in cards && cards[k].createdBy == email :: cards[k]
  }

  /**
   * `new User(req.body)` for a validated body, with the creation time stamped
   * and the password replaced by its digest before the document is saved.
   */
  function NewUser(id: UserId, b: UserBody, salt: Salt, now: string): User {
    User(id, b.name, b.phone, b.email, Hash(salt, b.password), b.image, b.address,
         b.isAdmin, b.isBusiness, Some(now))
  }

  /**
   * `new Card(req.body)`, stamped with the creation time and with `createdBy`
   * taken from the claims. `web`, the key the request schema admits, is not
   * a field of the card model, so Mongoose's strict mode drops it and the
   * card starts without a `website`; `likes` defaults to the empty array.
   */
  function NewCard(id: CardId, b: CardBody, c: Claims, now: string): Card {
    Card(id, b.title, b.subtitle, b.description, b.phone, b.email, None, b.image, b.address,
         b.bizNumber, b.likes.GetOr([]), Some(now), c.email)
  }

  /**
   * The owner of a new card is the caller, whatever the body says: a body
   * naming another owner builds the same document as one naming none.
   */
  lemma OwnerComesFromClaims(id: CardId, b: CardBody, c: Claims, now: string, forged: Option<Email>)
    ensures NewCard(id, b, c, now).createdBy == c.email
    ensures NewCard(id, b.(createdBy := forged), c, now) == NewCard(id, b, c, now)
  {
  }

  /**
   * A new user's stored password is a digest that verifies the registered
   * password. It verifies another one exactly when that one yields the same
   * bcrypt key, which for passwords up to 72 bytes without NUL characters
   * means only when it is the same password.
   */
  lemma NewUserPasswordHashed(id: UserId, b: UserBody, salt: Salt, now: string, q: string)
    ensures NewUser(id, b, salt, now).password.Hashed?
    ensures Verify(b.password, NewUser(id, b, salt, now).password)
    ensures Verify(q, NewUser(id, b, salt, now).password) <==> BcryptKey(q) == BcryptKey(b.password)
    ensures |Utf8(q)| <= KeyBytes && |Utf8(b.password)| <= KeyBytes && '\0' !in q && '\0' !in b.password ==>
              (Verify(q, NewUser(id, b, salt, now).password) <==> q == b.password)
  {
    if |Utf8(q)| <= KeyBytes && |Utf8(b.password)| <= KeyBytes && '\0' !in q && '\0' !in b.password {
      ShortPasswordsExact(salt, b.password, q);
    }
  }

  class Directory {
    var users: map<UserId, User>
    var cards: map<CardId, Card>

    /** Every document is stored under its own id, and user e-mails are unique. */
    ghost predicate Valid()
      reads this
    {
      && (forall k :: k in users ==> users[k].id == k)
      && (forall k :: k in cards ==> cards[k].id == k)
      && UniqueEmails(users)
    }

    constructor ()
      ensures Valid()
      ensures users == map[] && cards == map[]
    {
      users := map[];
      cards := map[];
    }

    // ---------------------------------------------------------------- users

    /** POST /users: register an account and answer with its token. */
    method Register(body: UserBody, newId: UserId, salt: Salt, now: string) returns (out: Outcome)
      requires Valid()
      requires newId !in users
      modifies this
      ensures Valid()
      ensures cards == old(cards)
      ensures !UserBodyValid(body) ==> out == Rejected && users == old(users)
      ensures UserBodyValid(body) && EmailTaken(old(users), body.email) ==>
                out == Outcome(BAD_REQUEST, Text("user already exists")) && users == old(users)
      ensures UserBodyValid(body) && !EmailTaken(old(users), body.email) && !MinLength(body.phone, 10) ==>
                out == Rejected && users == old(users)
      ensures out.status == CREATED <==>
                UserBodyValid(body) && !EmailTaken(old(users), body.email) && MinLength(body.phone, 10)
      ensures out.status == CREATED ==>
                && users == old(users)[newId := NewUser(newId, body, salt, now)]
                && users[newId].password == Hash(salt, body.password)
                && out.payload == Token(Claims(newId, body.email, body.isAdmin, body.isBusiness))
    {
      if !UserBodyValid(body) {
        return Rejected;
      }
      if EmailTaken(users, body.email) {
        return Outcome(BAD_REQUEST, Text("user already exists"));
      }
      var user := NewUser(newId, body, salt, now);
      // user.save() runs the schema's validators
      if !UserSchemaValid(user) {
        return Rejected;
      }
      users := users[newId := user];
      out := Outcome(CREATED, Token(ClaimsOf(user)));
    }

    /**
     * POST /users/login. The source validates the body with `loginJoiSchema`,
     * which is never defined; the model leaves that validation out and goes
     * straight to the lookup it guards. A comparison that raises reaches the
     * handler's `catch`, which answers 400.
     */
    method Login(body: LoginBody) returns (out: Outcome)
      requires Valid()
      ensures !EmailTaken(users, body.email) ==> out == Outcome(NOT_FOUND, Text("wrong email or password"))
      ensures forall k :: k in users && users[k].email == body.email && CompareRaises(users[k].password) ==>
                out == Rejected
      ensures forall k ::
                (k in users && users[k].email == body.email &&
                 !CompareRaises(users[k].password) && !Verify(body.password, users[k].password)) ==>
                out == Outcome(NOT_FOUND, Text("wrong email or pasword"))
      ensures forall k :: k in users && users[k].email == body.email && Verify(body.password, users[k].password) ==>
                out == Outcome(OK, Token(ClaimsOf(users[k])))
    {
      if k :| k in users && users[k].email == body.email {
        var user := users[k];
        if CompareRaises(user.password) {
          return Rejected;
        }
        if !Verify(body.password, user.password) {
          return Outcome(NOT_FOUND, Text("wrong email or pasword"));
        }
        out := Outcome(OK, Token(ClaimsOf(user)));
      } else {
        out := Outcome(NOT_FOUND, Text("wrong email or password"));
      }
    }

    /**
     * GET /users: every stored user, whole. `User.find()` yields an array,
     * which is never falsy, so the source's 404 branch cannot be taken.
     */
    method ListUsers(claims: Option<Claims>) returns (out: Outcome)
      ensures claims.None? ==> out == NoValidToken
      ensures claims.Some? && !MayListUsers(claims.value) ==> out == Denied
      ensures claims.Some? && MayListUsers(claims.value) ==> out == Outcome(OK, UserList(users))
    {
      if claims.None? {
        return NoValidToken;
      }
      if !MayListUsers(claims.value) {
        return Denied;
      }
      out := Outcome(OK, UserList(users));
    }

    /** GET /users/:id: the projected user, for the user themself or an administrator. */
    method GetUser(claims: Option<Claims>, id: UserId) returns (out: Outcome)
      ensures claims.None? ==> out == NoValidToken
      ensures claims.Some? && !SelfOrAdmin(claims.value, id) ==> out == Denied
      ensures claims.Some? && SelfOrAdmin(claims.value, id) && id !in users ==>
                out == Outcome(NOT_FOUND, Text("user not found"))
      ensures claims.Some? && SelfOrAdmin(claims.value, id) && id in users ==>
                out == Outcome(OK, UserView(Project(users[id])))
    {
      if claims.None? {
        return NoValidToken;
      }
      if !SelfOrAdmin(claims.value, id) {
        return Denied;
      }
      if id !in users {
        return Outcome(NOT_FOUND, Text("user not found"));
      }
      out := Outcome(OK, UserView(Project(users[id])));
    }

    /**
     * PUT /users/:id: the user themself writes the fields the body names.
     * An e-mail already held by another user makes the store's unique index
     * refuse the write, which the handler's catch answers with 400.
     */
    method PutUser(claims: Option<Claims>, id: UserId, body: UserPatch) returns (out: Outcome)
      requires Valid()
      modifies this
      ensures Valid()
      ensures cards == old(cards)
      ensures claims.None? ==> out == NoValidToken && users == old(users)
      ensures claims.Some? && !MayEditUser(claims.value, id) ==> out == Denied && users == old(users)
      ensures claims.Some? && MayEditUser(claims.value, id) && id !in old(users) ==>
                out == Outcome(NOT_FOUND, Text("user not found")) && users == old(users)
      ensures claims.Some? && MayEditUser(claims.value, id) && id in old(users)
              && body.email.Some? && EmailTakenByOther(old(users), body.email.value, id) ==>
                out == Rejected && users == old(users)
      ensures out.status == CREATED ==>
                && id in old(users)
                && users == old(users)[id := ApplyUserPatch(old(users)[id], body)]
                && out.payload == UserView(Project(users[id]))
      ensures claims.Some? && MayEditUser(claims.value, id) && id in old(users)
              && !(body.email.Some? && EmailTakenByOther(old(users), body.email.value, id)) ==>
                out.status == CREATED
    {
      if claims.None? {
        return NoValidToken;
      }
      if !MayEditUser(claims.value, id) {
        return Denied;
      }
      if id !in users {
        return Outcome(NOT_FOUND, Text("user not found"));
      }
      if body.email.Some? && EmailTakenByOther(users, body.email.value, id) {
        return Rejected;
      }
      var user := ApplyUserPatch(users[id], body);
      users := users[id := user];
      out := Outcome(CREATED, UserView(Project(user)));
    }

    /** PATCH /users/:id: the user themself sets their own `isBusiness`, and nothing else. */
    method PatchUser(claims: Option<Claims>, id: UserId, isBusiness: bool) returns (out: Outcome)
      requires Valid()
      modifies this
      ensures Valid()
      ensures cards == old(cards)
      ensures claims.None? ==> out == NoValidToken && users == old(users)
      ensures claims.Some? && !MayEditUser(claims.value, id) ==> out == Denied && users == old(users)
      ensures claims.Some? && MayEditUser(claims.value, id) && id !in old(users) ==>
                out == Outcome(NOT_FOUND, Text("user not found")) && users == old(users)
      ensures claims.Some? && MayEditUser(claims.value, id) && id in old(users) ==>
                && users == old(users)[id := old(users)[id].(isBusiness := isBusiness)]
                && out == Outcome(OK, UserView(Project(users[id])))
    {
      if claims.None? {
        return NoValidToken;
      }
      if !MayEditUser(claims.value, id) {
        return Denied;
      }
      if id !in users {
        return Outcome(NOT_FOUND, Text("user not found"));
      }
      var user := users[id].(isBusiness := isBusiness);
      users := users[id := user];
      out := Outcome(OK, UserView(Project(user)));
    }

    /** DELETE /users/:id: the user themself or an administrator removes the account. */
    method DeleteUser(claims: Option<Claims>, id: UserId) returns (out: Outcome)
      requires Valid()
      modifies this
      ensures Valid()
      ensures cards == old(cards)
      ensures claims.None? ==> out == NoValidToken && users == old(users)
      ensures claims.Some? && !SelfOrAdmin(claims.value, id) ==> out == Denied && users == old(users)
      ensures claims.Some? && SelfOrAdmin(claims.value, id) && id !in old(users) ==>
                out == Outcome(NOT_FOUND, Text("user not found")) && users == old(users)
      ensures claims.Some? && SelfOrAdmin(claims.value, id) && id in old(users) ==>
                users == old(users) - {id} && out == Outcome(OK, UserRecord(old(users)[id]))
    {
      if claims.None? {
        return NoValidToken;
      }
      if !SelfOrAdmin(claims.value, id) {
        return Denied;
      }
      if id !in users {
        return Outcome(NOT_FOUND, Text("user not found"));
      }
      var user := users[id];
      users := users - {id};
      out := Outcome(OK, UserRecord(user));
    }

    // ---------------------------------------------------------------- cards

    /**
     * POST /cards: a business account creates a card it owns. The source
     * mounts this route without the auth middleware, so `req.payload` is
     * never set; the model runs it behind the middleware like the others.
     */
    method CreateCard(claims: Option<Claims>, body: CardBody, newId: CardId, now: string) returns (out: Outcome)
      requires Valid()
      requires newId !in cards
      modifies this
      ensures Valid()
      ensures users == old(users)
      ensures claims.None? ==> out == NoValidToken && cards == old(cards)
      ensures claims.Some? && !MayCreateCard(claims.value) ==> out == Denied && cards == old(cards)
      ensures claims.Some? && MayCreateCard(claims.value) && !CardBodyValid(body) ==>
                out == Rejected && cards == old(cards)
      ensures out.status == OK <==>
                claims.Some? && MayCreateCard(claims.value) && CardBodyValid(body)
                && CardSchemaValid(NewCard(newId, body, claims.value, now))
      ensures out.status != OK ==> cards == old(cards)
      ensures out.status == OK ==>
                && cards == old(cards)[newId := NewCard(newId, body, claims.value, now)]
                && cards[newId].createdBy == claims.value.email
                && out.payload == CardRecord(cards[newId])
    {
      if claims.None? {
        return NoValidToken;
      }
      if !MayCreateCard(claims.value) {
        return Denied;
      }
      if !CardBodyValid(body) {
        return Rejected;
      }
      var card := NewCard(newId, body, claims.value, now);
      // card.save() runs the schema's validators
      if !CardSchemaValid(card) {
        return Rejected;
      }
      cards := cards[newId := card];
      out := Outcome(OK, CardRecord(card));
    }

    /** GET /cards: every card, for anyone. As for users, the 404 branch cannot be taken. */
    method ListCards() returns (out: Outcome)
      ensures out == Outcome(OK, CardList(cards))
    {
      out := Outcome(OK, CardList(cards));
    }

    /**
     * GET /cards/my-cards: the cards the caller created. The source's
     * `User.findById` is not awaited, so its "please register" check never
     * fires; the model awaits it. `Card.find` yields an array, which is never
     * falsy and has no `createdBy`; the model keeps the array semantics of the
     * query, under which every card returned was created by the caller.
     */
    method MyCards(claims: Option<Claims>) returns (out: Outcome)
      ensures claims.None? ==> out == NoValidToken
      ensures claims.Some? && claims.value.id !in users ==> out == Outcome(BAD_REQUEST, Text("please register"))
      ensures claims.Some? && claims.value.id in users ==> out.status == OK && out.payload.CardList?
      ensures out.status == OK ==>
                && claims.Some?
                && (forall k :: k in out.payload.cards <==> k in cards && IsOwner(claims.value, cards[k]))
                && (forall k :: k in out.payload.cards ==> out.payload.cards[k] == cards[k])
    {
      if claims.None? {
        return NoValidToken;
      }
      if claims.value.id !in users {
        return Outcome(BAD_REQUEST, Text("please register"));
      }
      out := Outcome(OK, CardList(CardsBy(cards, claims.value.email)));
    }

    /** GET /cards/:id: one card, for anyone (looked up as a single document). */
    method GetCard(id: CardId) returns (out: Outcome)
      ensures id !in cards ==> out == Outcome(NOT_FOUND, Text("card not found"))
      ensures id in cards ==> out == Outcome(OK, CardRecord(cards[id]))
    {
      if id !in cards {
        return Outcome(NOT_FOUND, Text("card not found"));
      }
      out := Outcome(OK, CardRecord(cards[id]));
    }

    /**
     * PUT /cards/:id: the card's creator writes the fields the body names.
     * Ownership is judged on the stored card against the caller's e-mail
     * (the source compares with `req.params.email`, which this route does
     * not have).
     */
    method EditCard(claims: Option<Claims>, id: CardId, body: CardPatch) returns (out: Outcome)
      requires Valid()
      modifies this
      ensures Valid()
      ensures users == old(users)
      ensures claims.None? ==> out == NoValidToken && cards == old(cards)
      ensures claims.Some? && id !in old(cards) ==>
                out == Outcome(NOT_FOUND, Text("card not found")) && cards == old(cards)
      ensures claims.Some? && id in old(cards) && !MayEditCard(claims.value, old(cards)[id]) ==>
                out == Denied && cards == old(cards)
      ensures claims.Some? && id in old(cards) && MayEditCard(claims.value, old(cards)[id]) ==>
                && cards == old(cards)[id := ApplyCardPatch(old(cards)[id], body)]
                && out == Outcome(CREATED, CardRecord(cards[id]))
    {
      if claims.None? {
        return NoValidToken;
      }
      // a single-document lookup: the source's Card.find yields an array
      if id !in cards {
        return Outcome(NOT_FOUND, Text("card not found"));
      }
      // the caller's e-mail: the source reads req.params.email
      if !MayEditCard(claims.value, cards[id]) {
        return Denied;
      }
      var card := ApplyCardPatch(cards[id], body);
      cards := cards[id := card];
      out := Outcome(CREATED, CardRecord(card));
    }

    /**
     * PATCH /cards/:id: the caller toggles their like. The likes array is
     * copied, changed with splice or push, and written back.
     */
    method ToggleLike(claims: Option<Claims>, id: CardId) returns (out: Outcome)
      requires Valid()
      modifies this
      ensures Valid()
      ensures users == old(users)
      ensures claims.None? ==> out == NoValidToken && cards == old(cards)
      ensures claims.Some? && claims.value.id !in users ==>
                out == Outcome(BAD_REQUEST, Text("please register or loggin")) && cards == old(cards)
      ensures claims.Some? && claims.value.id in users && id !in old(cards) ==>
                out == Outcome(NOT_FOUND, Text("card not found")) && cards == old(cards)
      ensures claims.Some? && claims.value.id in users && id in old(cards) ==>
                && cards == old(cards)[id := old(cards)[id].(likes := Toggle(old(cards)[id].likes, claims.value.id))]
                && out == Outcome(OK, CardRecord(cards[id]))
      ensures out.status == OK && NoDuplicates(old(cards)[id].likes) ==> NoDuplicates(cards[id].likes)
    {
      if claims.None? {
        return NoValidToken;
      }
      // awaited here: the source's un-awaited User.findById is always truthy
      if claims.value.id !in users {
        return Outcome(BAD_REQUEST, Text("please register or loggin"));
      }
      // a single-document lookup: the source's Card.find yields an array
      if id !in cards {
        return Outcome(NOT_FOUND, Text("card not found"));
      }
      var me := claims.value.id;
      var likes := cards[id].likes;
      if me in likes {
        // indexOf: the source calls it `indexof`
        likes := RemoveAt(likes, IndexOf(likes, me));
      } else {
        likes := likes + [me];
      }
      var card := cards[id].(likes := likes);
      if NoDuplicates(cards[id].likes) {
        ToggleKeepsNoDuplicates(cards[id].likes, me);
      }
      cards := cards[id := card];
      out := Outcome(OK, CardRecord(card));
    }

    /**
     * DELETE /cards/:id: the card's creator, who must also be an
     * administrator, removes it and receives the removed card.
     */
    method DeleteCard(claims: Option<Claims>, id: CardId) returns (out: Outcome)
      requires Valid()
      modifies this
      ensures Valid()
      ensures users == old(users)
      ensures claims.None? ==> out == NoValidToken && cards == old(cards)
      ensures claims.Some? && id !in old(cards) ==>
                out == Outcome(NOT_FOUND, Text("card not found")) && cards == old(cards)
      ensures claims.Some? && id in old(cards) && !MayDeleteCard(claims.value, old(cards)[id]) ==>
                out == Denied && cards == old(cards)
      ensures claims.Some? && id in old(cards) && MayDeleteCard(claims.value, old(cards)[id]) ==>
                cards == old(cards) - {id} && out == Outcome(OK, CardRecord(old(cards)[id]))
    {
      if claims.None? {
        return NoValidToken;
      }
      // a single-document lookup: the source's Card.find yields an array
      if id !in cards {
        return Outcome(NOT_FOUND, Text("card not found"));
      }
      if !MayDeleteCard(claims.value, cards[id]) {
        return Denied;
      }
      var card := cards[id];
      cards := cards - {id};
      out := Outcome(OK, CardRecord(card));
    }

    /**
     * PATCH /cards/:id/biznumber: an administrator gives the card a new
     * bizNumber that no card holds yet, the target card included.
     */
    method SetBizNumber(claims: Option<Claims>, id: CardId, bizNumber: string) returns (out: Outcome)
      requires Valid()
      modifies this
      ensures Valid()
      ensures users == old(users)
      ensures claims.None? ==> out == NoValidToken && cards == old(cards)
      ensures claims.Some? && !MaySetBizNumber(claims.value) ==> out == Denied && cards == old(cards)
      ensures claims.Some? && MaySetBizNumber(claims.value) && id !in old(cards) ==>
                out == Outcome(NOT_FOUND, Text("card not found")) && cards == old(cards)
      ensures claims.Some? && MaySetBizNumber(claims.value) && id in old(cards) && BizNumberTaken(old(cards), bizNumber) ==>
                out == Outcome(BAD_REQUEST, Text("bizNumber is taken")) && cards == old(cards)
      ensures claims.Some? && MaySetBizNumber(claims.value) && id in old(cards) && old(cards)[id].bizNumber == Some(bizNumber) ==>
                out.status == BAD_REQUEST
      ensures claims.Some? && MaySetBizNumber(claims.value) && id in old(cards) && !BizNumberTaken(old(cards), bizNumber) ==>
                && cards == old(cards)[id := old(cards)[id].(bizNumber := Some(bizNumber))]
                && out == Outcome(OK, CardRecord(cards[id]))
      ensures out.status == OK ==> forall k :: k in cards && cards[k].bizNumber == Some(bizNumber) ==> k == id
      ensures UniqueBizNumbers(old(cards)) ==> UniqueBizNumbers(cards)
    {
      if claims.None? {
        return NoValidToken;
      }
      if !MaySetBizNumber(claims.value) {
        return Denied;
      }
      // a single-document lookup: the source's Card.find yields an array
      if id !in cards {
        return Outcome(NOT_FOUND, Text("card not found"));
      }
      // non-empty result: the source tests the array itself, which is always truthy
      if BizNumberTaken(cards, bizNumber) {
        return Outcome(BAD_REQUEST, Text("bizNumber is taken"));
      }
      var card := cards[id].(bizNumber := Some(bizNumber));
      cards := cards[id := card];
      out := Outcome(OK, CardRecord(card));
    }
  }
}
