/**
 * Request bodies, their Joi validation (server/routes/r_users.js:13-22,
 * server/routes/r_cards.js:14-25), and the field-by-field merges that
 * `findOneAndUpdate(filter, req.body)` performs.
 */
module Requests {
  import opened Wrappers
  import opened Models

  /** Body of POST /users: exactly the keys the user schema admits. */
  datatype UserBody = UserBody(
    name: Doc,
    email: Email,
    password: string,
    isAdmin: bool,
    isBusiness: bool,
    address: Option<Doc>,
    phone: Option<string>,
    image: Option<Doc>)

  /** Body of POST /users/login. */
  datatype LoginBody = LoginBody(email: Email, password: string)

  /**
   * Body of POST /cards. `web` is the key the Joi schema admits (the card
   * model calls the field `website`), and `createdBy` stands for a client
   * trying to name the owner itself, a key the schema does not admit.
   */
  datatype CardBody = CardBody(
    title: string,
    subtitle: string,
    description: Option<string>,
    phone: Option<string>,
    email: Option<string>,
    web: Option<string>,
    image: Option<Doc>,
    address: Option<Doc>,
    bizNumber: Option<string>,
    likes: Option<seq<UserId>>,
    createdBy: Option<Email>)

  /** Joi's `string()` refuses the empty string. */
  predicate NonEmpty(field: Option<string>) {
    field.None? || field.value != ""
  }

  /**
   * userJoiSchema: required email and a password of at least two UTF-16 code
   * units, a phone of at least nine. The syntax of an e-mail address is not checked
   * beyond being a non-empty string.
   */
  predicate UserBodyValid(b: UserBody) {
    && b.email != ""
    && JsLength(b.password) >= 2
    && MinLength(b.phone, 9)
  }

  /**
   * cardJoiSchema: required non-empty title and subtitle, a phone of at least
   * nine UTF-16 code units, non-empty optional strings, and no key outside the
   * schema (which rules out a client-supplied `createdBy`).
   */
  predicate CardBodyValid(b: CardBody) {
    && b.title != ""
    && b.subtitle != ""
    && NonEmpty(b.description)
    && MinLength(b.phone, 9)
    && NonEmpty(b.email)
    && NonEmpty(b.web)
    && NonEmpty(b.bizNumber)
    && b.createdBy.None?
  }

  /**
   * Body of PUT /users/:id as Mongoose casts it into a `$set` update: any
   * subset of the user schema's fields, each written only when present.
   */
  datatype UserPatch = UserPatch(
    name: Option<Doc>,
    phone: Option<string>,
    email: Option<Email>,
    password: Option<string>,
    image: Option<Doc>,
    address: Option<Doc>,
    isAdmin: Option<bool>,
    isBusiness: Option<bool>,
    createdAt: Option<string>)

  /** Body of PUT /cards/:id, cast the same way against the card schema. */
  datatype CardPatch = CardPatch(
    title: Option<string>,
    subtitle: Option<string>,
    description: Option<string>,
    phone: Option<string>,
    email: Option<string>,
    website: Option<string>,
    image: Option<Doc>,
    address: Option<Doc>,
    bizNumber: Option<string>,
    likes: Option<seq<UserId>>,
    createdAt: Option<string>,
    createdBy: Option<Email>)

  /** A field written by a `$set` update: the new value if given, else the old one. */
  function Updated<T>(current: T, given: Option<T>): T {
    given.GetOr(current)
  }

  /** An optional field written by a `$set` update. */
  function UpdatedOpt<T>(current: Option<T>, given: Option<T>): Option<T> {
    if given.Some? then given else current
  }

  /**
   * The user after `findOneAndUpdate({_id}, body)`. No validator and no
   * hashing runs on this path, so a password in the body is stored as
   * plaintext.
   */
  function ApplyUserPatch(u: User, p: UserPatch): User {
    u.(name := Updated(u.name, p.name),
       phone := UpdatedOpt(u.phone, p.phone),
       email := Updated(u.email, p.email),
       password := if p.password.Some? then Plain(p.password.value) else u.password,
       image := UpdatedOpt(u.image, p.image),
       address := UpdatedOpt(u.address, p.address),
       isAdmin := Updated(u.isAdmin, p.isAdmin),
       isBusiness := Updated(u.isBusiness, p.isBusiness),
       createdAt := UpdatedOpt(u.createdAt, p.createdAt))
  }

  /** The card after `findOneAndUpdate({_id}, body)`; no validator runs. */
  function ApplyCardPatch(c: Card, p: CardPatch): Card {
    c.(title := Updated(c.title, p.title),
       subtitle := Updated(c.subtitle, p.subtitle),
       description := UpdatedOpt(c.description, p.description),
       phone := UpdatedOpt(c.phone, p.phone),
       email := UpdatedOpt(c.email, p.email),
       website := UpdatedOpt(c.website, p.website),
       image := UpdatedOpt(c.image, p.image),
       address := UpdatedOpt(c.address, p.address),
       bizNumber := UpdatedOpt(c.bizNumber, p.bizNumber),
       likes := Updated(c.likes, p.likes),
       createdAt := UpdatedOpt(c.createdAt, p.createdAt),
       createdBy := Updated(c.createdBy, p.createdBy))
  }

  /** The update that names no field. */
  const EmptyUserPatch := UserPatch(None, None, None, None, None, None, None, None, None)
  const EmptyCardPatch := CardPatch(None, None, None, None, None, None, None, None, None, None, None, None)

  /**
   * A user update keeps the document id, and changes exactly the fields the
   * body names: an empty body leaves the user as it was, and a field absent
   * from the body keeps its old value.
   */
  lemma UserPatchFrame(u: User, p: UserPatch)
    ensures ApplyUserPatch(u, p).id == u.id
    ensures ApplyUserPatch(u, EmptyUserPatch) == u
    ensures var v := ApplyUserPatch(u, p);
      && (p.name.None? ==> v.name == u.name)
      && (p.phone.None? ==> v.phone == u.phone)
      && (p.email.None? ==> v.email == u.email)
      && (p.password.None? ==> v.password == u.password)
      && (p.image.None? ==> v.image == u.image)
      && (p.address.None? ==> v.address == u.address)
      && (p.isAdmin.None? ==> v.isAdmin == u.isAdmin)
      && (p.isBusiness.None? ==> v.isBusiness == u.isBusiness)
      && (p.createdAt.None? ==> v.createdAt == u.createdAt)
    ensures var v := ApplyUserPatch(u, p);
      && (p.name.Some? ==> v.name == p.name.value)
      && (p.phone.Some? ==> v.phone == p.phone)
      && (p.email.Some? ==> v.email == p.email.value)
      && (p.password.Some? ==> v.password == Plain(p.password.value))
      && (p.image.Some? ==> v.image == p.image)
      && (p.address.Some? ==> v.address == p.address)
      && (p.isAdmin.Some? ==> v.isAdmin == p.isAdmin.value)
      && (p.isBusiness.Some? ==> v.isBusiness == p.isBusiness.value)
      && (p.createdAt.Some? ==> v.createdAt == p.createdAt)
  {
  }

  /**
   * Self-edit is not restricted to harmless fields: any user can raise their
   * own stored `isAdmin` flag, and a password written this way is stored
   * unhashed, so logging in with it fails afterwards.
   */
  lemma UserPatchEscalatesAndLocksOut(u: User, p: UserPatch, q: string)
    ensures p.isAdmin == Some(true) ==> ApplyUserPatch(u, p).isAdmin
    ensures p.password.Some? ==> !Verify(q, ApplyUserPatch(u, p).password)
  {
  }

  /**
   * A card update keeps the card's id; an empty body changes nothing, and a
   * body may rewrite the owner (`createdBy`), the `likes` and the `bizNumber`
   * without any of the checks the dedicated endpoints make.
   */
  lemma CardPatchFrame(c: Card, p: CardPatch)
    ensures ApplyCardPatch(c, p).id == c.id
    ensures ApplyCardPatch(c, EmptyCardPatch) == c
    ensures p.createdBy.None? ==> ApplyCardPatch(c, p).createdBy == c.createdBy
    ensures p.createdBy.Some? ==> ApplyCardPatch(c, p).createdBy == p.createdBy.value
    ensures p.likes.Some? ==> ApplyCardPatch(c, p).likes == p.likes.value
    ensures p.bizNumber.Some? ==> ApplyCardPatch(c, p).bizNumber == p.bizNumber
  {
  }
}
