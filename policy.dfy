/**
 * The per-endpoint access rules of server/routes/r_users.js and
 * server/routes/r_cards.js, and the password-free view of a user that the
 * single-user endpoints send back. Every rule reads only the verified claim
 * set and, for cards, the stored document as fetched, never the request body.
 */
module Policy {
  import opened Wrappers
  import opened Models
  import opened Requests

  /** GET /users: administrators only. */
  predicate MayListUsers(c: Claims) {
    c.isAdmin
  }

  /** The caller is the user the path names. */
  predicate IsSelf(c: Claims, id: UserId) {
    c.id == id
  }

  /** GET and DELETE /users/:id: the user themself or an administrator. */
  predicate SelfOrAdmin(c: Claims, id: UserId) {
    IsSelf(c, id) || c.isAdmin
  }

  /** PUT and PATCH /users/:id: the user themself; being an administrator does not suffice. */
  predicate MayEditUser(c: Claims, id: UserId) {
    IsSelf(c, id)
  }

  /** POST /cards: business accounts only. */
  predicate MayCreateCard(c: Claims) {
    c.isBusiness
  }

  /** The caller created the stored card. */
  predicate IsOwner(c: Claims, card: Card) {
    card.createdBy == c.email
  }

  /** PUT /cards/:id: the card's creator. */
  predicate MayEditCard(c: Claims, card: Card) {
    IsOwner(c, card)
  }

  /** DELETE /cards/:id: the card's creator, and only when that creator is an administrator. */
  predicate MayDeleteCard(c: Claims, card: Card) {
    IsOwner(c, card) && c.isAdmin
  }

  /** PATCH /cards/:id/biznumber: administrators only. */
  predicate MaySetBizNumber(c: Claims) {
    c.isAdmin
  }

  /**
   * Deleting a card is strictly harder than editing it: whoever may delete
   * may edit; an owner who is not an administrator may edit but not delete;
   * an administrator who is not the owner may do neither.
   */
  lemma DeleteStricterThanEdit(c: Claims, card: Card)
    ensures MayDeleteCard(c, card) ==> MayEditCard(c, card)
    ensures IsOwner(c, card) && !c.isAdmin ==> MayEditCard(c, card) && !MayDeleteCard(c, card)
    ensures c.isAdmin && !IsOwner(c, card) ==> !MayEditCard(c, card) && !MayDeleteCard(c, card)
  {
  }

  /**
   * Administrator rights open reading and deleting another user's account,
   * but never editing it.
   */
  lemma AdminCannotEditOthers(c: Claims, id: UserId)
    requires c.isAdmin && c.id != id
    ensures SelfOrAdmin(c, id) && !MayEditUser(c, id)
  {
  }

  /** What `_.pick(user, ["_id", "name", "email", "isAdmin", "isBusiness"])` leaves. */
  datatype PublicUser = PublicUser(id: UserId, name: Doc, email: Email, isAdmin: bool, isBusiness: bool)

  /** The view sent for a single user, whoever asks. */
  function Project(u: User): PublicUser {
    PublicUser(u.id, u.name, u.email, u.isAdmin, u.isBusiness)
  }

  /**
   * The view depends on the five public fields alone: two users that agree on
   * them, however their passwords, phones, images, addresses and creation
   * times differ, have the same view. In particular nothing of the stored
   * password reaches the response.
   */
  lemma ProjectionHidesPrivateFields(u: User, w: User)
    requires u.id == w.id && u.name == w.name && u.email == w.email
    requires u.isAdmin == w.isAdmin && u.isBusiness == w.isBusiness
    ensures Project(u) == Project(w)
  {
  }

  /**
   * The view PUT /users/:id answers with, taken of the updated document, does
   * not depend on the password, phone, image, address or creation time the
   * body writes: a password sent in an edit is never echoed back.
   */
  lemma PutViewIgnoresPrivateFields(u: User, p: UserPatch)
    ensures Project(ApplyUserPatch(u, p))
         == Project(ApplyUserPatch(u, p.(password := None, phone := None, image := None, address := None, createdAt := None)))
  {
    var q := p.(password := None, phone := None, image := None, address := None, createdAt := None);
    ProjectionHidesPrivateFields(ApplyUserPatch(u, p), ApplyUserPatch(u, q));
  }
}
