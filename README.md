# Directory service: access rules and resource mutations

This project models the core of a small REST directory of user accounts and
business cards (an Express application over MongoDB). The core is how the two
routers decide who may do what and how each request changes the stored
documents. The routers are `server/routes/r_users.js`, mounted at `/api/users`,
and `server/routes/r_cards.js`, mounted at `/api/cards`.

The store is the class `Routes.Directory`. It holds two maps, `users` and
`cards`, keyed by document id. Its invariant `Valid()` says that every document
is stored under its own id and that no two users share an e-mail (the unique
index of `server/models/User.js`). Each route handler is a method of the class.
A method takes those of these inputs its route has:

- the claim set from the auth middleware (`Option<Claims>`, `None` when the
  token is missing or does not verify, which the middleware answers with 400),
  on every route behind `auth`. The two refusals differ in their payload: a
  missing header gets the text "no valid token" (server/middleware/auth.js:8),
  a token that fails verification gets the error object from the `catch`
  (auth.js:19-20). `None` stands for both and answers with the text;
- the path id, on the routes under `/:id`;
- the request body, on the routes that read one;
- the fresh id, salt and time a creation needs, which the source takes from
  the store, the random source and the clock.

`Register` and `Login` take no claim set; `ListUsers` and `ListCards` take
only what they check; `GetCard` takes only the path id.

Each method returns an `Outcome`: a status code (200, 201, 400, 401 or 404) and
a payload. It states the new contents of both maps in every branch. When a
request is refused, nothing changes.

The modules:

- `Models`: the user and card documents, the claim set, and the password
  digest. Schema validation runs on `save()`. String lengths are counted the
  way JavaScript's `length` counts them, in UTF-16 code units. The digest is
  keyed the way bcrypt keys its cipher: by the first 72 bytes of the
  password's UTF-8 encoding and a terminating zero, repeated cyclically.
- `Requests`: the request bodies and their Joi validation. Also the
  field-by-field merge that `findOneAndUpdate(filter, req.body)` performs.
- `Policy`: the access rules as predicates. Also the password-free projection
  `_.pick(user, [...])`.
- `Likes`: the like toggle (`includes`, then `splice(indexOf(id), 1)` or
  `push(id)`), with its lemmas.
- `Responses`: status codes and payloads.
- `Routes`: the directory class and its handlers.
- `AsWritten`: the defective lines modelled as written (see Findings).
- `Scenarios`: request sequences on a fresh directory. Their outcomes follow
  from the handlers' contracts alone.

Some lines cannot do what they evidently mean to, listed below. The handlers
model the intended behaviour, and a comment in `routes.dfy` marks each place:

- single-card lookups are written with `Card.find`, which returns an array;
- `User.findById` is not awaited;
- `indexof` is a typo for `indexOf`;
- edit compares the owner against `req.params.email`;
- `auth` is missing on POST /cards;
- `loginJoiSchema` is undefined.

The code also behaves in ways a reader might not expect. The model follows
the code:

- The bizNumber query does not exclude the target card. So reassigning a card
  its own current bizNumber is refused with 400, not accepted.
- A create-card body that carries `createdBy` is refused with 400, because the
  Joi schema admits no unknown key. It is not accepted and silently restamped.
  A clean body always gets `createdBy` from the claims.
- Card edit merges the whole body, so the owner can rewrite `createdBy`,
  `likes` and `bizNumber` this way.
- User edit (PUT) merges the whole body into the caller's own document. This
  includes `isAdmin` (self-promotion) and `password`, which is stored unhashed,
  so that user cannot log in with the password written. Login then answers
  404, or 400 when the stored value is 60 code units long and does not start
  with `$2`: bcryptjs's compare raises on it, and the handler's `catch`
  answers.
- Card creation copies `bizNumber` and `likes` from the body unchecked
  (server/routes/r_cards.js:23-24, :39). Two cards can be created with the same
  bizNumber, and a new card can start with one user's like repeated. So a
  unique bizNumber and likes without repeats are not invariants of the store.
  The bizNumber endpoint and the like toggle keep them only where they
  already hold.
- GET /cards/my-cards answers a registered caller who has no cards with 200
  and an empty list. The 404 "no cards found" at server/routes/r_cards.js:84
  is guarded by the truthiness of an array, which is never falsy.
- Registration takes `isAdmin` and `isBusiness` from the body.
- GET /users and DELETE /users/:id send whole documents, password digest
  included. The mandatory projection applies to get, put and patch of one user.

## Model

| member | source | states |
|---|---|---|
| `Models.JsLength` | server/routes/r_users.js:16 | a string's length in UTF-16 code units: between its number of characters and twice that, and equal to it when no character lies outside the Basic Multilingual Plane |
| `Models.Hash` | server/routes/r_users.js:43-44 | the stored digest verifies the hashed password, and another password exactly when that one yields the same 72-byte bcrypt key |
| `Models.Utf8Injective` | server/routes/r_users.js:75 | different passwords have different UTF-8 encodings |
| `Models.LongPasswordsCollide` | server/routes/r_users.js:75 | a password of at least 72 bytes verifies against the digest of itself with anything appended, and the other way round |
| `Models.ShortPasswordsExact` | server/routes/r_users.js:75 | for passwords up to 72 bytes without NUL characters, a digest verifies its own password and no other |
| `Requests.UserPatchFrame` | server/routes/r_users.js:148 | a user update keeps the id; an empty body changes nothing; each of the nine fields keeps its value when the body does not name it and takes the body's value when it does (a password as plaintext) |
| `Requests.UserPatchEscalatesAndLocksOut` | server/routes/r_users.js:148 | self-edit can set one's own `isAdmin`, and a password written through it verifies nothing afterwards |
| `Requests.CardPatchFrame` | server/routes/r_cards.js:129 | a card update keeps the id; an empty body changes nothing; an absent `createdBy` keeps the owner; the body may rewrite owner, likes and bizNumber |
| `Policy.DeleteStricterThanEdit` | server/routes/r_cards.js:181-182 | delete implies edit; an owner who is not admin may edit but not delete; an admin who is not owner may do neither |
| `Policy.AdminCannotEditOthers` | server/routes/r_users.js:116-145 | an admin may read or delete another account (self-or-admin) but not edit it (self only) |
| `Policy.ProjectionHidesPrivateFields` | server/routes/r_users.js:126-134 | the user view depends only on `_id`, `name`, `email`, `isAdmin`, `isBusiness`: the password never reaches it |
| `Policy.PutViewIgnoresPrivateFields` | server/routes/r_users.js:148-162 | the view PUT answers with does not depend on the password, phone, image, address or creation time the body writes |
| `Likes.IndexOf` | server/routes/r_cards.js:155 | the result is the first position of the element |
| `Likes.RemoveAt` | server/routes/r_cards.js:155 | `splice(i, 1)` drops exactly the element at `i`, keeping the order of the rest |
| `Likes.ToggleEffect` | server/routes/r_cards.js:154-158 | a present caller loses exactly one occurrence (the first); an absent caller is appended; other users' counts are unchanged |
| `Likes.ToggleTwiceRestores` | server/routes/r_cards.js:154-158 | from likes without the caller, two toggles restore them exactly |
| `Likes.ToggleKeepsAtMostOnce` | server/routes/r_cards.js:154-158 | a caller occurring at most once before occurs at most once after, and the count flips between 0 and 1 |
| `Likes.ToggleTwicePermutes` | server/routes/r_cards.js:154-158 | with the caller occurring at most once, two toggles restore the likes up to order |
| `Likes.ToggleKeepsNoDuplicates` | server/routes/r_cards.js:154-158 | likes without repeated ids keep that property under any toggle |
| `Likes.ToggleAllKeepsNoDuplicates` | server/routes/r_cards.js:140-169 | after any series of like requests, likes without repeated ids still have none |
| `Likes.ToggleAllParity` | server/routes/r_cards.js:140-169 | after any series of like requests, a user occurring at most once still does, and is present exactly when they were present before or toggled an odd number of times, but not both |
| `Likes.LikedIffOddToggles` | server/routes/r_cards.js:140-169 | a user who had not liked a card likes it after a series of requests exactly when they toggled an odd number of times |
| `Routes.CardsBy` | server/routes/r_cards.js:81 | exactly the stored cards whose `createdBy` is the given e-mail, unchanged |
| `Routes.OwnerComesFromClaims` | server/routes/r_cards.js:39-44 | a new card's owner is the caller's e-mail, and a body's `createdBy` has no effect on the document built |
| `Routes.NewUserPasswordHashed` | server/routes/r_users.js:36-47 | a new user stores a digest that verifies the registered password, and another one exactly when it yields the same bcrypt key; up to 72 bytes without NUL characters, only the registered password |
| `Routes.Directory.Register` | server/routes/r_users.js:25-61 | 400 and no change for an invalid body, a taken e-mail or a phone the schema refuses; otherwise exactly one user is added with the hashed password, and the token carries its id, e-mail and flags; user e-mails stay unique |
| `Routes.Directory.Login` | server/routes/r_users.js:64-90 | 404 for an unknown e-mail and for a wrong password; 400 when the comparison raises on a stored plaintext of 60 code units; otherwise the claims of the stored user |
| `Routes.Directory.ListUsers` | server/routes/r_users.js:93-110 | 401 unless the caller is admin; otherwise all users |
| `Routes.Directory.GetUser` | server/routes/r_users.js:113-138 | 401 unless self or admin, checked before the lookup; 404 for a missing id; otherwise the projected user |
| `Routes.Directory.PutUser` | server/routes/r_users.js:141-167 | 401 unless self (admin does not suffice); 404 for a missing id; 400 for an e-mail held by another user; otherwise only the target user changes, by the merge, and the projection is returned |
| `Routes.Directory.PatchUser` | server/routes/r_users.js:170-196 | 401 unless self; 404 for a missing id; otherwise only the target's `isBusiness` changes, every other field and user is unchanged, and the projection is returned |
| `Routes.Directory.DeleteUser` | server/routes/r_users.js:199-217 | 401 unless self or admin; 404 and no change for a missing id; otherwise exactly that key is removed and the removed record is returned |
| `Routes.Directory.CreateCard` | server/routes/r_cards.js:28-55 | 401 and no change unless the caller is a business; 400 and no change for a body or document the schemas refuse; otherwise exactly one card is added, owned by the caller's e-mail |
| `Routes.Directory.ListCards` | server/routes/r_cards.js:58-71 | every stored card, for anyone |
| `Routes.Directory.MyCards` | server/routes/r_cards.js:74-96 | 400 for a caller who is not a registered user; otherwise exactly the cards the caller created |
| `Routes.Directory.GetCard` | server/routes/r_cards.js:99-113 | 404 for a missing id; otherwise the stored card |
| `Routes.Directory.EditCard` | server/routes/r_cards.js:116-137 | 404 for a missing id; 401 and no change unless the stored card's owner is the caller; otherwise only that card changes, by the merge |
| `Routes.Directory.ToggleLike` | server/routes/r_cards.js:140-169 | 400 for an unregistered caller; 404 for a missing id; otherwise only the target card's `likes` changes, to the toggle of the caller's id; likes without duplicates stay so |
| `Routes.Directory.DeleteCard` | server/routes/r_cards.js:172-193 | 404 for a missing id; 401 and no change unless the caller is both owner and admin; otherwise exactly that card is removed and returned |
| `Routes.Directory.SetBizNumber` | server/routes/r_cards.js:196-221 | 401 unless admin; 404 for a missing id; 400 and no change when any card holds the number, the target included; otherwise only the target's bizNumber changes, the number is then held by the target alone, and unique bizNumbers stay unique |
| `AsWritten.EditCheckNeverDenies` | server/routes/r_cards.js:119-132 | as written, every authenticated caller passes the edit check |
| `AsWritten.DeleteCheckAlwaysDenies` | server/routes/r_cards.js:175-188 | as written, every delete is refused with 401 |
| `AsWritten.ToggleAlwaysFails` | server/routes/r_cards.js:147-164 | as written, every toggle fails with 400, and un-liking would fail even on a fetched document |
| `AsWritten.BizNumberAlwaysTaken` | server/routes/r_cards.js:199-215 | as written, every bizNumber counts as taken, even in an empty directory |
| `AsWritten.CreateAlwaysFails` | server/routes/r_cards.js:28-31 | as written, even a business account's create fails with 400; with the claims set by the middleware it would succeed |
| `AsWritten.LoginAlwaysFails` | server/routes/r_users.js:67 | as written, a correct login fails with 400 |
| `AsWritten.MyCardsAlwaysDenied` | server/routes/r_cards.js:77-91 | as written, every caller is refused their own cards with 401 |
| `AsWritten.MissingCardFound` | server/routes/r_cards.js:102-108 | as written, a missing card is answered with 200 and an empty array |

## Left out

- server/server.js is not part of this model. It holds Express setup, CORS,
  logging, the database connection and static files.
- The auth middleware is modelled only by its effect: an `Option<Claims>`, with
  `None` giving 400 before the handler runs. As written it calls `jwt.varify`,
  which does not exist, so every authenticated route would answer 400. That
  call and token signing are not modelled. A token is its claim set.
- bcrypt's cipher, cost factor and constant-time comparison are not modelled.
  The digest is symbolic: it verifies exactly the passwords that yield its
  key. Collisions of the cipher itself are not modelled. The salt is a
  parameter.
- `Requests.UserPatchEscalatesAndLocksOut`: a plaintext written through PUT
  is modelled as something that is not a digest, so it verifies no password.
  In the source, a written string that is itself a well-formed bcrypt digest
  of some `q` would let the user log in with `q`.
- Joi's e-mail syntax check is not modelled. An e-mail is any non-empty string.
- `Routes.Directory.Login`: the login body is not validated, because the schema
  it names (`loginJoiSchema`) does not exist.
- `Routes.Directory.Login`: for a stored plaintext of 60 code units that starts
  with `$2`, bcryptjs's further checks of the salt (revision, cost, salt
  characters) are not modelled. They may raise too, giving 400; the model
  answers 404.
- Mongoose internals are not modelled: ObjectId generation (fresh ids are
  parameters), casting errors for malformed ids, and the catch-all 400 for
  store failures. Two exceptions are modelled: save-time schema validation, and
  the unique index on users' e-mail.
- `Routes.Directory.CreateCard` / `Routes.Directory.EditCard`: the unique index
  on `Card.email` is not modelled. MongoDB's non-sparse unique index also
  collides on cards that lack an e-mail, which the source evidently did not
  design for.
- `Routes.Directory.PatchUser`: the body's `isBusiness` is taken as a boolean. A
  body without it is not modelled.
- `Routes.Directory.SetBizNumber`: the body's `bizNumber` is taken as a string.
  A missing one is not modelled: the query would then match every card. The
  empty `catch` at server/routes/r_cards.js:218 never answers, and is not
  modelled.
- `server/models/Card.js:15` declares `createdBy` with a bare `required`, an
  unbound identifier. Loading Card.js therefore throws a `ReferenceError`, so
  the `require` at server/routes/r_cards.js:5 fails, and with it the one at
  server/server.js:35: as written, the server does not start. The model reads
  the declaration as `required: true`, as evidently intended.
- Creation timestamps are a parameter.
- Concurrency is not modelled. The model serves one request at a time, so the
  read-then-write races on likes and bizNumber do not arise.
- List responses are maps. The order in which the store returns documents is
  not modelled.
- Claims are trusted as signed. A token's flags are not re-checked against the
  stored user, as in the source.

## Findings

| source | as written | input that shows it | evidently intended | confidence | as-written member | corrected member |
|---|---|---|---|---|---|---|
| server/routes/r_cards.js:119-125 | `Card.find` yields an array without `createdBy`, compared with the absent `req.params.email` | any caller editing a card they do not own, or a missing id | 404 for a missing card; 401 unless the stored card's owner is the caller | high, not executed | `AsWritten.EditCheckNeverDenies` | `Routes.Directory.EditCard` |
| server/routes/r_cards.js:175-182 | the owner is read from the array that `Card.find` yields | an admin deleting a card they created | owner-and-admin may delete | high, not executed | `AsWritten.DeleteCheckAlwaysDenies` | `Routes.Directory.DeleteCard` |
| server/routes/r_cards.js:147-155 | `likes` is read from the array, and `indexof` is called | any registered caller toggling an existing card | the like toggle | high, not executed | `AsWritten.ToggleAlwaysFails` | `Routes.Directory.ToggleLike` |
| server/routes/r_cards.js:208-209 | the query result, an array, is tested for truthiness | an admin setting a fresh number on an existing card | 400 only when some card holds the number | high, not executed | `AsWritten.BizNumberAlwaysTaken` | `Routes.Directory.SetBizNumber` |
| server/routes/r_cards.js:28-31 | the route has no `auth`, so `req.payload` is undefined | a business account posting a valid card | business-only creation behind the auth middleware | high, not executed | `AsWritten.CreateAlwaysFails` | `Routes.Directory.CreateCard` |
| server/routes/r_users.js:67 | `loginJoiSchema` is not defined | a registered e-mail with its password | lookup and password check | high, not executed | `AsWritten.LoginAlwaysFails` | `Routes.Directory.Login` |
| server/routes/r_cards.js:77-88 | `User.findById` not awaited; `card.createdBy` read from the array | any caller asking for their cards | 400 for an unregistered caller, else the caller's cards | high, not executed | `AsWritten.MyCardsAlwaysDenied` | `Routes.Directory.MyCards` |
| server/routes/r_cards.js:102-105 | the array that `Card.find` yields is always truthy | a card id that is not stored | 404 for a missing card | high, not executed | `AsWritten.MissingCardFound` | `Routes.Directory.GetCard` |
