/**
 * The two stored document kinds (server/models/User.js, server/models/Card.js),
 * the identity claim set carried by a token, and the password digest.
 */
module Models {
  import opened Wrappers

  /** Document ids are the store's ObjectId strings. */
  type UserId = string
  type CardId = string
  type Email = string

  /**
   * A JSON object value that the core never looks inside: a user's name,
   * an image, an address.
   */
  type Doc = string

  /** The bcrypt salt drawn from the random source. */
  type Salt = nat

  /** The number of UTF-16 code units in a character, which JavaScript's `length` counts. */
  function CodeUnits(c: char): nat {
    if c as int >= 0x10000 then 2 else 1
  }

  /**
   * A string's `length` in JavaScript, the measure Joi's `min` and Mongoose's
   * `minlength` compare: a character outside the Basic Multilingual Plane
   * counts twice.
   */
  function JsLength(s: string): (n: nat)
    ensures |s| <= n <= 2 * |s|
    ensures (forall i :: 0 <= i < |s| ==> s[i] as int < 0x10000) ==> n == |s|
  {
    if s == [] then 0 else CodeUnits(s[0]) + JsLength(s[1..])
  }

  /** The UTF-8 encoding of one character. */
  function Utf8Char(c: char): (b: seq<int>)
    ensures 1 <= |b| <= 4
    ensures forall i :: 0 <= i < |b| ==> 0 <= b[i] < 0x100
  {
    var n := c as int;
    var hi, lo := n / 0x1000, n % 0x1000;   // the bits above and below the last two six-bit groups
    if n < 0x80 then [n]
    else if n < 0x800 then [0xC0 + n / 0x40, 0x80 + n % 0x40]
    else if n < 0x10000 then [0xE0 + hi, 0x80 + lo / 0x40, 0x80 + lo % 0x40]
    else [0xF0 + hi / 0x40, 0x80 + hi % 0x40, 0x80 + lo / 0x40, 0x80 + lo % 0x40]
  }

  /** The UTF-8 encoding of a string, the bytes bcrypt works on. */
  function Utf8(s: string): (b: seq<int>)
    ensures |s| <= |b| <= 4 * |s|
  {
    if s == [] then [] else Utf8Char(s[0]) + Utf8(s[1..])
  }

  /** The number of bytes a UTF-8 sequence starting with `lead` occupies. */
  function Utf8Width(lead: int): nat {
    if lead < 0x80 then 1 else if lead < 0xE0 then 2 else if lead < 0xF0 then 3 else 4
  }

  /** The code point that the first `Utf8Width(b[0])` bytes of `b` encode. */
  function Utf8Decode(b: seq<int>): int
    requires 1 <= |b| && Utf8Width(b[0]) <= |b|
  {
    var w := Utf8Width(b[0]);
    if w == 1 then b[0]
    else if w == 2 then (b[0] - 0xC0) * 0x40 + (b[1] - 0x80)
    else if w == 3 then (b[0] - 0xE0) * 0x1000 + (b[1] - 0x80) * 0x40 + (b[2] - 0x80)
    else (b[0] - 0xF0) * 0x40000 + (b[1] - 0x80) * 0x1000 + (b[2] - 0x80) * 0x40 + (b[3] - 0x80)
  }

  /**
   * A character's encoding announces its own width in its first byte and
   * decodes back to the character; only the NUL character encodes to a zero
   * byte.
   */
  lemma Utf8CharRoundTrip(c: char)
    ensures Utf8Width(Utf8Char(c)[0]) == |Utf8Char(c)|
    ensures Utf8Decode(Utf8Char(c)) == c as int
    ensures 0 in Utf8Char(c) ==> c == '\0'
  {
    var n := c as int;
    var hi, lo := n / 0x1000, n % 0x1000;
    DivMod(n, 0x1000);
    DivMod(lo, 0x40);
    if n >= 0x10000 {
      DivMod(hi, 0x40);
    } else if n >= 0x80 {
      DivMod(n, 0x40);
    }
  }

  lemma DivMod(n: int, d: int)
    requires 0 <= n && 0 < d
    ensures n == (n / d) * d + n % d && 0 <= n % d < d
  {
  }

  /** Encoding distributes over concatenation. */
  lemma {:induction false} Utf8Append(s: string, t: string)
    ensures Utf8(s + t) == Utf8(s) + Utf8(t)
    decreases |s|
  {
    if s == [] {
      assert s + t == t;
    } else {
      assert (s + t)[0] == s[0];
      assert (s + t)[1..] == s[1..] + t;
      Utf8Append(s[1..], t);
    }
  }

  /** Different strings have different encodings. */
  lemma {:induction false} Utf8Injective(s: string, t: string)
    requires Utf8(s) == Utf8(t)
    ensures s == t
    decreases |s|
  {
    if s != [] && t != [] {
      var a, b := Utf8Char(s[0]), Utf8Char(t[0]);
      Utf8CharRoundTrip(s[0]);
      Utf8CharRoundTrip(t[0]);
      assert a[0] == Utf8(s)[0] == Utf8(t)[0] == b[0];
      assert a == Utf8(s)[..|a|] == Utf8(t)[..|b|] == b;
      assert Utf8(s[1..]) == Utf8(s)[|a|..] == Utf8(t)[|b|..] == Utf8(t[1..]);
      Utf8Injective(s[1..], t[1..]);
    }
  }

  /** The encoding of a string without NUL characters has no zero byte. */
  lemma {:induction false} Utf8NoZero(s: string)
    requires '\0' !in s
    ensures 0 !in Utf8(s)
    decreases |s|
  {
    if s != [] {
      Utf8CharRoundTrip(s[0]);
      assert '\0' !in s[1..] by {
        assert forall i :: 0 <= i < |s[1..]| ==> s[1..][i] == s[i + 1];
      }
      Utf8NoZero(s[1..]);
    }
  }

  /** The number of key bytes bcrypt's key schedule draws from a password. */
  const KeyBytes: nat := 72

  /**
   * The bytes bcrypt keys its cipher with: the password's UTF-8 encoding with
   * a terminating zero byte (the `2a` variant that bcryptjs's salts name),
   * repeated cyclically and cut at 72 bytes. Only these bytes enter the
   * digest, so two passwords with the same key verify each other.
   */
  function BcryptKey(p: string): (k: seq<int>)
    ensures |k| == KeyBytes
  {
    var b := Utf8(p) + [0];
    seq(KeyBytes, i requires 0 <= i < KeyBytes => b[i % |b|])
  }

  /**
   * What the `password` field of a user holds. Registration stores a digest;
   * an edit through PUT /users/:id writes the request's plaintext as it is.
   * The digest is symbolic: it records its salt and the password it was made
   * from, and only `Verify` looks inside it, through the cipher key.
   */
  datatype StoredPassword = Hashed(salt: Salt, preimage: string) | Plain(text: string)

  /** bcrypt.compare: true exactly when `p` yields the key the digest was made with. */
  predicate Verify(p: string, stored: StoredPassword) {
    stored.Hashed? && BcryptKey(p) == BcryptKey(stored.preimage)
  }

  /** The digest length bcryptjs's compare insists on. */
  const DigestLength: nat := 60

  /**
   * bcrypt.compare raises instead of answering: it answers false for a stored
   * value whose length is not 60, but a 60-unit value that is not a digest
   * fails its salt check ("Invalid salt version") unless it starts with `$2`.
   */
  predicate CompareRaises(stored: StoredPassword) {
    && stored.Plain?
    && JsLength(stored.text) == DigestLength
    && !(|stored.text| >= 2 && stored.text[0] == '$' && stored.text[1] == '2')
  }

  /**
   * bcrypt.hash(p, salt): a digest that verifies `p`, and any other password
   * exactly when that one yields the same cipher key.
   */
  function Hash(salt: Salt, p: string): (h: StoredPassword)
    ensures h.Hashed? && h.salt == salt
    ensures Verify(p, h)
    ensures forall q :: Verify(q, h) <==> BcryptKey(q) == BcryptKey(p)
  {
    Hashed(salt, p)
  }

  /** Below the length of the encoding plus its terminator, the key is that sequence itself. */
  lemma KeyAt(p: string, i: int)
    requires 0 <= i < KeyBytes && i <= |Utf8(p)|
    ensures BcryptKey(p)[i] == (Utf8(p) + [0])[i]
  {
    SmallMod(i, |Utf8(p)| + 1);
  }

  lemma SmallMod(i: int, n: int)
    requires 0 <= i < n
    ensures i % n == i
  {
  }

  /**
   * Past 72 bytes of UTF-8 nothing counts: a digest of a long password also
   * verifies that password with anything appended, and the password with
   * anything appended hashes to a digest the original verifies.
   */
  lemma LongPasswordsCollide(salt: Salt, p: string, x: string)
    requires |Utf8(p)| >= KeyBytes
    ensures Verify(p + x, Hash(salt, p))
    ensures Verify(p, Hash(salt, p + x))
  {
    Utf8Append(p, x);
    forall i | 0 <= i < KeyBytes
      ensures BcryptKey(p + x)[i] == BcryptKey(p)[i]
    {
      KeyAt(p, i);
      KeyAt(p + x, i);
    }
  }

  /**
   * For a password up to 72 bytes of UTF-8 without NUL characters, the key
   * starts with the encoding, and its first zero byte, if any, marks where the
   * encoding ends (later ones come from the repetition).
   */
  lemma KeyShape(p: string)
    requires |Utf8(p)| <= KeyBytes && '\0' !in p
    ensures forall i :: 0 <= i < |Utf8(p)| ==> BcryptKey(p)[i] == Utf8(p)[i]
    ensures forall i :: 0 <= i < KeyBytes && i <= |Utf8(p)| ==> (BcryptKey(p)[i] == 0 <==> i == |Utf8(p)|)
  {
    Utf8NoZero(p);
    forall i | 0 <= i < KeyBytes && i <= |Utf8(p)|
      ensures BcryptKey(p)[i] == (Utf8(p) + [0])[i]
    {
      KeyAt(p, i);
    }
  }

  /**
   * Up to 72 bytes of UTF-8 and without NUL characters, a digest verifies
   * its own password and no other: the terminating zero byte marks where the
   * password ends within the key.
   */
  lemma ShortPasswordsExact(salt: Salt, p: string, q: string)
    requires |Utf8(p)| <= KeyBytes && |Utf8(q)| <= KeyBytes
    requires '\0' !in p && '\0' !in q
    ensures Verify(q, Hash(salt, p)) <==> q == p
  {
    if BcryptKey(q) == BcryptKey(p) {
      SameKeySameEncoding(p, q);
      Utf8Injective(q, p);
    }
  }

  lemma SameKeySameEncoding(p: string, q: string)
    requires |Utf8(p)| <= KeyBytes && |Utf8(q)| <= KeyBytes
    requires '\0' !in p && '\0' !in q
    requires BcryptKey(p) == BcryptKey(q)
    ensures Utf8(p) == Utf8(q)
  {
    var k := BcryptKey(p);
    var lp, lq := |Utf8(p)|, |Utf8(q)|;
    KeyShape(p);
    KeyShape(q);
    var m := if lp < lq then lp else lq;
    assert m == lp || m == lq;
    assert m < KeyBytes ==> k[m] == 0;
    assert lp == lq;
    assert forall i :: 0 <= i < lp ==> Utf8(p)[i] == k[i] == Utf8(q)[i];
  }

  /** A user document, with the fields of server/models/User.js. */
  datatype User = User(
    id: UserId,
    name: Doc,
    phone: Option<string>,
    email: Email,
    password: StoredPassword,
    image: Option<Doc>,
    address: Option<Doc>,
    isAdmin: bool,
    isBusiness: bool,
    createdAt: Option<string>)

  /** A card document, with the fields of server/models/Card.js. */
  datatype Card = Card(
    id: CardId,
    title: string,
    subtitle: string,
    description: Option<string>,
    phone: Option<string>,
    email: Option<string>,
    website: Option<string>,
    image: Option<Doc>,
    address: Option<Doc>,
    bizNumber: Option<string>,
    likes: seq<UserId>,
    createdAt: Option<string>,
    createdBy: Email)

  /**
   * The claim set signed into a token at registration and login and handed to
   * every authenticated handler by the auth middleware.
   */
  datatype Claims = Claims(id: UserId, email: Email, isAdmin: bool, isBusiness: bool)

  /** The claim set minted for a stored user at registration and login. */
  function ClaimsOf(u: User): Claims {
    Claims(u.id, u.email, u.isAdmin, u.isBusiness)
  }

  /** An optional string field, when present, is at least `n` UTF-16 code units long. */
  predicate MinLength(field: Option<string>, n: nat) {
    field.None? || JsLength(field.value) >= n
  }

  /** The document-level validators Mongoose runs on `save()` for a user. */
  predicate UserSchemaValid(u: User) {
    MinLength(u.phone, 10)
  }

  /**
   * The document-level validators Mongoose runs on `save()` for a card:
   * required strings are non-empty, and the `minlength` bounds hold.
   */
  predicate CardSchemaValid(c: Card) {
    && c.title != ""
    && c.subtitle != ""
    && c.createdBy != ""
    && MinLength(c.description, 2)
    && MinLength(c.phone, 10)
    && MinLength(c.website, 2)
  }
}
