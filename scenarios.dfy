/**
 * Request sequences against a fresh directory, and what the handlers'
 * contracts alone let a caller conclude about them.
 */
module Scenarios {
  import opened Wrappers
  import opened Models
  import opened Requests
  import opened Policy
  import opened Likes
  import opened Responses
  import opened Routes

  function Account(email: Email, password: string, isAdmin: bool, isBusiness: bool): UserBody {
    UserBody("{}", email, password, isAdmin, isBusiness, None, None, None)
  }

  function SimpleCard(title: string, subtitle: string, bizNumber: Option<string>): CardBody {
    CardBody(title, subtitle, None, None, None, None, None, None, bizNumber, None, None)
  }

  /**
   * A registered user logs in with their password and gets the claims they
   * registered with; a password differing in one letter is refused.
   */
  method RegisterThenLogin() {
    var d := new Directory();
    var reg := d.Register(Account("a@x.com", "secret", false, true), "u1", 7, "t0");
    assert reg == Outcome(CREATED, Token(Claims("u1", "a@x.com", false, true)));
    var again := d.Register(Account("a@x.com", "other", true, true), "u2", 8, "t1");
    assert again == Outcome(BAD_REQUEST, Text("user already exists"));
    assert d.users == map["u1" := NewUser("u1", Account("a@x.com", "secret", false, true), 7, "t0")];
    assert d.users["u1"].password == Hash(7, "secret") && !CompareRaises(d.users["u1"].password);
    ShortPasswordsExact(7, "secret", "secret");
    ShortPasswordsExact(7, "secret", "secreT");
    var ok := d.Login(LoginBody("a@x.com", "secret"));
    assert ok == Outcome(OK, Token(Claims("u1", "a@x.com", false, true)));
    var bad := d.Login(LoginBody("a@x.com", "secreT"));
    assert bad.status == NOT_FOUND;
  }

  /**
   * Only the first 72 bytes of a password count: registered with 72 letters
   * and an `x`, a user also logs in with the same 72 letters and a `y`.
   */
  method LongPasswordTail() {
    var d := new Directory();
    var p := seq(72, _ => 'a');
    var reg := d.Register(Account("a@x.com", p + "x", false, false), "u1", 7, "t0");
    assert reg.status == CREATED;
    LongPasswordsCollide(7, p, "x");
    LongPasswordsCollide(7, p, "y");
    var ok := d.Login(LoginBody("a@x.com", p + "y"));
    assert ok == Outcome(OK, Token(Claims("u1", "a@x.com", false, false)));
  }

  /**
   * Lengths are JavaScript's: a password of one character outside the Basic
   * Multilingual Plane is two code units long, long enough to register.
   */
  method AstralPassword() {
    var d := new Directory();
    var reg := d.Register(Account("a@x.com", "\U{1F600}", false, false), "u1", 7, "t0");
    assert reg.status == CREATED;
  }

  /**
   * A password written by an edit is stored as it is. Logging in with it
   * fails with 404 for most values; a 60-character value that does not start
   * like a digest makes the comparison raise, and the answer is 400.
   */
  method PlaintextAfterEdit() {
    var d := new Directory();
    var reg := d.Register(Account("a@x.com", "secret", false, false), "u1", 7, "t0");
    var me := Claims("u1", "a@x.com", false, false);
    var x60 := seq(60, _ => 'x');
    var put := d.PutUser(Some(me), "u1", EmptyUserPatch.(password := Some(x60)));
    assert put.status == CREATED && d.users["u1"].password == Plain(x60);
    var raised := d.Login(LoginBody("a@x.com", x60));
    assert raised == Rejected;
    var put2 := d.PutUser(Some(me), "u1", EmptyUserPatch.(password := Some("short")));
    var refused := d.Login(LoginBody("a@x.com", "short"));
    assert refused == Outcome(NOT_FOUND, Text("wrong email or pasword"));
  }

  /**
   * Creation takes `bizNumber` and `likes` from the body unchecked: two cards
   * can be created with the same number, and a new card can start with a
   * repeated like.
   */
  method DuplicatesOnCreate() {
    var d := new Directory();
    var a := Claims("u1", "a@x.com", false, true);
    var x := d.CreateCard(Some(a), SimpleCard("X", "S", Some("111")), "x", "t0");
    var y := d.CreateCard(Some(a), SimpleCard("Y", "S", Some("111")).(likes := Some(["u9", "u9"])), "y", "t0");
    assert x.status == OK && y.status == OK;
    assert d.cards["x"].bizNumber == d.cards["y"].bizNumber == Some("111");
    assert d.cards["y"].likes == ["u9", "u9"];
  }

  /**
   * A business account cannot name another owner: the body that tries is
   * refused, and the card made from a clean body belongs to the caller.
   * Another user cannot edit it, and its owner, not being an administrator,
   * cannot delete it.
   */
  method OwnershipComesFromTheToken() {
    var d := new Directory();
    var a := Claims("u1", "a@x.com", false, true);
    var b := Claims("u2", "b@x.com", false, false);
    var forged := SimpleCard("C", "S", None).(createdBy := Some("forged@evil.com"));
    var refused := d.CreateCard(Some(a), forged, "c1", "t0");
    assert refused == Rejected && d.cards == map[];
    var made := d.CreateCard(Some(a), SimpleCard("C", "S", None), "c1", "t0");
    assert made.status == OK && d.cards["c1"].createdBy == "a@x.com";
    var edit := d.EditCard(Some(b), "c1", EmptyCardPatch.(title := Some("mine now")));
    assert edit == Denied && d.cards["c1"].title == "C";
    var del := d.DeleteCard(Some(a), "c1");
    assert del == Denied && "c1" in d.cards;
  }

  /** A registered user who likes a card twice leaves its likes as they were. */
  method LikeTwice() {
    var d := new Directory();
    var reg := d.Register(Account("a@x.com", "secret", false, true), "u1", 7, "t0");
    var a := Claims("u1", "a@x.com", false, true);
    var made := d.CreateCard(Some(a), SimpleCard("C", "S", None), "c1", "t0");
    var before := d.cards["c1"].likes;
    assert "u1" !in before;
    var first := d.ToggleLike(Some(a), "c1");
    var second := d.ToggleLike(Some(a), "c1");
    ToggleTwiceRestores(before, "u1");
    assert d.cards["c1"].likes == before;
  }

  /** An administrator cannot give a card a bizNumber that another card holds; the card keeps its own. */
  method BizNumberConflict() {
    var d := new Directory();
    var a := Claims("u1", "a@x.com", true, true);
    var x := d.CreateCard(Some(a), SimpleCard("X", "S", Some("111")), "x", "t0");
    var y := d.CreateCard(Some(a), SimpleCard("Y", "S", Some("222")), "y", "t0");
    var clash := d.SetBizNumber(Some(a), "x", "222");
    assert clash.status == BAD_REQUEST && d.cards["x"].bizNumber == Some("111");
    var moved := d.SetBizNumber(Some(a), "x", "333");
    assert moved.status == OK && d.cards["x"].bizNumber == Some("333");
  }
}
