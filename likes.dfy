/**
 * The like toggle of PATCH /cards/:id: if the caller's id is in the card's
 * `likes` array, `splice(indexOf(id), 1)` removes its first occurrence,
 * otherwise `push(id)` appends it.
 */
module Likes {
  import opened Models

  /** How many times `x` occurs in `s`. */
  function Count(s: seq<UserId>, x: UserId): nat {
    multiset(s)[x]
  }

  /** Array.prototype.indexOf for an element known to be present: its first position. */
  function IndexOf(s: seq<UserId>, x: UserId): (i: nat)
    requires x in s
    ensures i < |s| && s[i] == x
    ensures forall j :: 0 <= j < i ==> s[j] != x
  {
    if s[0] == x then 0 else 1 + IndexOf(s[1..], x)
  }

  /** Array.prototype.splice(i, 1): the sequence without its element at `i`. */
  function RemoveAt(s: seq<UserId>, i: nat): (r: seq<UserId>)
    requires i < |s|
    ensures |r| == |s| - 1
    ensures forall j :: 0 <= j < i ==> r[j] == s[j]
    ensures forall j :: i <= j < |r| ==> r[j] == s[j + 1]
    ensures multiset(r) == multiset(s) - multiset{s[i]}
  {
    assert s == s[..i] + [s[i]] + s[i + 1..];
    s[..i] + s[i + 1..]
  }

  /** The new `likes` after user `u` toggles their like. */
  function Toggle(likes: seq<UserId>, u: UserId): seq<UserId> {
    if u in likes then RemoveAt(likes, IndexOf(likes, u)) else likes + [u]
  }

  /**
   * A toggle by a user already present removes exactly one occurrence of that
   * user (the first) and keeps the order of the rest; a toggle by a user not
   * present appends them at the end. No other user's likes change.
   */
  lemma {:induction false} ToggleEffect(likes: seq<UserId>, u: UserId)
    ensures u in likes ==> multiset(Toggle(likes, u)) == multiset(likes) - multiset{u}
    ensures u in likes ==> exists i :: 0 <= i < |likes| && likes[i] == u && u !in likes[..i]
                                      && Toggle(likes, u) == likes[..i] + likes[i + 1..]
    ensures u !in likes ==> Toggle(likes, u) == likes + [u]
    ensures forall v :: v != u ==> Count(Toggle(likes, u), v) == Count(likes, v)
  {
    if u in likes {
      var i := IndexOf(likes, u);
      var r := Toggle(likes, u);
      assert r == likes[..i] + likes[i + 1..];
      assert u !in likes[..i] by {
        forall j | 0 <= j < i ensures likes[..i][j] != u { }
      }
    } else {
      assert multiset(likes + [u]) == multiset(likes) + multiset{u};
    }
  }

  /** Starting from likes that do not hold `u`, two toggles by `u` restore them exactly. */
  lemma {:induction false} ToggleTwiceRestores(likes: seq<UserId>, u: UserId)
    requires u !in likes
    ensures Toggle(Toggle(likes, u), u) == likes
  {
    var t := likes + [u];
    assert Toggle(likes, u) == t;
    assert u in t by { assert t[|likes|] == u; }
    var i := IndexOf(t, u);
    assert i == |likes|;
    assert RemoveAt(t, i) == likes;
  }

  /** A user who occurs at most once before a toggle occurs at most once after it. */
  lemma {:induction false} ToggleKeepsAtMostOnce(likes: seq<UserId>, u: UserId)
    requires Count(likes, u) <= 1
    ensures Count(Toggle(likes, u), u) <= 1
    ensures Count(Toggle(likes, u), u) == 1 - Count(likes, u)
  {
    ToggleEffect(likes, u);
    if u !in likes {
      assert multiset(likes + [u]) == multiset(likes) + multiset{u};
    }
  }

  /**
   * When `u` occurs at most once, toggling twice gives back the same likes up
   * to order: a like removed and added again moves to the end.
   */
  lemma {:induction false} ToggleTwicePermutes(likes: seq<UserId>, u: UserId)
    requires Count(likes, u) <= 1
    ensures multiset(Toggle(Toggle(likes, u), u)) == multiset(likes)
  {
    if u in likes {
      ToggleEffect(likes, u);
      var t := Toggle(likes, u);
      assert Count(t, u) == 0;
      assert u !in t;
      ToggleEffect(t, u);
      assert multiset(t + [u]) == multiset(t) + multiset{u};
    } else {
      ToggleTwiceRestores(likes, u);
    }
  }

  /** Every id occurs at most once. */
  predicate NoDuplicates(s: seq<UserId>) {
    forall i, j :: 0 <= i < j < |s| ==> s[i] != s[j]
  }

  /** Likes without repeated ids stay without repeated ids, whoever toggles. */
  lemma {:induction false} ToggleKeepsNoDuplicates(likes: seq<UserId>, u: UserId)
    requires NoDuplicates(likes)
    ensures NoDuplicates(Toggle(likes, u))
  {
    if u in likes {
      var i := IndexOf(likes, u);
      var r := RemoveAt(likes, i);
      forall a, b | 0 <= a < b < |r| ensures r[a] != r[b] {
        var a' := if a < i then a else a + 1;
        var b' := if b < i then b else b + 1;
        assert r[a] == likes[a'] && r[b] == likes[b'];
      }
    } else {
      var r := likes + [u];
      forall a, b | 0 <= a < b < |r| ensures r[a] != r[b] {
        if b == |likes| {
          assert r[a] == likes[a];
        }
      }
    }
  }

  /** The likes after the users in `requests` toggle one after another, as successive PATCH requests do. */
  function ToggleAll(likes: seq<UserId>, requests: seq<UserId>): seq<UserId>
    decreases |requests|
  {
    if requests == [] then likes else ToggleAll(Toggle(likes, requests[0]), requests[1..])
  }

  /** However many toggles follow one another, likes without repeated ids keep none. */
  lemma {:induction false} ToggleAllKeepsNoDuplicates(likes: seq<UserId>, requests: seq<UserId>)
    requires NoDuplicates(likes)
    ensures NoDuplicates(ToggleAll(likes, requests))
    decreases |requests|
  {
    if requests != [] {
      ToggleKeepsNoDuplicates(likes, requests[0]);
      ToggleAllKeepsNoDuplicates(Toggle(likes, requests[0]), requests[1..]);
    }
  }

  /** One toggle by `v` changes the count of `u` exactly when `v` is `u`. */
  lemma ToggleCountStep(likes: seq<UserId>, v: UserId, u: UserId)
    requires Count(likes, u) <= 1
    ensures Count(Toggle(likes, v), u) == if v == u then 1 - Count(likes, u) else Count(likes, u)
  {
    if v == u {
      ToggleKeepsAtMostOnce(likes, u);
    } else {
      ToggleEffect(likes, v);
    }
  }

  /** Counting in a non-empty sequence splits off its first element. */
  lemma CountFirst(s: seq<UserId>, u: UserId)
    requires s != []
    ensures Count(s, u) == (if s[0] == u then 1 else 0) + Count(s[1..], u)
  {
    assert s == [s[0]] + s[1..];
    assert multiset(s) == multiset{s[0]} + multiset(s[1..]);
  }

  /** `u` occurs an odd number of times in `requests`. */
  predicate OddToggles(requests: seq<UserId>, u: UserId)
    decreases |requests|
  {
    requests != [] && ((requests[0] == u) != OddToggles(requests[1..], u))
  }

  /** `OddToggles` is the parity of the count. */
  lemma {:induction false} OddTogglesIsParity(requests: seq<UserId>, u: UserId)
    ensures OddToggles(requests, u) <==> Count(requests, u) % 2 == 1
    decreases |requests|
  {
    if requests != [] {
      CountFirst(requests, u);
      OddTogglesIsParity(requests[1..], u);
    }
  }

  /**
   * After a series of toggles, a user who occurred at most once still occurs
   * at most once, and has liked the card exactly when they had liked it
   * before or toggled an odd number of times, but not both. What the other
   * users did does not matter.
   */
  lemma {:induction false} ToggleAllParity(likes: seq<UserId>, requests: seq<UserId>, u: UserId)
    requires Count(likes, u) <= 1
    ensures Count(ToggleAll(likes, requests), u) <= 1
    ensures u in ToggleAll(likes, requests) <==> (u in likes) != OddToggles(requests, u)
    decreases |requests|
  {
    if requests != [] {
      var v, rest := requests[0], requests[1..];
      var next := Toggle(likes, v);
      assert ToggleAll(likes, requests) == ToggleAll(next, rest);
      ToggleCountStep(likes, v, u);
      assert (u in next) == ((u in likes) != (v == u));
      ToggleAllParity(next, rest, u);
    }
  }

  /** A user who had not liked the card likes it after a series of toggles exactly when they toggled an odd number of times. */
  lemma {:induction false} LikedIffOddToggles(likes: seq<UserId>, requests: seq<UserId>, u: UserId)
    requires u !in likes
    ensures u in ToggleAll(likes, requests) <==> Count(requests, u) % 2 == 1
  {
    ToggleAllParity(likes, requests, u);
    OddTogglesIsParity(requests, u);
  }
}
