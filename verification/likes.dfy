/** The like list of an outfit and the toggle that POST
    /outfits/:outfitId/like performs on it: look the user up with
    `indexOf`, then `push` them or `splice` that one occurrence out. */
module Likes {
  import opened Base

  /** Every user appears at most once. */
  predicate NoDup(s: seq<Id>)
  {
    forall i, j :: 0 <= i < j < |s| ==> s[i] != s[j]
  }

  /** `Array.prototype.indexOf`: the first position of `x`, or -1. */
  function IndexOf(s: seq<Id>, x: Id): (i: int)
    ensures -1 <= i < |s|
    ensures i == -1 <==> x !in s
    ensures 0 <= i ==> s[i] == x && x !in s[..i]
  {
    if s == [] then -1
    else if s[0] == x then 0
    else
      var j := IndexOf(s[1..], x);
      if j == -1 then -1
      else
        assert s[..j + 1] == [s[0]] + s[1..][..j];
        j + 1
  }

  /** `splice(i, 1)`: the sequence without its element at position `i`. */
  function RemoveAt(s: seq<Id>, i: nat): (r: seq<Id>)
    requires i < |s|
    ensures |r| == |s| - 1
    ensures forall k :: 0 <= k < i ==> r[k] == s[k]
    ensures forall k :: i <= k < |r| ==> r[k] == s[k + 1]
    ensures multiset(r) == multiset(s) - multiset{s[i]}
  {
    assert s == s[..i] + [s[i]] + s[i + 1..];
    s[..i] + s[i + 1..]
  }

  /** The like list after one toggle by user `u`. */
  function Toggled(likes: seq<Id>, u: Id): (r: seq<Id>)
    ensures u !in likes ==> r == likes + [u]
    ensures u in likes ==> multiset(r) == multiset(likes) - multiset{u}
    ensures |r| == if u in likes then |likes| - 1 else |likes| + 1
  {
    var i := IndexOf(likes, u);
    if i == -1 then likes + [u] else RemoveAt(likes, i)
  }

  /** A toggle adds the user exactly when they were absent, and no other
      user's membership changes. */
  lemma ToggledMembership(likes: seq<Id>, u: Id)
    requires NoDup(likes)
    ensures u in Toggled(likes, u) <==> u !in likes
    ensures forall v :: v != u ==> (v in Toggled(likes, u) <==> v in likes)
  {
    if u in likes {
      var i := IndexOf(likes, u);
      var r := RemoveAt(likes, i);
      assert Toggled(likes, u) == r;
      forall k | 0 <= k < |r|
        ensures r[k] != u
      {
        if k < i { assert r[k] == likes[k]; } else { assert r[k] == likes[k + 1]; }
      }
      forall v | v != u
        ensures v in r <==> v in likes
      {
        if v in likes {
          var k :| 0 <= k < |likes| && likes[k] == v;
          if k < i { assert r[k] == v; } else { assert r[k - 1] == v; }
        }
        if v in r {
          var k :| 0 <= k < |r| && r[k] == v;
          if k < i { assert likes[k] == v; } else { assert likes[k + 1] == v; }
        }
      }
    }
  }

  /** A toggle never introduces a duplicate like. */
  lemma ToggledKeepsNoDup(likes: seq<Id>, u: Id)
    requires NoDup(likes)
    ensures NoDup(Toggled(likes, u))
  {
    var r := Toggled(likes, u);
    if u in likes {
      var i := IndexOf(likes, u);
      assert r == RemoveAt(likes, i);
      forall a, b | 0 <= a < b < |r|
        ensures r[a] != r[b]
      {
        var a' := if a < i then a else a + 1;
        var b' := if b < i then b else b + 1;
        assert r[a] == likes[a'] && r[b] == likes[b'];
      }
    }
  }

  /** Liking then unliking restores the original list exactly. */
  lemma ToggleTwiceFromAbsent(likes: seq<Id>, u: Id)
    requires u !in likes
    ensures Toggled(Toggled(likes, u), u) == likes
  {
    var once := likes + [u];
    assert once[..|likes|] == likes;
  }

  /** Unliking then liking again restores the same users, but the user
      moves to the end of the list: only the order may differ. */
  lemma ToggleTwiceFromPresent(likes: seq<Id>, u: Id)
    requires NoDup(likes) && u in likes
    ensures multiset(Toggled(Toggled(likes, u), u)) == multiset(likes)
    ensures Toggled(Toggled(likes, u), u) == RemoveAt(likes, IndexOf(likes, u)) + [u]
  {
    ToggledMembership(likes, u);
  }

  /** The parity bookkeeping of the induction below, on plain booleans. */
  lemma ParityStep(before: bool, after: bool, initially: bool, n: nat)
    requires n > 0
    requires after == !before
    requires before == (initially != ((n - 1) % 2 == 1))
    ensures after == (initially != (n % 2 == 1))
  {
  }

  /** The like list after `n` toggles by the same user: an odd number of
      toggles flips the user's membership, an even number leaves it as it
      was, and the list never holds a duplicate. */
  function ToggledTimes(likes: seq<Id>, u: Id, n: nat): (r: seq<Id>)
    requires NoDup(likes)
    ensures NoDup(r)
    ensures u in r <==> (u in likes) != (n % 2 == 1)
  {
    if n == 0 then likes
    else
      var prev := ToggledTimes(likes, u, n - 1);
      ToggledMembership(prev, u);
      ToggledKeepsNoDup(prev, u);
      var r := Toggled(prev, u);
      ParityStep(u in prev, u in r, u in likes, n);
      r
  }

  /** The like list after each user of `users` toggles once, in order. */
  function ToggledByEach(likes: seq<Id>, users: seq<Id>): seq<Id>
    decreases |users|
  {
    if users == [] then likes
    else ToggledByEach(Toggled(likes, users[0]), users[1..])
  }

  /** When N distinct users who had not liked the outfit each toggle once,
      all of them end up in the list, appended in order, and no like is
      lost. */
  lemma {:induction false} ToggledByEachDistinct(likes: seq<Id>, users: seq<Id>)
    requires NoDup(likes + users)
    ensures ToggledByEach(likes, users) == likes + users
    ensures |ToggledByEach(likes, users)| == |likes| + |users|
    decreases |users|
  {
    if users != [] {
      var all := likes + users;
      forall k | 0 <= k < |likes|
        ensures likes[k] != users[0]
      {
        assert all[k] == likes[k] && all[|likes|] == users[0];
      }
      assert likes + [users[0]] + users[1..] == all;
      ToggledByEachDistinct(likes + [users[0]], users[1..]);
    }
  }
}
