/** Cutting a list into consecutive pieces, each within some limit, by always filling the
    current piece first: no other way of cutting uses fewer pieces. */
module Greedy {
  import opened Common

  /** Whatever holds of a list holds of every stretch of it. */
  ghost predicate Hereditary<T(!new)>(ok: seq<T> -> bool) {
    forall s: seq<T>, i, j {:trigger ok(s[i..j])} :: 0 <= i <= j <= |s| && ok(s) ==> ok(s[i..j])
  }

  ghost predicate AllWithin<T>(pieces: seq<seq<T>>, ok: seq<T> -> bool) {
    forall i :: 0 <= i < |pieces| ==> ok(pieces[i])
  }

  /** No piece is empty, and none had room for the first item of the next. */
  ghost predicate Filled<T>(pieces: seq<seq<T>>, ok: seq<T> -> bool) {
    && (forall i :: 0 <= i < |pieces| ==> pieces[i] != [])
    && (forall i :: 0 <= i < |pieces| - 1 ==> !ok(pieces[i] + [pieces[i + 1][0]]))
  }

  lemma FewestPieces<T(!new)>(greedy: seq<seq<T>>, other: seq<seq<T>>, ok: seq<T> -> bool)
    requires Hereditary(ok) && Filled(greedy, ok) && AllWithin(other, ok)
    requires Flatten(greedy) == Flatten(other)
    ensures |greedy| <= |other|
  {
    StaysAhead(greedy, other, ok);
  }

  /** After equally many pieces the greedy cut has covered at least as much: what it has
      left is always a suffix of what the other cut has left. */
  lemma {:induction false} StaysAhead<T(!new)>(greedy: seq<seq<T>>, other: seq<seq<T>>, ok: seq<T> -> bool)
    requires Hereditary(ok) && Filled(greedy, ok) && AllWithin(other, ok)
    requires var g, o := Flatten(greedy), Flatten(other); |g| <= |o| && o[|o| - |g|..] == g
    ensures |greedy| <= |other|
    decreases |other|
  {
    if greedy != [] && other != [] {
      var g, o, o' := Flatten(greedy), Flatten(other), Flatten(other[1..]);
      if |g| <= |o'| {
        assert o[|o| - |g|..] == o'[|o'| - |g|..];
        StaysAhead(greedy, other[1..], ok);
      } else {
        FirstPieceCovers(greedy, other[0], |g| - |o'|, ok);
        var g' := Flatten(greedy[1..]);
        assert g' == g[|greedy[0]|..] == o[|o| - |g'|..] == o'[|o'| - |g'|..];
        StaysAhead(greedy[1..], other[1..], ok);
      }
    }
  }

  /** A permitted piece that ends in the first `d` items left cannot reach past the greedy piece. */
  lemma FirstPieceCovers<T(!new)>(greedy: seq<seq<T>>, piece: seq<T>, d: nat, ok: seq<T> -> bool)
    requires Hereditary(ok) && Filled(greedy, ok) && ok(piece) && greedy != []
    requires d <= |piece| && d <= |Flatten(greedy)| && piece[|piece| - d..] == Flatten(greedy)[..d]
    ensures d <= |greedy[0]|
  {
    ReachingPast(greedy, piece, d, ok);
  }

  lemma ReachingPast<T(!new)>(greedy: seq<seq<T>>, piece: seq<T>, d: nat, ok: seq<T> -> bool)
    requires Hereditary(ok) && ok(piece) && greedy != []
    requires forall i :: 0 <= i < |greedy| ==> greedy[i] != []
    requires d <= |piece| && d <= |Flatten(greedy)| && piece[|piece| - d..] == Flatten(greedy)[..d]
    ensures d > |greedy[0]| ==> |greedy| > 1 && ok(greedy[0] + [greedy[1][0]])
  {
    var g, n := Flatten(greedy), |greedy[0]|;
    if d > n {
      assert greedy[1..] != [];
      var i := |piece| - d;
      assert g[n] == greedy[1][0];
      assert piece[i..i + n + 1] == g[..d][..n + 1] == greedy[0] + [greedy[1][0]];
    }
  }

  /** Only the first item of the last piece matters to the pieces before it. */
  lemma FilledReplaceLast<T>(pieces: seq<seq<T>>, last: seq<T>, last': seq<T>, ok: seq<T> -> bool)
    requires Filled(pieces + [last], ok) && last != [] && last' != [] && last[0] == last'[0]
    ensures Filled(pieces + [last'], ok)
  {
    var p, q := pieces + [last], pieces + [last'];
    assert forall i :: 0 <= i < |pieces| ==> q[i] == p[i];
    assert forall i :: 0 <= i < |q| ==> q[i] != [] && p[i] != [] && q[i][0] == p[i][0];
  }

  lemma FilledNext<T>(pieces: seq<seq<T>>, last: seq<T>, next: seq<T>, ok: seq<T> -> bool)
    requires Filled(pieces + [last], ok) && next != [] && !ok(last + [next[0]])
    ensures Filled(pieces + [last] + [next], ok)
  {
    var p, q := pieces + [last], pieces + [last] + [next];
    assert forall i :: 0 <= i < |p| ==> q[i] == p[i];
    assert q[|p|] == next;
  }
}
