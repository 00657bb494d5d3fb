/** Sequences put together from pieces, and where each piece lands. */
module Segments {

  function Flatten<T>(s: seq<seq<T>>): seq<T> {
    if s == [] then [] else Flatten(s[..|s| - 1]) + s[|s| - 1]
  }

  function Offset<T>(s: seq<seq<T>>, i: nat): nat
    requires i <= |s|
  {
    |Flatten(s[..i])|
  }

  /** `part` stands in `whole` at position `at`. */
  predicate Placed<T(==)>(whole: seq<T>, at: nat, part: seq<T>) {
    at + |part| <= |whole| && whole[at..at + |part|] == part
  }

  lemma {:induction false} FlattenAt<T>(s: seq<seq<T>>, i: nat)
    requires i < |s|
    ensures Placed(Flatten(s), Offset(s, i), s[i])
    ensures Offset(s, i + 1) == Offset(s, i) + |s[i]| <= |Flatten(s)|
  {
    var init := s[..|s| - 1];
    assert s[..i + 1][..i] == s[..i];
    if i < |s| - 1 {
      FlattenAt(init, i);
      assert init[..i] == s[..i] && init[..i + 1] == s[..i + 1];
      var o := Offset(s, i);
      assert Flatten(s)[o..o + |s[i]|] == Flatten(init)[o..o + |s[i]|];
    } else {
      assert s[..i + 1] == s;
    }
  }

  /** The piece that a position of the whole belongs to. */
  lemma {:induction false} Locate<T>(s: seq<seq<T>>, k: nat) returns (i: nat, o: nat)
    requires k < |Flatten(s)|
    ensures i < |s| && o < |s[i]| && k == Offset(s, i) + o && Flatten(s)[k] == s[i][o]
  {
    var init := s[..|s| - 1];
    if k < |Flatten(init)| {
      i, o := Locate(init, k);
      assert init[..i] == s[..i];
    } else {
      i, o := |s| - 1, k - |Flatten(init)|;
    }
  }

  lemma FlattenSnoc<T>(s: seq<seq<T>>, i: nat)
    requires i < |s|
    ensures Flatten(s[..i + 1]) == Flatten(s[..i]) + s[i]
  {
    assert s[..i + 1][..i] == s[..i];
  }

  lemma {:induction false} OffsetMonotone<T>(s: seq<seq<T>>, i: nat, j: nat)
    requires i <= j <= |s|
    ensures Offset(s, i) <= Offset(s, j)
  {
    if i < j {
      OffsetMonotone(s, i, j - 1);
      FlattenAt(s, j - 1);
    }
  }

  /** Pieces of one size land at its multiples. */
  lemma {:induction false} EvenOffset<T>(s: seq<seq<T>>, size: nat, i: nat)
    requires i <= |s| && forall k :: 0 <= k < |s| ==> |s[k]| == size
    ensures Offset(s, i) == i * size
  {
    if i > 0 {
      EvenOffset(s, size, i - 1);
      FlattenAt(s, i - 1);
    }
  }

  lemma PlacedWord<T>(whole: seq<T>, at: nat, part: seq<T>, k: nat)
    requires Placed(whole, at, part) && k < |part|
    ensures at + k < |whole| && whole[at + k] == part[k]
  {
    assert whole[at..at + |part|][k] == part[k];
  }

  lemma PlacedInside<T>(whole: seq<T>, at: nat, part: seq<T>, k: nat, inner: seq<T>)
    requires Placed(whole, at, part) && Placed(part, k, inner)
    ensures Placed(whole, at + k, inner)
  {
    forall i | 0 <= i < |inner| ensures whole[at + k..at + k + |inner|][i] == inner[i] {
      PlacedWord(whole, at, part, k + i);
      PlacedWord(part, k, inner, i);
    }
  }
}
