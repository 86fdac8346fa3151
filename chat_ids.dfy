/**
 * The two-party chat key: `createChat` combines the two user ids by putting the one that is
 * larger under JavaScript's string `>` first and the other second.
 */
module ChatIds {

  /**
   * JavaScript's `a < b` on strings: lexicographic on characters, a proper prefix before
   * any of its extensions.
   */
  predicate LexLess(a: string, b: string)
  {
    if a == [] then b != []
    else if b == [] then false
    else a[0] < b[0] || (a[0] == b[0] && LexLess(a[1..], b[1..]))
  }

  lemma {:induction false} LexLessIrreflexive(a: string)
    ensures !LexLess(a, a)
  {
    if a != [] {
      LexLessIrreflexive(a[1..]);
    }
  }

  lemma {:induction false} LexLessAsymmetric(a: string, b: string)
    ensures LexLess(a, b) ==> !LexLess(b, a)
  {
    if a != [] && b != [] && a[0] == b[0] {
      LexLessAsymmetric(a[1..], b[1..]);
    }
  }

  /** Any two different strings are ordered one way or the other. */
  lemma {:induction false} LexLessTotal(a: string, b: string)
    requires a != b
    ensures LexLess(a, b) || LexLess(b, a)
  {
    if a != [] && b != [] && a[0] == b[0] {
      assert a == [a[0]] + a[1..] && b == [b[0]] + b[1..];
      LexLessTotal(a[1..], b[1..]);
    }
  }

  /** The chat key for the current user and the searched user. */
  function CombinedId(currentUid: string, searchedId: string): (id: string)
    ensures |id| == |currentUid| + |searchedId|
    ensures id == currentUid + searchedId || id == searchedId + currentUid
  {
    if LexLess(searchedId, currentUid) then currentUid + searchedId else searchedId + currentUid
  }

  /** The larger id always comes first, whichever user starts the chat. */
  lemma LargerIdFirst(larger: string, smaller: string)
    requires LexLess(smaller, larger)
    ensures CombinedId(larger, smaller) == larger + smaller
    ensures CombinedId(smaller, larger) == larger + smaller
  {
    LexLessAsymmetric(smaller, larger);
  }

  /** The key does not depend on which of the two users starts the chat. */
  lemma CombinedIdCommutative(a: string, b: string)
    ensures CombinedId(a, b) == CombinedId(b, a)
  {
    if a != b {
      LexLessTotal(a, b);
      if LexLess(a, b) {
        LargerIdFirst(b, a);
      } else {
        LargerIdFirst(a, b);
      }
    }
  }

  /**
   * Assuming all four ids have the same length, the key names exactly one unordered pair of
   * users.
   */
  lemma CombinedIdDeterminesPair(a: string, b: string, c: string, d: string)
    requires |a| == |b| == |c| == |d|
    requires CombinedId(a, b) == CombinedId(c, d)
    ensures {a, b} == {c, d}
  {
    var n := |a|;
    var id := CombinedId(a, b);
    assert (a + b)[..n] == a && (a + b)[n..] == b;
    assert (b + a)[..n] == b && (b + a)[n..] == a;
    assert (c + d)[..n] == c && (c + d)[n..] == d;
    assert (d + c)[..n] == d && (d + c)[n..] == c;
    assert {id[..n], id[n..]} == {a, b};
    assert {id[..n], id[n..]} == {c, d};
  }

  /** With ids of different lengths, two different pairs can share one key. */
  lemma CombinedIdCollidesForUnequalLengths()
    ensures CombinedId("c", "ab") == CombinedId("ca", "b") == "cab"
    ensures {"c", "ab"} != {"ca", "b"}
  {
    assert LexLess("ab", "c");
    assert LexLess("b", "ca");
    assert "c" !in {"ca", "b"};
  }
}
