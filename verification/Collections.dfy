/** Small facts about finite collections that several components share. */
module Collections {

  function Min(a: int, b: int): int {
    if a <= b then a else b
  }

  function Max(a: int, b: int): int {
    if a >= b then a else b
  }

  /** No element occurs twice. */
  predicate Unrepeated<T(==)>(s: seq<T>) {
    forall k, l | 0 <= k < l < |s| :: s[k] != s[l]
  }

  function SetOf<T(==)>(s: seq<T>): set<T> {
    set x | x in s
  }

  lemma {:induction false} SetOfAtMost<T>(s: seq<T>)
    ensures |SetOf(s)| <= |s|
  {
    if s != [] {
      var front := s[..|s| - 1];
      SetOfAtMost(front);
      assert SetOf(s) == SetOf(front) + {s[|s| - 1]};
    }
  }

  lemma {:induction false} SetOfSize<T>(s: seq<T>)
    requires Unrepeated(s)
    ensures |SetOf(s)| == |s|
  {
    if s != [] {
      var front := s[..|s| - 1];
      SetOfSize(front);
      assert SetOf(s) == SetOf(front) + {s[|s| - 1]};
    }
  }

  lemma {:induction false} SubsetSize<T>(s: set<T>, t: set<T>)
    requires s <= t
    ensures |s| <= |t|
  {
    if s != {} {
      var x :| x in s;
      SubsetSize(s - {x}, t - {x});
    }
  }
}
