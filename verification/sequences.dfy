/** Small facts about sequences used by the discovery and conversion models. */
module Sequences {

  /** No element occurs twice. */
  predicate Distinct<T(==)>(s: seq<T>) {
    forall i, j :: 0 <= i < j < |s| ==> s[i] != s[j]
  }

  /** The set of elements of a sequence (Python's `set(lst)`). */
  function Elements<T(==)>(s: seq<T>): set<T> {
    set x | x in s
  }

  /** Python's `list(range(n))`. */
  function Range(n: nat): (r: seq<nat>)
    ensures |r| == n
    ensures forall j :: 0 <= j < n ==> r[j] == j
  {
    seq(n, j => j)
  }

  lemma RangeDistinct(n: nat)
    ensures Distinct(Range(n))
  {
  }

  /** A sequence without repetitions has as many elements as its set. */
  lemma {:induction false} DistinctCardinality<T>(s: seq<T>)
    requires Distinct(s)
    ensures |Elements(s)| == |s|
  {
    if |s| == 0 {
      assert Elements(s) == {};
    } else {
      var tail := s[1..];
      assert Distinct(tail) by {
        forall i, j | 0 <= i < j < |tail|
          ensures tail[i] != tail[j]
        {
          assert tail[i] == s[i + 1] && tail[j] == s[j + 1];
        }
      }
      DistinctCardinality(tail);
      forall j | 0 <= j < |tail|
        ensures tail[j] != s[0]
      {
        assert tail[j] == s[j + 1];
      }
      assert s[0] !in Elements(tail);
      assert Elements(s) == {s[0]} + Elements(tail) by {
        assert s == [s[0]] + tail;
      }
    }
  }

  /** `len(set(s)) == 1` holds exactly when `s` is non-empty and constant. */
  lemma SingletonIffUniform<T>(s: seq<T>)
    ensures |Elements(s)| == 1 <==> |s| > 0 && forall j :: 0 <= j < |s| ==> s[j] == s[0]
  {
    var e := Elements(s);
    if |s| == 0 {
      assert e == {};
    } else {
      assert s[0] in e;
      if |e| == 1 {
        var rest := e - {s[0]};
        assert e == rest + {s[0]} && s[0] !in rest;
        assert |rest| == 0;
        forall j | 0 <= j < |s|
          ensures s[j] == s[0]
        {
          assert s[j] in e && s[j] !in rest;
        }
      }
      if forall j :: 0 <= j < |s| ==> s[j] == s[0] {
        assert e == {s[0]};
      }
    }
  }
}
