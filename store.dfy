/**
 * Facts about a MongoDB collection seen as a map from ids to records, used by
 * the all-or-nothing batch deletes: `find({_id: {$in: ids}})` returns each
 * stored document once, however often its id is listed, so comparing the
 * number of documents found with the number of ids listed checks that every
 * id is stored AND that no id is listed twice.
 */
module Store {
  import opened Api

  predicate Distinct<T(==)>(s: seq<T>)
  {
    forall i, j :: 0 <= i < j < |s| ==> s[i] != s[j]
  }

  /** The set of the elements of s. */
  function Elements<T(==)>(s: seq<T>): set<T>
  {
    set x | x in s
  }

  /** The documents `find({_id: {$in: ids}})` returns, by id. */
  function Matched(ids: seq<Id>, keys: set<Id>): (r: set<Id>)
    ensures r <= keys && r <= Elements(ids)
    ensures forall x :: x in r <==> x in ids && x in keys
  {
    set x | x in ids && x in keys
  }

  /** A sequence has at most as many distinct elements as positions, exactly as many when no element repeats. */
  lemma {:induction false} ElementsSize<T>(s: seq<T>)
    ensures |Elements(s)| <= |s|
    ensures |Elements(s)| == |s| <==> Distinct(s)
    decreases |s|
  {
    if s != [] {
      var p, x := s[..|s| - 1], s[|s| - 1];
      ElementsSize(p);
      assert s == p + [x];
      assert Elements(s) == Elements(p) + {x};
      if x in p {
        assert Elements(s) == Elements(p);
        var k :| 0 <= k < |p| && p[k] == x;
        assert s[k] == s[|s| - 1];
      } else {
        assert |Elements(s)| == |Elements(p)| + 1;
        if Distinct(p) {
          forall i, j | 0 <= i < j < |s|
            ensures s[i] != s[j]
          {
            if j < |s| - 1 {
              assert s[i] == p[i] && s[j] == p[j];
            } else {
              assert s[i] == p[i];
            }
          }
        } else {
          var i, j :| 0 <= i < j < |p| && p[i] == p[j];
          assert s[i] == p[i] && s[j] == p[j];
        }
      }
    }
  }

  /** A subset is at most as large as its superset. */
  lemma {:induction false} SubsetSize<T>(a: set<T>, b: set<T>)
    requires a <= b
    ensures |a| <= |b|
    decreases |b|
  {
    if a != {} {
      var x :| x in a;
      SubsetSize(a - {x}, b - {x});
    }
  }

  /** A subset as large as its superset is the superset. */
  lemma SubsetOfSameSize<T>(a: set<T>, b: set<T>)
    requires a <= b && |a| == |b|
    ensures a == b
  {
    if a != b {
      var y :| y in b && y !in a;
      SubsetSize(a, b - {y});
    }
  }

  /**
   * The count test of the batch deletes: as many documents are found as ids
   * are listed exactly when the ids are distinct and all stored.
   */
  lemma MatchedAll(ids: seq<Id>, keys: set<Id>)
    ensures |Matched(ids, keys)| <= |ids|
    ensures |Matched(ids, keys)| == |ids| <==> Distinct(ids) && forall i :: 0 <= i < |ids| ==> ids[i] in keys
  {
    var m, e := Matched(ids, keys), Elements(ids);
    ElementsSize(ids);
    SubsetSize(m, e);
    if |m| == |ids| {
      SubsetOfSameSize(m, e);
      forall i | 0 <= i < |ids|
        ensures ids[i] in keys
      {
        assert ids[i] in e;
      }
    }
    if Distinct(ids) && forall i :: 0 <= i < |ids| ==> ids[i] in keys {
      assert m == e;
    }
  }
}
