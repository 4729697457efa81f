/** Sequence and map facts the query and batch models lean on. */
module Collections {

  predicate Distinct<T(==)>(s: seq<T>)
  {
    forall i, j :: 0 <= i < j < |s| ==> s[i] != s[j]
  }

  /** Dropping the head of a duplicate-free sequence keeps it duplicate-free, without the head. */
  lemma DistinctTail<T>(s: seq<T>)
    requires |s| > 0 && Distinct(s)
    ensures Distinct(s[1..]) && s[0] !in s[1..]
  {
    forall i, j | 0 <= i < j < |s[1..]| ensures s[1..][i] != s[1..][j] {
      assert s[1..][i] == s[i + 1] && s[1..][j] == s[j + 1];
    }
  }

  function Elements<T>(s: seq<T>): set<T>
  {
    set x | x in s
  }

  /** A list has as many distinct members as entries exactly when no entry repeats. */
  lemma {:induction false} ElementsCount<T>(s: seq<T>)
    ensures |Elements(s)| <= |s|
    ensures |Elements(s)| == |s| <==> Distinct(s)
  {
    if s != [] {
      var t := s[1..];
      ElementsCount(t);
      assert Elements(s) == {s[0]} + Elements(t);
      if s[0] in t {
        assert Elements(s) == Elements(t);
        var k :| 0 <= k < |t| && t[k] == s[0];
        assert s[0] == s[k + 1];
      } else {
        assert Elements(s) == Elements(t) + {s[0]};
        assert s[0] !in Elements(t);
        if Distinct(t) {
          forall i, j | 0 <= i < j < |s| ensures s[i] != s[j] {
            if i > 0 {
              assert s[i] == t[i - 1] && s[j] == t[j - 1];
            } else {
              assert s[j] == t[j - 1];
            }
          }
        }
        if Distinct(s) {
          forall i, j | 0 <= i < j < |t| ensures t[i] != t[j] {
            assert t[i] == s[i + 1] && t[j] == s[j + 1];
          }
        }
      }
    }
  }

  lemma SubsetCount<T>(a: set<T>, b: set<T>)
    requires a <= b
    ensures |a| <= |b|
  {
    assert b == a + (b - a);
  }

  /** Some key of a non-empty map carries a largest value. */
  lemma {:induction false} MaxKeyExists<K>(m: map<K, int>)
    requires |m| > 0
    ensures exists k :: k in m && forall j :: j in m ==> m[j] <= m[k]
    decreases |m|
  {
    var k0 :| k0 in m;
    var rest := m - {k0};
    if |rest| == 0 {
      assert forall j :: j in m ==> j == k0;
    } else {
      MaxKeyExists(rest);
      var k1 :| k1 in rest && forall j :: j in rest ==> rest[j] <= rest[k1];
      if m[k0] <= m[k1] {
        assert forall j :: j in m ==> m[j] <= m[k1] by {
          forall j | j in m ensures m[j] <= m[k1] {
            if j != k0 { assert j in rest; }
          }
        }
      } else {
        assert forall j :: j in m ==> m[j] <= m[k0] by {
          forall j | j in m ensures m[j] <= m[k0] {
            if j != k0 { assert j in rest; }
          }
        }
      }
    }
  }

  /**
   * The keys of `m` ordered by their value, largest first: what `orderBy: { field: "desc" }`
   * returns. Rows with equal values may come in either order, as in the database.
   */
  ghost function SortedDesc<K(!new)>(m: map<K, int>): (r: seq<K>)
    ensures Distinct(r)
    ensures forall k :: k in r <==> k in m
    ensures forall i, j :: 0 <= i < j < |r| ==> r[i] in m && r[j] in m && m[r[i]] >= m[r[j]]
    decreases |m|
  {
    if |m| == 0 then []
    else
      MaxKeyExists(m);
      var top :| top in m && forall j :: j in m ==> m[j] <= m[top];
      var tail := SortedDesc(m - {top});
      SortedCons(m, top, tail);
      [top] + tail
  }

  /** Putting a largest key in front of the sorted rest sorts the whole map. */
  lemma SortedCons<K>(m: map<K, int>, top: K, tail: seq<K>)
    requires top in m && forall j :: j in m ==> m[j] <= m[top]
    requires Distinct(tail) && forall k :: k in tail <==> k in m - {top}
    requires forall i, j :: 0 <= i < j < |tail| ==> tail[i] in m - {top} && tail[j] in m - {top} && (m - {top})[tail[i]] >= (m - {top})[tail[j]]
    ensures Distinct([top] + tail)
    ensures forall k :: k in [top] + tail <==> k in m
    ensures forall i, j :: 0 <= i < j < |[top] + tail| ==> ([top] + tail)[i] in m && ([top] + tail)[j] in m && m[([top] + tail)[i]] >= m[([top] + tail)[j]]
  {
    var r := [top] + tail;
    forall i | 0 < i < |r|
      ensures r[i] == tail[i - 1] && r[i] in m && r[i] != top
    {
      assert tail[i - 1] in tail;
    }
  }
}
