/**
 * `arr.sort((a, b) => key(b) - key(a))`: JavaScript's `Array.prototype.sort`
 * is stable, so the result is in non-increasing `key` order and elements
 * with equal keys keep the order they had in `arr`.
 */
module StableSort {

  /** `a` occurs before `b` in `orig`. */
  predicate Before<T(==)>(orig: seq<T>, a: T, b: T) {
    exists p, q | 0 <= p < q < |orig| :: orig[p] == a && orig[q] == b
  }

  /**
   * Every element of `r` has a larger key than each later one, or the same
   * key and an earlier place in `orig`.
   */
  predicate SortedStably<T(==)>(r: seq<T>, orig: seq<T>, key: T -> real) {
    forall i, j | 0 <= i < j < |r| ::
      key(r[i]) > key(r[j]) || (key(r[i]) == key(r[j]) && Before(orig, r[i], r[j]))
  }

  /** Puts `x` in front of the first element whose key is not larger than its own. */
  function Insert<T>(x: T, r: seq<T>, key: T -> real): (r': seq<T>)
    ensures multiset(r') == multiset(r) + multiset{x}
  {
    if r == [] || key(x) >= key(r[0]) then [x] + r
    else
      assert r == [r[0]] + r[1..];
      [r[0]] + Insert(x, r[1..], key)
  }

  /** `h` comes stably before `y`: a larger key, or the same key and an earlier place in `orig`. */
  predicate StablyBefore<T(==)>(h: T, y: T, orig: seq<T>, key: T -> real) {
    key(h) > key(y) || (key(h) == key(y) && Before(orig, h, y))
  }

  /** An element stably before everything of a stably sorted sequence can go in front of it. */
  lemma ConsSorted<T>(h: T, rest: seq<T>, orig: seq<T>, key: T -> real)
    requires SortedStably(rest, orig, key)
    requires forall j | 0 <= j < |rest| :: StablyBefore(h, rest[j], orig, key)
    ensures SortedStably([h] + rest, orig, key)
  {
    var r := [h] + rest;
    assert forall j | 1 <= j < |r| :: r[j] == rest[j - 1];
  }

  /** Inserting an element that comes before every equal-keyed element of `r` keeps `r` stably sorted. */
  lemma {:induction false} InsertKeepsOrder<T>(x: T, r: seq<T>, orig: seq<T>, key: T -> real)
    requires SortedStably(r, orig, key)
    requires forall y | y in r && key(y) == key(x) :: Before(orig, x, y)
    ensures SortedStably(Insert(x, r, key), orig, key)
  {
    if r == [] || key(x) >= key(r[0]) {
      forall j | 0 <= j < |r| ensures StablyBefore(x, r[j], orig, key) {
        if j > 0 { assert key(r[0]) >= key(r[j]); }
        assert r[j] in r;
      }
      ConsSorted(x, r, orig, key);
    } else {
      var rest := Insert(x, r[1..], key);
      assert SortedStably(r[1..], orig, key) by {
        assert forall j | 0 <= j < |r[1..]| :: r[1..][j] == r[j + 1];
      }
      InsertKeepsOrder(x, r[1..], orig, key);
      forall j | 0 <= j < |rest| ensures StablyBefore(r[0], rest[j], orig, key) {
        assert rest[j] in multiset(rest);
        if rest[j] != x {
          assert rest[j] in r[1..];
          var k :| 0 <= k < |r[1..]| && r[1..][k] == rest[j];
          assert r[k + 1] == rest[j];
        }
      }
      ConsSorted(r[0], rest, orig, key);
    }
  }

  /** Being before in a tail of `orig` is being before in `orig`. */
  lemma BeforeInTail<T>(orig: seq<T>, a: T, b: T)
    requires orig != [] && Before(orig[1..], a, b)
    ensures Before(orig, a, b)
  {
    var p, q :| 0 <= p < q < |orig[1..]| && orig[1..][p] == a && orig[1..][q] == b;
    assert orig[p + 1] == a && orig[q + 1] == b;
  }

  /** The stable sort by descending key: a permutation of `s`, stably sorted. */
  function SortDesc<T>(s: seq<T>, key: T -> real): (r: seq<T>)
    ensures multiset(r) == multiset(s)
    ensures SortedStably(r, s, key)
  {
    if s == [] then []
    else
      assert s == [s[0]] + s[1..];
      var rest := SortDesc(s[1..], key);
      forall i, j | 0 <= i < j < |rest| && key(rest[i]) == key(rest[j])
        ensures Before(s, rest[i], rest[j])
      {
        BeforeInTail(s, rest[i], rest[j]);
      }
      forall y | y in rest && key(y) == key(s[0]) ensures Before(s, s[0], y) {
        assert y in multiset(s[1..]);
        var k :| 0 <= k < |s[1..]| && s[1..][k] == y;
        assert s[k + 1] == y;
      }
      InsertKeepsOrder(s[0], rest, s, key);
      Insert(s[0], rest, key)
  }

  /**
   * The first element of the sorted sequence has the largest key, and among
   * the elements with that key it is the one that came first.
   */
  lemma FirstIsEarliestMaximum<T>(s: seq<T>, key: T -> real)
    requires s != []
    ensures SortDesc(s, key) != []
    ensures forall y | y in s :: key(SortDesc(s, key)[0]) >= key(y)
    ensures forall y | y in s && y != SortDesc(s, key)[0] && key(y) == key(SortDesc(s, key)[0]) ::
              Before(s, SortDesc(s, key)[0], y)
  {
    var r := SortDesc(s, key);
    assert |r| == |s| by {
      assert |multiset(r)| == |multiset(s)|;
    }
    forall y | y in s ensures key(r[0]) >= key(y) && (y != r[0] && key(y) == key(r[0]) ==> Before(s, r[0], y)) {
      assert y in multiset(r);
      var j :| 0 <= j < |r| && r[j] == y;
    }
  }

  /** The sorted sequence is as long as the original and in non-increasing key order. */
  lemma SortDescShape<T>(s: seq<T>, key: T -> real)
    ensures |SortDesc(s, key)| == |s|
    ensures forall i, j | 0 <= i < j < |s| :: key(SortDesc(s, key)[i]) >= key(SortDesc(s, key)[j])
  {
    var r := SortDesc(s, key);
    assert |multiset(r)| == |multiset(s)|;
  }

  /** `arr.filter(keep)`: the elements that pass, in their original order. */
  function Filter<T>(s: seq<T>, keep: T -> bool): (r: seq<T>)
    ensures forall x | x in r :: x in s && keep(x)
    ensures forall x | x in s && keep(x) :: x in r
    ensures |r| <= |s|
  {
    if s == [] then []
    else if keep(s[0]) then [s[0]] + Filter(s[1..], keep)
    else Filter(s[1..], keep)
  }

  /** `filter` keeps every copy of a passing element and no copy of any other. */
  lemma {:induction false} FilterCounts<T>(s: seq<T>, keep: T -> bool, x: T)
    ensures multiset(Filter(s, keep))[x] == if keep(x) then multiset(s)[x] else 0
  {
    if s != [] {
      assert s == [s[0]] + s[1..];
      FilterCounts(s[1..], keep, x);
    }
  }

  /** Filtering keeps the relative order of what it keeps. */
  lemma {:induction false} FilterKeepsOrder<T>(s: seq<T>, keep: T -> bool, a: T, b: T)
    requires Before(Filter(s, keep), a, b)
    ensures Before(s, a, b)
  {
    var r := Filter(s, keep);
    var p, q :| 0 <= p < q < |r| && r[p] == a && r[q] == b;
    if keep(s[0]) {
      if p == 0 {
        assert a == s[0];
        assert b in Filter(s[1..], keep) by { assert r[q] == Filter(s[1..], keep)[q - 1]; }
        var k :| 0 <= k < |s[1..]| && s[1..][k] == b;
        assert s[k + 1] == b;
      } else {
        assert Filter(s[1..], keep)[p - 1] == a && Filter(s[1..], keep)[q - 1] == b;
        FilterKeepsOrder(s[1..], keep, a, b);
        BeforeInTail(s, a, b);
      }
    } else {
      FilterKeepsOrder(s[1..], keep, a, b);
      BeforeInTail(s, a, b);
    }
  }
}
