/**
 * A stable insertion sort driven by a comparator, standing for
 * `Array.prototype.sort(compare)`, which ECMAScript requires to be stable.
 * The comparator is given as `le`, where `le(a, b)` means that
 * `compare(a, b) <= 0`, i.e. the comparator lets `a` stand before `b`.
 */
module StableSort {

  /** `le` is total and transitive: the comparator is consistent. */
  ghost predicate TotalPreorder<T(!new)>(le: (T, T) -> bool)
  {
    && (forall a, b :: le(a, b) || le(b, a))
    && (forall a, b, c :: le(a, b) && le(b, c) ==> le(a, c))
  }

  /** Every element may stand before every later one. */
  ghost predicate Sorted<T>(s: seq<T>, le: (T, T) -> bool)
  {
    forall i, j :: 0 <= i < j < |s| ==> le(s[i], s[j])
  }

  /** The comparator returns 0 for `a` and `b`. */
  predicate Tied<T>(le: (T, T) -> bool, a: T, b: T)
  {
    le(a, b) && le(b, a)
  }

  /** `[y]` when `y` ties with `x`, otherwise nothing. */
  function TieOf<T>(y: T, x: T, le: (T, T) -> bool): seq<T>
  {
    if Tied(le, y, x) then [y] else []
  }

  /** The elements of `s` that tie with `x`, in the order they have in `s`. */
  function Ties<T>(s: seq<T>, x: T, le: (T, T) -> bool): seq<T>
  {
    if s == [] then []
    else TieOf(s[0], x, le) + Ties(s[1..], x, le)
  }

  /** Places `x` before the first element it may precede. */
  function Insert<T>(x: T, s: seq<T>, le: (T, T) -> bool): (r: seq<T>)
    ensures multiset(r) == multiset(s) + multiset{x}
  {
    if s == [] || le(x, s[0]) then [x] + s
    else
      assert s == [s[0]] + s[1..];
      [s[0]] + Insert(x, s[1..], le)
  }

  function Sort<T>(s: seq<T>, le: (T, T) -> bool): (r: seq<T>)
    ensures multiset(r) == multiset(s)
    ensures |r| == |s|
  {
    if s == [] then []
    else
      assert s == [s[0]] + s[1..];
      Insert(s[0], Sort(s[1..], le), le)
  }

  /** `x` belongs right after `y`. */
  lemma InsertAfterFirst<T>(x: T, y: T, s: seq<T>, le: (T, T) -> bool)
    requires !le(x, y) && (s == [] || le(x, s[0]))
    ensures Insert(x, [y] + s, le) == [y, x] + s
  {
    assert ([y] + s)[1..] == s;
  }

  /** A list already in order, neighbour by neighbour, is left as it is. */
  lemma {:induction false} SortKeepsOrderedList<T>(s: seq<T>, le: (T, T) -> bool)
    requires forall i :: 0 <= i < |s| - 1 ==> le(s[i], s[i + 1])
    ensures Sort(s, le) == s
  {
    if s != [] {
      SortKeepsOrderedList(s[1..], le);
      if |s| > 1 {
        assert le(s[0], s[1]);
      }
      assert [s[0]] + s[1..] == s;
    }
  }

  lemma {:induction false} InsertSorted<T(!new)>(x: T, s: seq<T>, le: (T, T) -> bool)
    requires TotalPreorder(le) && Sorted(s, le)
    ensures Sorted(Insert(x, s, le), le)
  {
    if s == [] || le(x, s[0]) {
      var r := [x] + s;
      forall i, j | 0 <= i < j < |r| ensures le(r[i], r[j]) {
        if i == 0 {
          assert le(x, s[0]) && le(s[0], s[j - 1]) by {
            if j - 1 > 0 { assert le(s[0], s[j - 1]); }
          }
        }
      }
    } else {
      InsertSorted(x, s[1..], le);
      var t := Insert(x, s[1..], le);
      var r := [s[0]] + t;
      assert le(s[0], x);
      forall k | 0 <= k < |t| ensures le(s[0], t[k]) {
        assert t[k] in multiset(s[1..]) + multiset{x};
        if t[k] != x {
          assert t[k] in s[1..];
          var m :| 0 <= m < |s[1..]| && s[1..][m] == t[k];
          assert s[m + 1] == t[k];
        }
      }
      forall i, j | 0 <= i < j < |r| ensures le(r[i], r[j]) {
        if i > 0 { assert r[i] == t[i - 1] && r[j] == t[j - 1]; }
      }
    }
  }

  /** The sort puts its input in comparator order. */
  lemma {:induction false} SortSorted<T(!new)>(s: seq<T>, le: (T, T) -> bool)
    requires TotalPreorder(le)
    ensures Sorted(Sort(s, le), le)
  {
    if s != [] {
      SortSorted(s[1..], le);
      InsertSorted(s[0], Sort(s[1..], le), le);
    }
  }

  /** Two elements tied with the same `x` may stand in either order. */
  lemma TiedWithSame<T(!new)>(a: T, b: T, x: T, le: (T, T) -> bool)
    requires TotalPreorder(le)
    ensures Tied(le, a, x) && Tied(le, b, x) ==> le(a, b)
  {
  }

  lemma TiesCons<T>(y: T, s: seq<T>, x: T, le: (T, T) -> bool)
    ensures Ties([y] + s, x, le) == TieOf(y, x, le) + Ties(s, x, le)
  {
    assert ([y] + s)[1..] == s;
  }

  /** Moving `a` past `y` leaves the ties in order when they do not both tie with `x`. */
  lemma SwapTies<T>(a: T, y: T, r: seq<T>, u: seq<T>, x: T, le: (T, T) -> bool)
    requires !(Tied(le, a, x) && Tied(le, y, x))
    requires Ties(r, x, le) == TieOf(a, x, le) + Ties(u, x, le)
    ensures Ties([y] + r, x, le) == TieOf(a, x, le) + Ties([y] + u, x, le)
  {
    TiesCons(y, r, x, le);
    TiesCons(y, u, x, le);
    assert TieOf(y, x, le) + TieOf(a, x, le) == TieOf(a, x, le) + TieOf(y, x, le);
  }

  lemma {:induction false} InsertTies<T>(a: T, t: seq<T>, x: T, le: (T, T) -> bool)
    requires forall b :: Tied(le, a, x) && Tied(le, b, x) ==> le(a, b)
    ensures Ties(Insert(a, t, le), x, le) == TieOf(a, x, le) + Ties(t, x, le)
  {
    if t == [] || le(a, t[0]) {
      TiesCons(a, t, x, le);
    } else {
      InsertTies(a, t[1..], x, le);
      // `a` is moved past t[0] only when a > t[0]; then they cannot both tie with x
      SwapTies(a, t[0], Insert(a, t[1..], le), t[1..], x, le);
      assert [t[0]] + t[1..] == t;
    }
  }

  /** Stability: elements that tie keep their input order. */
  lemma {:induction false} SortStable<T(!new)>(s: seq<T>, x: T, le: (T, T) -> bool)
    requires TotalPreorder(le)
    ensures Ties(Sort(s, le), x, le) == Ties(s, x, le)
  {
    if s != [] {
      SortStable(s[1..], x, le);
      forall b ensures Tied(le, s[0], x) && Tied(le, b, x) ==> le(s[0], b) {
        TiedWithSame(s[0], b, x, le);
      }
      InsertTies(s[0], Sort(s[1..], le), x, le);
    }
  }
}
