// A stable insertion sort, used where the Python code calls `sorted(...)`:
// the priorities of the result merger, the span start times of a trace and
// the file names of a configuration directory.

module Sorting {

  ghost predicate TotalPreorder<T(!new)>(le: (T, T) -> bool)
  {
    && (forall a, b :: le(a, b) || le(b, a))
    && (forall a, b, c :: le(a, b) && le(b, c) ==> le(a, c))
  }

  ghost predicate SortedBy<T>(s: seq<T>, le: (T, T) -> bool)
  {
    forall i, j :: 0 <= i < j < |s| ==> le(s[i], s[j])
  }

  /** Places `x` after the leading run of elements not above it. */
  function Insert<T>(x: T, s: seq<T>, le: (T, T) -> bool): (r: seq<T>)
    ensures |r| == |s| + 1
  {
    if s == [] then [x]
    else if le(s[0], x) then [s[0]] + Insert(x, s[1..], le)
    else [x] + s
  }

  /** `sorted(s, key=...)`: insertion from the back keeps equal elements in input order. */
  function SortBy<T>(s: seq<T>, le: (T, T) -> bool): (r: seq<T>)
    ensures |r| == |s|
  {
    if s == [] then [] else Insert(s[|s| - 1], SortBy(s[..|s| - 1], le), le)
  }

  lemma {:induction false} InsertPerm<T>(x: T, s: seq<T>, le: (T, T) -> bool)
    ensures multiset(Insert(x, s, le)) == multiset(s) + multiset{x}
  {
    if s != [] && le(s[0], x) {
      InsertPerm(x, s[1..], le);
      assert s == [s[0]] + s[1..];
    }
  }

  lemma {:induction false} SortByPerm<T>(s: seq<T>, le: (T, T) -> bool)
    ensures multiset(SortBy(s, le)) == multiset(s)
  {
    if s != [] {
      SortByPerm(s[..|s| - 1], le);
      InsertPerm(s[|s| - 1], SortBy(s[..|s| - 1], le), le);
      assert s == s[..|s| - 1] + [s[|s| - 1]];
    }
  }

  lemma {:induction false} InsertSorted<T(!new)>(x: T, s: seq<T>, le: (T, T) -> bool)
    requires TotalPreorder(le)
    requires SortedBy(s, le)
    ensures SortedBy(Insert(x, s, le), le)
  {
    if s != [] && le(s[0], x) {
      InsertSorted(x, s[1..], le);
      var r := Insert(x, s[1..], le);
      InsertPerm(x, s[1..], le);
      forall j | 0 <= j < |r|
        ensures le(s[0], r[j])
      {
        assert r[j] in multiset(r);
        assert r[j] in multiset(s[1..]) || r[j] == x;
        if r[j] != x {
          var k :| 0 <= k < |s[1..]| && s[1..][k] == r[j];
          assert s[k + 1] == r[j];
        }
      }
    } else if s != [] {
      assert le(x, s[0]);
      forall i, j | 0 <= i < j < |[x] + s|
        ensures le(([x] + s)[i], ([x] + s)[j])
      {
        if i > 0 {
          assert ([x] + s)[i] == s[i - 1];
        } else {
          assert le(s[0], s[j - 1]) || j - 1 == 0;
        }
      }
    }
  }

  lemma {:induction false} SortBySorted<T(!new)>(s: seq<T>, le: (T, T) -> bool)
    requires TotalPreorder(le)
    ensures SortedBy(SortBy(s, le), le)
  {
    if s != [] {
      SortBySorted(s[..|s| - 1], le);
      InsertSorted(s[|s| - 1], SortBy(s[..|s| - 1], le), le);
    }
  }

  // ---------------------------------------------------------------------
  // Stability: elements that compare equal keep their input order.

  predicate Equiv<T>(le: (T, T) -> bool, a: T, b: T)
  {
    le(a, b) && le(b, a)
  }

  /** The elements of `s` that compare equal to `c` under `le`, in order. */
  function Equivs<T>(s: seq<T>, c: T, le: (T, T) -> bool): (r: seq<T>)
    ensures |r| <= |s|
  {
    if s == [] then []
    else (if Equiv(le, c, s[0]) then [s[0]] else []) + Equivs(s[1..], c, le)
  }

  lemma EquivsCons<T>(x: T, t: seq<T>, c: T, le: (T, T) -> bool)
    ensures Equivs([x] + t, c, le) == (if Equiv(le, c, x) then [x] else []) + Equivs(t, c, le)
  {
    assert ([x] + t)[0] == x && ([x] + t)[1..] == t;
  }

  lemma {:induction false} EquivsAppend<T>(a: seq<T>, b: seq<T>, c: T, le: (T, T) -> bool)
    ensures Equivs(a + b, c, le) == Equivs(a, c, le) + Equivs(b, c, le)
  {
    if a == [] {
      assert a + b == b;
    } else {
      EquivsAppend(a[1..], b, c, le);
      assert a == [a[0]] + a[1..] && a + b == [a[0]] + (a[1..] + b);
      EquivsCons(a[0], a[1..], c, le);
      EquivsCons(a[0], a[1..] + b, c, le);
    }
  }

  lemma {:induction false} EquivsNone<T>(s: seq<T>, c: T, le: (T, T) -> bool)
    requires forall i :: 0 <= i < |s| ==> !Equiv(le, c, s[i])
    ensures Equivs(s, c, le) == []
  {
    if s != [] {
      EquivsNone(s[1..], c, le);
    }
  }

  /** `Insert` puts `x` after the leading run of elements not above it. */
  lemma {:induction false} InsertSplit<T>(x: T, s: seq<T>, le: (T, T) -> bool) returns (p: nat)
    ensures p <= |s| && Insert(x, s, le) == s[..p] + [x] + s[p..]
    ensures forall i :: 0 <= i < p ==> le(s[i], x)
    ensures p < |s| ==> !le(s[p], x)
  {
    if s == [] || !le(s[0], x) {
      p := 0;
    } else {
      var q := InsertSplit(x, s[1..], le);
      p := q + 1;
      assert s[..p] == [s[0]] + s[1..][..q];
      assert s[p..] == s[1..][q..];
    }
  }

  lemma {:induction false} InsertEquivs<T(!new)>(x: T, s: seq<T>, c: T, le: (T, T) -> bool)
    requires TotalPreorder(le)
    requires SortedBy(s, le)
    ensures Equivs(Insert(x, s, le), c, le) ==
              Equivs(s, c, le) + (if Equiv(le, c, x) then [x] else [])
  {
    var p := InsertSplit(x, s, le);
    EquivsAppend(s[..p] + [x], s[p..], c, le);
    EquivsAppend(s[..p], [x], c, le);
    EquivsAppend(s[..p], s[p..], c, le);
    assert s[..p] + s[p..] == s;
    if Equiv(le, c, x) {
      forall j | 0 <= j < |s[p..]|
        ensures !Equiv(le, c, s[p..][j])
      {
        // s[p] is above x, and so is everything after it; x is equivalent to c.
        assert !le(s[p], x);
        assert j == 0 || le(s[p], s[p + j]);
      }
      EquivsNone(s[p..], c, le);
    }
  }

  /** `sorted` is stable: the elements equal to any `c` come out in input order. */
  lemma {:induction false} SortByStable<T(!new)>(s: seq<T>, c: T, le: (T, T) -> bool)
    requires TotalPreorder(le)
    ensures Equivs(SortBy(s, le), c, le) == Equivs(s, c, le)
  {
    if s != [] {
      var n := |s| - 1;
      SortByStable(s[..n], c, le);
      SortBySorted(s[..n], le);
      InsertEquivs(s[n], SortBy(s[..n], le), c, le);
      EquivsAppend(s[..n], [s[n]], c, le);
      assert s[..n] + [s[n]] == s;
    }
  }

  // ---------------------------------------------------------------------
  // Lexicographic order of strings by code point, as Python compares str.

  predicate StrLe(a: string, b: string)
    decreases |a|
  {
    a == [] || (b != [] && (a[0] < b[0] || (a[0] == b[0] && StrLe(a[1..], b[1..]))))
  }

  lemma {:induction false} StrLeTotal(a: string, b: string)
    ensures StrLe(a, b) || StrLe(b, a)
    decreases |a|
  {
    if a != [] && b != [] && a[0] == b[0] {
      StrLeTotal(a[1..], b[1..]);
    }
  }

  lemma {:induction false} StrLeTrans(a: string, b: string, c: string)
    requires StrLe(a, b) && StrLe(b, c)
    ensures StrLe(a, c)
    decreases |a|
  {
    if a != [] && a[0] == b[0] && b[0] == c[0] {
      StrLeTrans(a[1..], b[1..], c[1..]);
    }
  }

  lemma StrLeIsPreorder()
    ensures TotalPreorder(StrLe)
  {
    forall a: string, b: string ensures StrLe(a, b) || StrLe(b, a) {
      StrLeTotal(a, b);
    }
    forall a: string, b: string, c: string | StrLe(a, b) && StrLe(b, c) ensures StrLe(a, c) {
      StrLeTrans(a, b, c);
    }
  }

  predicate IntLe(a: int, b: int)
  {
    a <= b
  }

  lemma IntLeIsPreorder()
    ensures TotalPreorder(IntLe)
  {
  }
}
