/** `Array.prototype.sort` with a comparator, as a stable insertion sort.
    `le(a, b)` stands for "the comparator does not put b before a", that is
    `compare(a, b) <= 0`. */
module Sorting {

  /** A comparator that is total and transitive. */
  ghost predicate TotalPreorder<T(!new)>(le: (T, T) -> bool) {
    && (forall a, b :: le(a, b) || le(b, a))
    && (forall a, b, c :: le(a, b) && le(b, c) ==> le(a, c))
  }

  predicate Sorted<T>(s: seq<T>, le: (T, T) -> bool) {
    forall i, j :: 0 <= i < j < |s| ==> le(s[i], s[j])
  }

  /** Puts `x` in front of the first element it may precede. */
  function Insert<T>(x: T, s: seq<T>, le: (T, T) -> bool): (r: seq<T>)
    ensures multiset(r) == multiset(s) + multiset{x}
  {
    if s == [] then [x]
    else if le(x, s[0]) then [x] + s
    else
      assert s == [s[0]] + s[1..];
      [s[0]] + Insert(x, s[1..], le)
  }

  /** The sorted copy of `s`; elements the comparator ties keep their
      relative order (`SortStable`). */
  function Sort<T>(s: seq<T>, le: (T, T) -> bool): (r: seq<T>)
    ensures multiset(r) == multiset(s)
  {
    if s == [] then []
    else
      assert s == [s[0]] + s[1..];
      Insert(s[0], Sort(s[1..], le), le)
  }

  lemma {:induction false} InsertSorted<T(!new)>(x: T, s: seq<T>, le: (T, T) -> bool)
    requires TotalPreorder(le)
    requires Sorted(s, le)
    ensures Sorted(Insert(x, s, le), le)
  {
    if s != [] && !le(x, s[0]) {
      var tail := Insert(x, s[1..], le);
      InsertSorted(x, s[1..], le);
      assert le(s[0], x);
      forall k | 0 <= k < |tail| ensures le(s[0], tail[k]) {
        assert tail[k] in multiset(tail);
        if tail[k] != x {
          assert tail[k] in multiset(s[1..]);
          var m :| 0 <= m < |s[1..]| && s[1..][m] == tail[k];
          assert s[m + 1] == tail[k];
        }
      }
    }
  }

  /** The result of Sort is ordered by the comparator. */
  lemma {:induction false} SortSorted<T(!new)>(s: seq<T>, le: (T, T) -> bool)
    requires TotalPreorder(le)
    ensures Sorted(Sort(s, le), le)
  {
    if s != [] {
      SortSorted(s[1..], le);
      InsertSorted(s[0], Sort(s[1..], le), le);
    }
  }

  /** The elements of `s` that the comparator ties with `c`, in order. */
  function Ties<T>(s: seq<T>, le: (T, T) -> bool, c: T): (r: seq<T>)
    ensures |r| <= |s|
  {
    if s == [] then []
    else (if le(s[0], c) && le(c, s[0]) then [s[0]] else []) + Ties(s[1..], le, c)
  }

  /** The elements tied with `c` are in order either way. */
  ghost predicate TiesOrdered<T(!new)>(le: (T, T) -> bool, c: T) {
    forall a, b :: le(a, c) && le(c, a) && le(b, c) && le(c, b) ==> le(a, b)
  }

  lemma TotalPreorderTiesOrdered<T(!new)>(le: (T, T) -> bool, c: T)
    requires TotalPreorder(le)
    ensures TiesOrdered(le, c)
  {
  }

  /** The tie list of a single element. */
  lemma TiesOne<T>(x: T, le: (T, T) -> bool, c: T)
    ensures Ties([x], le, c) == if le(x, c) && le(c, x) then [x] else []
  {
    assert Ties([x], le, c) == (if le(x, c) && le(c, x) then [x] else []) + Ties([], le, c);
  }

  /** The tie list of a non-empty list: its head's, then its tail's. */
  lemma TiesCons<T>(s: seq<T>, le: (T, T) -> bool, c: T)
    requires s != []
    ensures Ties(s, le, c) == Ties([s[0]], le, c) + Ties(s[1..], le, c)
  {
    TiesOne(s[0], le, c);
  }

  /** The step where `x` goes past the head of `s`: the head does not tie
      with `c` together with `x`, so their tie lists commute. */
  lemma InsertTiesSkip<T>(x: T, s: seq<T>, le: (T, T) -> bool, c: T)
    requires s != [] && !le(x, s[0])
    requires Ties([x], le, c) == [] || Ties([s[0]], le, c) == []
    requires Ties(Insert(x, s[1..], le), le, c) == Ties([x], le, c) + Ties(s[1..], le, c)
    ensures Ties(Insert(x, s, le), le, c) == Ties([x], le, c) + Ties(s, le, c)
  {
    var r := Insert(x, s, le);
    assert r[0] == s[0] && r[1..] == Insert(x, s[1..], le);
    TiesCons(r, le, c);
    TiesCons(s, le, c);
    SwapEmpty(Ties([s[0]], le, c), Ties([x], le, c), Ties(s[1..], le, c));
  }

  /** Two lists one of which is empty can be swapped in front of a third. */
  lemma SwapEmpty<T>(a: seq<T>, b: seq<T>, rest: seq<T>)
    requires a == [] || b == []
    ensures a + (b + rest) == b + (a + rest)
  {
    if a == [] {
      assert [] + (b + rest) == b + rest == b + ([] + rest);
    } else {
      assert a + ([] + rest) == a + rest == [] + (a + rest);
    }
  }

  /** Inserting `x` puts it in front of every element of `s` it ties with,
      since it goes in before the first element it may precede; the other
      tied elements keep their order. */
  lemma {:induction false} InsertTies<T(!new)>(x: T, s: seq<T>, le: (T, T) -> bool, c: T)
    requires TiesOrdered(le, c)
    ensures Ties(Insert(x, s, le), le, c) == Ties([x], le, c) + Ties(s, le, c)
  {
    TiesOne(x, le, c);
    if s == [] {
      assert Insert(x, s, le) == [x] && [x] + s == [x];
    } else if le(x, s[0]) {
      assert Insert(x, s, le) == [x] + s;
      TiesCons([x] + s, le, c);
      assert ([x] + s)[1..] == s;
    } else {
      TiesOne(s[0], le, c);
      InsertTies(x, s[1..], le, c);
      InsertTiesSkip(x, s, le, c);
    }
  }

  /** The sort is stable: the elements tied with any `c` come out in the
      order they went in. */
  lemma {:induction false} SortStable<T(!new)>(s: seq<T>, le: (T, T) -> bool, c: T)
    requires TotalPreorder(le)
    ensures Ties(Sort(s, le), le, c) == Ties(s, le, c)
  {
    if s != [] {
      SortStable(s[1..], le, c);
      TotalPreorderTiesOrdered(le, c);
      InsertTies(s[0], Sort(s[1..], le), le, c);
    }
  }
}
