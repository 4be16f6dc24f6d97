/** Option and Result, and the three list combinators the rest of the model is
    written with: Filter (Array.prototype.filter, and a `delete ... eq(...)` on a
    table), MapWhere (an `update ... eq(...)` on a table) and Count. */
module Base {

  datatype Option<+T> = None | Some(value: T)

  datatype Result<+T, +E> = Ok(value: T) | Err(error: E)

  /** The rows of `s` that satisfy `p`, in their original order. */
  function Filter<T(!new)>(s: seq<T>, p: T -> bool): (r: seq<T>)
    ensures |r| <= |s|
    ensures forall x :: x in r <==> x in s && p(x)
    ensures forall k :: 0 <= k < |r| ==> p(r[k])
  {
    if s == [] then []
    else if p(s[0]) then [s[0]] + Filter(s[1..], p)
    else Filter(s[1..], p)
  }

  /** Every row that satisfies `p` replaced by `f` of it; the others untouched. */
  function MapWhere<T>(s: seq<T>, p: T -> bool, f: T -> T): (r: seq<T>)
    ensures |r| == |s|
    ensures forall k :: 0 <= k < |s| ==> r[k] == if p(s[k]) then f(s[k]) else s[k]
  {
    if s == [] then []
    else [if p(s[0]) then f(s[0]) else s[0]] + MapWhere(s[1..], p, f)
  }

  /** The number of rows of `s` that satisfy `p`. */
  function Count<T>(s: seq<T>, p: T -> bool): nat
  {
    if s == [] then 0
    else (if p(s[0]) then 1 else 0) + Count(s[1..], p)
  }

  lemma {:induction false} CountIsFilterLength<T(!new)>(s: seq<T>, p: T -> bool)
    ensures Count(s, p) == |Filter(s, p)|
  {
    if s != [] {
      CountIsFilterLength(s[1..], p);
    }
  }

  lemma {:induction false} CountZero<T>(s: seq<T>, p: T -> bool)
    ensures Count(s, p) == 0 <==> forall k :: 0 <= k < |s| ==> !p(s[k])
  {
    if s != [] {
      CountZero(s[1..], p);
      if Count(s, p) == 0 {
        forall k | 0 <= k < |s| ensures !p(s[k]) {
          if k > 0 { assert s[k] == s[1..][k - 1]; }
        }
      } else if !p(s[0]) {
        var k :| 0 <= k < |s[1..]| && p(s[1..][k]);
        assert s[k + 1] == s[1..][k];
      }
    }
  }

  /** Rows satisfying `p` split `s` into two parts that add up to the whole. */
  lemma {:induction false} FilterSplits<T(!new)>(s: seq<T>, p: T -> bool, q: T -> bool)
    requires forall x :: q(x) <==> !p(x)
    ensures |Filter(s, p)| + |Filter(s, q)| == |s|
    ensures multiset(Filter(s, p)) + multiset(Filter(s, q)) == multiset(s)
  {
    if s != [] {
      FilterSplits(s[1..], p, q);
      assert s == [s[0]] + s[1..];
    }
  }

  /** An update that leaves no row satisfying its own condition afterwards. */
  lemma {:induction false} MapWhereClears<T>(s: seq<T>, p: T -> bool, f: T -> T)
    requires forall x :: p(x) ==> !p(f(x))
    ensures Count(MapWhere(s, p, f), p) == 0
  {
    if s != [] {
      MapWhereClears(s[1..], p, f);
      assert MapWhere(s, p, f)[1..] == MapWhere(s[1..], p, f);
    }
  }

  /** An update whose condition holds nowhere changes nothing. */
  lemma {:induction false} MapWhereNoMatch<T>(s: seq<T>, p: T -> bool, f: T -> T)
    requires Count(s, p) == 0
    ensures MapWhere(s, p, f) == s
  {
    if s != [] {
      MapWhereNoMatch(s[1..], p, f);
    }
  }

  /** Rows that an update does not touch keep their own filter results:
      if neither the old nor the new version of an updated row satisfies `q`,
      filtering by `q` sees the same rows before and after. */
  lemma {:induction false} FilterAfterMapWhere<T(!new)>(s: seq<T>, p: T -> bool, f: T -> T, q: T -> bool)
    requires forall x :: p(x) ==> !q(x) && !q(f(x))
    ensures Filter(MapWhere(s, p, f), q) == Filter(s, q)
  {
    if s != [] {
      FilterAfterMapWhere(s[1..], p, f, q);
      assert MapWhere(s, p, f)[1..] == MapWhere(s[1..], p, f);
    }
  }

  /** An update counted by the rows it turns into `q`-rows: when `f` makes every
      `p`-row a `q`-row and `p` and `q` never hold together, the new count of
      `q`-rows is the old one plus the number of updated rows. */
  lemma {:induction false} MapWhereCountMoves<T>(s: seq<T>, p: T -> bool, f: T -> T, q: T -> bool)
    requires forall x :: p(x) ==> q(f(x)) && !q(x)
    ensures Count(MapWhere(s, p, f), q) == Count(s, q) + Count(s, p)
  {
    if s != [] {
      MapWhereCountMoves(s[1..], p, f, q);
      assert MapWhere(s, p, f)[1..] == MapWhere(s[1..], p, f);
    }
  }

  /** Both conditions at once. */
  function Both<T>(p: T -> bool, q: T -> bool): T -> bool
  {
    x => p(x) && q(x)
  }

  /** Filtering distributes over concatenation. */
  lemma {:induction false} FilterConcat<T(!new)>(a: seq<T>, b: seq<T>, p: T -> bool)
    ensures Filter(a + b, p) == Filter(a, p) + Filter(b, p)
  {
    if a == [] {
      assert a + b == b;
    } else {
      var x, t := a[0], a[1..];
      assert a == [x] + t;
      assert a + b == [x] + (t + b);
      FilterConcat(t, b, p);
      FilterCons(x, t + b, p);
      FilterCons(x, t, p);
      ConcatAssociates(if p(x) then [x] else [], Filter(t, p), Filter(b, p));
    }
  }

  lemma ConcatAssociates<T>(a: seq<T>, b: seq<T>, c: seq<T>)
    ensures (a + b) + c == a + (b + c)
  {
  }

  lemma FilterCons<T(!new)>(x: T, s: seq<T>, p: T -> bool)
    ensures Filter([x] + s, p) == (if p(x) then [x] else []) + Filter(s, p)
  {
    assert ([x] + s)[1..] == s;
  }

  /** Filtering twice is filtering once by both conditions. */
  lemma {:induction false} FilterFilter<T(!new)>(s: seq<T>, p: T -> bool, q: T -> bool)
    ensures Filter(Filter(s, p), q) == Filter(s, Both(p, q))
  {
    if s != [] {
      FilterFilter(s[1..], p, q);
    }
  }

  /** Where the `i`-th row of a twice-filtered sequence comes from. */
  lemma FilteredTwiceSource<T(!new)>(s: seq<T>, p: T -> bool, q: T -> bool, i: nat) returns (k: nat)
    requires i < |Filter(Filter(s, p), q)|
    ensures k < |s| && s[k] == Filter(Filter(s, p), q)[i] && p(s[k]) && q(s[k])
  {
    var x := Filter(Filter(s, p), q)[i];
    assert x in Filter(s, p);
    k :| 0 <= k < |s| && s[k] == x;
  }

  /** A condition every row satisfies keeps the whole sequence. */
  lemma {:induction false} FilterKeepsAll<T(!new)>(s: seq<T>, p: T -> bool)
    requires forall k :: 0 <= k < |s| ==> p(s[k])
    ensures Filter(s, p) == s
  {
    if s != [] {
      FilterKeepsAll(s[1..], p);
    }
  }
}
