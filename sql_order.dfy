/** The parts of SQLite's query evaluation the list queries rely on: text
    compared byte by byte (the default BINARY collation), `ORDER BY ...
    DESC`, and `LIMIT ... OFFSET ...`. */
module SqlOrder {

  // ---------------------------------------------------------------------
  // Text order

  /** `a <= b` under byte-wise comparison: a proper prefix sorts first. */
  predicate TextLe(a: string, b: string)
    decreases |a|
  {
    |a| == 0 || (|b| > 0 && (a[0] < b[0] || (a[0] == b[0] && TextLe(a[1..], b[1..]))))
  }

  lemma {:induction false} TextLeTotal(a: string, b: string)
    ensures TextLe(a, b) || TextLe(b, a)
    decreases |a|
  {
    if |a| > 0 && |b| > 0 && a[0] == b[0] {
      TextLeTotal(a[1..], b[1..]);
    }
  }

  lemma {:induction false} TextLeTransitive(a: string, b: string, c: string)
    requires TextLe(a, b) && TextLe(b, c)
    ensures TextLe(a, c)
    decreases |a|
  {
    if |a| > 0 && a[0] == b[0] && b[0] == c[0] {
      TextLeTransitive(a[1..], b[1..], c[1..]);
    }
  }

  lemma {:induction false} TextLeAntisymmetric(a: string, b: string)
    requires TextLe(a, b) && TextLe(b, a)
    ensures a == b
    decreases |a|
  {
    if |a| > 0 {
      TextLeAntisymmetric(a[1..], b[1..]);
      assert a == [a[0]] + a[1..] && b == [b[0]] + b[1..];
    }
  }

  // ---------------------------------------------------------------------
  // ORDER BY key DESC

  /** Every row's key is at least the key of each row after it. */
  ghost predicate SortedDesc<T>(s: seq<T>, key: T -> string)
  {
    forall i, j :: 0 <= i < j < |s| ==> TextLe(key(s[j]), key(s[i]))
  }

  /** Places `x` after the rows whose key is at least its own, so rows with
      equal keys keep their table order. */
  function InsertDesc<T>(x: T, s: seq<T>, key: T -> string): (r: seq<T>)
    ensures |r| == |s| + 1
  {
    if |s| == 0 then [x]
    else if TextLe(key(x), key(s[0])) then [s[0]] + InsertDesc(x, s[1..], key)
    else [x] + s
  }

  /** The rows in descending key order. SQLite leaves the order of rows
      with equal keys open; here they stay in table order. */
  function SortDesc<T>(s: seq<T>, key: T -> string): (r: seq<T>)
    ensures |r| == |s|
  {
    if |s| == 0 then []
    else InsertDesc(s[|s| - 1], SortDesc(s[..|s| - 1], key), key)
  }

  lemma {:induction false} InsertDescMultiset<T>(x: T, s: seq<T>, key: T -> string)
    ensures multiset(InsertDesc(x, s, key)) == multiset(s) + multiset{x}
    decreases |s|
  {
    if |s| > 0 {
      assert s == [s[0]] + s[1..];
      if TextLe(key(x), key(s[0])) {
        InsertDescMultiset(x, s[1..], key);
      }
    }
  }

  lemma {:induction false} InsertDescSorted<T>(x: T, s: seq<T>, key: T -> string)
    requires SortedDesc(s, key)
    ensures SortedDesc(InsertDesc(x, s, key), key)
    decreases |s|
  {
    if |s| > 0 {
      var r := InsertDesc(x, s, key);
      if TextLe(key(x), key(s[0])) {
        var tail := InsertDesc(x, s[1..], key);
        assert SortedDesc(s[1..], key);
        InsertDescSorted(x, s[1..], key);
        InsertDescMultiset(x, s[1..], key);
        forall k | 0 <= k < |tail|
          ensures TextLe(key(tail[k]), key(s[0]))
        {
          assert tail[k] in multiset(tail);
          if tail[k] != x {
            assert tail[k] in multiset(s[1..]);
            var m :| 0 <= m < |s[1..]| && s[1..][m] == tail[k];
            assert s[m + 1] == tail[k];
          }
        }
        assert r == [s[0]] + tail;
        forall i, j | 0 <= i < j < |r|
          ensures TextLe(key(r[j]), key(r[i]))
        {
          if i == 0 {
            assert r[j] == tail[j - 1];
          } else {
            assert r[i] == tail[i - 1] && r[j] == tail[j - 1];
          }
        }
      } else {
        TextLeTotal(key(x), key(s[0]));
        forall i, j | 0 <= i < j < |r|
          ensures TextLe(key(r[j]), key(r[i]))
        {
          if i == 0 {
            assert r[j] == s[j - 1];
            if j - 1 > 0 {
              TextLeTransitive(key(s[j - 1]), key(s[0]), key(x));
            }
          } else {
            assert r[i] == s[i - 1] && r[j] == s[j - 1];
          }
        }
      }
    }
  }

  /** Sorting returns the same rows, in descending key order. */
  lemma {:induction false} SortDescCorrect<T>(s: seq<T>, key: T -> string)
    ensures SortedDesc(SortDesc(s, key), key)
    ensures multiset(SortDesc(s, key)) == multiset(s)
    decreases |s|
  {
    if |s| > 0 {
      var init := s[..|s| - 1];
      SortDescCorrect(init, key);
      InsertDescSorted(s[|s| - 1], SortDesc(init, key), key);
      InsertDescMultiset(s[|s| - 1], SortDesc(init, key), key);
      assert s == init + [s[|s| - 1]];
    }
  }

  // ---------------------------------------------------------------------
  // LIMIT limit OFFSET offset

  /** The first row kept: a negative offset counts as zero. */
  function Skip(offset: int, n: nat): (o: nat)
    ensures o <= n
  {
    if offset < 0 then 0 else if offset > n then n else offset
  }

  /** The rows after the first `offset`, at most `limit` of them; a
      negative limit means no bound. */
  function Page<T>(s: seq<T>, offset: int, limit: int): (r: seq<T>)
    ensures limit >= 0 ==> |r| <= limit
    ensures var o := Skip(offset, |s|);
            o + |r| <= |s| && r == s[o..o + |r|]
            && (limit < 0 || limit >= |s| - o ==> |r| == |s| - o)
            && (0 <= limit < |s| - o ==> |r| == limit)
  {
    var o := Skip(offset, |s|);
    if limit < 0 || limit >= |s| - o then s[o..] else s[o..o + limit]
  }

  /** Two pages read one after the other are the page covering both. */
  lemma PageConcat<T>(s: seq<T>, offset: nat, a: nat, b: nat)
    ensures Page(s, offset, a) + Page(s, offset + a, b) == Page(s, offset, a + b)
  {
    var o := Skip(offset, |s|);
    var p := Page(s, offset, a);
    var q := Page(s, offset + a, b);
    var r := Page(s, offset, a + b);
    assert Skip(offset + a, |s|) == o + |p|;
    assert |r| == |p| + |q|;
    forall k | 0 <= k < |r|
      ensures (p + q)[k] == r[k]
    {
      if k < |p| {
        assert p[k] == s[o + k];
      } else {
        assert q[k - |p|] == s[o + k];
      }
    }
  }

  /** A page holds rows of the input only. */
  lemma PageRows<T>(s: seq<T>, offset: int, limit: int)
    ensures forall x :: x in Page(s, offset, limit) ==> x in s
  {
    var o := Skip(offset, |s|);
    var r := Page(s, offset, limit);
    forall x | x in r
      ensures x in s
    {
      var k :| 0 <= k < |r| && r[k] == x;
      assert s[o + k] == x;
    }
  }

  /** A page of sorted rows is sorted. */
  lemma PageSorted<T>(s: seq<T>, offset: int, limit: int, key: T -> string)
    requires SortedDesc(s, key)
    ensures SortedDesc(Page(s, offset, limit), key)
  {
    var o := Skip(offset, |s|);
    var r := Page(s, offset, limit);
    forall i, j | 0 <= i < j < |r|
      ensures TextLe(key(r[j]), key(r[i]))
    {
      assert r[i] == s[o + i] && r[j] == s[o + j];
    }
  }

  /** A page of the sorted rows is a run of a descending ordering of all
      the rows: the one after the first `offset`, exactly `limit` long when
      that many remain, and all that remain otherwise. */
  lemma SortedPage<T>(s: seq<T>, key: T -> string, offset: int, limit: int)
    ensures multiset(SortDesc(s, key)) == multiset(s) && SortedDesc(SortDesc(s, key), key)
    ensures RunAfter(Page(SortDesc(s, key), offset, limit), SortDesc(s, key), offset, limit)
  {
    var sorted := SortDesc(s, key);
    SortDescCorrect(s, key);
    PageRun(sorted, offset, limit);
  }

  /** `r` is the run of `s` after its first `offset` rows, exactly `limit`
      long when that many remain and all that remain otherwise. */
  ghost predicate RunAfter<T>(r: seq<T>, s: seq<T>, offset: int, limit: int)
  {
    var o := Skip(offset, |s|);
    r == s[o..o + if 0 <= limit < |s| - o then limit else |s| - o]
  }

  /** A page is the run of rows after the first `offset`, exactly `limit`
      long when that many remain. */
  lemma PageRun<T>(s: seq<T>, offset: int, limit: int)
    ensures RunAfter(Page(s, offset, limit), s, offset, limit)
  {
  }

  /** Without an offset or a limit the page is everything. */
  lemma PageAll<T>(s: seq<T>, offset: int, limit: int)
    requires offset <= 0 && limit < 0
    ensures Page(s, offset, limit) == s
  {
  }
}
