/** Python's `sorted` and `list.sort`: stable sorting by an order given as a relation. When the order tells
    all elements apart, the result depends on the multiset of elements only. */
module Sorting {
  /** Any two elements of s are comparable, and comparing is transitive on s. */
  ghost predicate Ordering<T(!new)>(le: (T, T) -> bool) {
    && (forall x, y :: le(x, y) || le(y, x))
    && (forall x, y, z :: le(x, y) && le(y, z) ==> le(x, z))
  }

  ghost predicate Ascending<T>(s: seq<T>, le: (T, T) -> bool) {
    forall i, j :: 0 <= i < j < |s| ==> le(s[i], s[j])
  }

  /** Different elements of the multiset never tie. */
  ghost predicate TellsApart<T(!new)>(m: multiset<T>, le: (T, T) -> bool) {
    forall x, y :: x in m && y in m && le(x, y) && le(y, x) ==> x == y
  }

  function Insert<T>(x: T, s: seq<T>, le: (T, T) -> bool): (r: seq<T>)
    ensures |r| == |s| + 1
    ensures multiset(r) == multiset(s) + multiset{x}
  {
    if s == [] || le(x, s[0]) then [x] + s
    else
      assert s == [s[0]] + s[1..];
      [s[0]] + Insert(x, s[1..], le)
  }

  function Sort<T>(s: seq<T>, le: (T, T) -> bool): (r: seq<T>)
    ensures |r| == |s|
    ensures multiset(r) == multiset(s)
  {
    if s == [] then []
    else
      assert s == [s[0]] + s[1..];
      Insert(s[0], Sort(s[1..], le), le)
  }

  lemma SameElements<T>(a: seq<T>, b: seq<T>, x: T)
    requires multiset(a) == multiset(b)
    ensures x in a <==> x in b
  {
    assert x in a <==> x in multiset(a);
    assert x in b <==> x in multiset(b);
  }

  lemma {:induction false} InsertKeepsAscending<T(!new)>(x: T, s: seq<T>, le: (T, T) -> bool)
    requires Ordering(le) && Ascending(s, le)
    ensures Ascending(Insert(x, s, le), le)
  {
    var r := Insert(x, s, le);
    if s != [] && !le(x, s[0]) {
      InsertKeepsAscending(x, s[1..], le);
      var tail := Insert(x, s[1..], le);
      forall j | 0 <= j < |tail| ensures le(s[0], tail[j]) {
        assert tail[j] in multiset(tail);
        assert tail[j] == x || tail[j] in s[1..];
      }
      assert r == [s[0]] + tail;
    }
  }

  lemma {:induction false} SortIsAscending<T(!new)>(s: seq<T>, le: (T, T) -> bool)
    requires Ordering(le)
    ensures Ascending(Sort(s, le), le)
  {
    if s != [] {
      SortIsAscending(s[1..], le);
      InsertKeepsAscending(s[0], Sort(s[1..], le), le);
    }
  }

  lemma LeastComesFirst<T(!new)>(a: seq<T>, x: T, le: (T, T) -> bool)
    requires Ascending(a, le) && Ordering(le) && x in a
    ensures le(a[0], x)
  {
    var k :| 0 <= k < |a| && a[k] == x;
    if k == 0 {
      assert le(x, x) || le(x, x);
    }
  }

  lemma HeadsAgree<T(!new)>(a: seq<T>, b: seq<T>, le: (T, T) -> bool)
    requires Ascending(a, le) && Ascending(b, le) && multiset(a) == multiset(b) && a != [] && b != []
    requires Ordering(le) && TellsApart(multiset(a), le)
    ensures a[0] == b[0]
  {
    SameElements(a, b, a[0]);
    SameElements(a, b, b[0]);
    LeastComesFirst(a, b[0], le);
    LeastComesFirst(b, a[0], le);
    assert a[0] in multiset(a) && b[0] in multiset(a);
  }

  lemma TailElements<T>(a: seq<T>)
    requires a != []
    ensures multiset(a) == multiset(a[1..]) + multiset{a[0]}
  {
    assert a == [a[0]] + a[1..];
  }

  lemma CancelOne<T>(m: multiset<T>, n: multiset<T>, x: T)
    requires m + multiset{x} == n + multiset{x}
    ensures m == n
  {
    assert m == (m + multiset{x}) - multiset{x};
  }

  lemma TailQualifies<T(!new)>(a: seq<T>, le: (T, T) -> bool)
    requires a != [] && Ascending(a, le) && TellsApart(multiset(a), le)
    ensures Ascending(a[1..], le) && TellsApart(multiset(a[1..]), le)
  {
    forall x | x in multiset(a[1..]) ensures x in multiset(a) {
      assert x in a[1..];
    }
  }

  lemma SameLength<T>(a: seq<T>, b: seq<T>)
    requires multiset(a) == multiset(b)
    ensures |a| == |b|
  {
    assert |a| == |multiset(a)| == |multiset(b)| == |b|;
  }

  /** There is only one ascending arrangement of elements that the order tells apart. */
  lemma {:induction false} AscendingIsUnique<T(!new)>(a: seq<T>, b: seq<T>, le: (T, T) -> bool)
    requires Ascending(a, le) && Ascending(b, le) && multiset(a) == multiset(b)
    requires Ordering(le) && TellsApart(multiset(a), le)
    ensures a == b
  {
    hide *;
    SameLength(a, b);
    if a != [] {
      HeadsAgree(a, b, le);
      TailElements(a);
      TailElements(b);
      CancelOne(multiset(a[1..]), multiset(b[1..]), a[0]);
      TailQualifies(a, le);
      TailQualifies(b, le);
      AscendingIsUnique(a[1..], b[1..], le);
      assert a == [a[0]] + a[1..] && b == [b[0]] + b[1..];
    }
  }

  /** Sorting forgets the order of the input. */
  lemma SortForgetsOrder<T(!new)>(a: seq<T>, b: seq<T>, le: (T, T) -> bool)
    requires Ordering(le) && multiset(a) == multiset(b) && TellsApart(multiset(a), le)
    ensures Sort(a, le) == Sort(b, le)
  {
    SortIsAscending(a, le);
    SortIsAscending(b, le);
    AscendingIsUnique(Sort(a, le), Sort(b, le), le);
  }

  /** Elements at different places of s differ in their keys. */
  ghost predicate DistinctKeys<T, K>(s: seq<T>, key: T -> K) {
    forall i, j :: 0 <= i < j < |s| ==> key(s[i]) != key(s[j])
  }

  lemma {:induction false} TwicePresent<T>(s: seq<T>, x: T) returns (i: nat, j: nat)
    requires multiset(s)[x] >= 2
    ensures i < j < |s| && s[i] == x && s[j] == x
  {
    assert s == [s[0]] + s[1..];
    if s[0] == x {
      assert x in multiset(s[1..]);
      j :| 1 <= j < |s| && s[j] == x;
      i := 0;
    } else {
      i, j := TwicePresent(s[1..], x);
      i, j := i + 1, j + 1;
    }
  }

  lemma TwiceCounted<T>(s: seq<T>, i: nat, j: nat)
    requires i < j < |s| && s[i] == s[j]
    ensures multiset(s)[s[i]] >= 2
  {
    assert s == s[..j] + s[j..];
    assert s[i] == s[..j][i] && s[i] in multiset(s[..j]);
    assert s[j] == s[j..][0] && s[j] in multiset(s[j..]);
  }

  /** Whether keys are distinct does not depend on the order either. */
  lemma DistinctKeysForgetOrder<T, K>(a: seq<T>, b: seq<T>, key: T -> K)
    requires multiset(a) == multiset(b) && DistinctKeys(a, key)
    ensures DistinctKeys(b, key)
  {
    forall i, j | 0 <= i < j < |b| ensures key(b[i]) != key(b[j]) {
      if b[i] == b[j] {
        TwiceCounted(b, i, j);
        var k, l := TwicePresent(a, b[i]);
        assert false;
      } else {
        SameElements(a, b, b[i]);
        SameElements(a, b, b[j]);
        var k :| 0 <= k < |a| && a[k] == b[i];
        var l :| 0 <= l < |a| && a[l] == b[j];
        assert key(a[if k < l then k else l]) != key(a[if k < l then l else k]);
      }
    }
  }

  /** The order of `list.sort(key=...)` for integer keys. */
  function ByKey<T>(key: T -> int): (T, T) -> bool {
    (x, y) => key(x) <= key(y)
  }

  /** An order by distinct integer keys tells the elements apart. */
  lemma DistinctKeysTellApart<T(!new)>(s: seq<T>, key: T -> int)
    requires DistinctKeys(s, key)
    ensures Ordering(ByKey(key)) && TellsApart(multiset(s), ByKey(key))
  {
    forall x, y | x in multiset(s) && y in multiset(s) && key(x) == key(y) ensures x == y {
      var i :| 0 <= i < |s| && s[i] == x;
      var j :| 0 <= j < |s| && s[j] == y;
      assert i == j;
    }
  }

  // ----- comparing sequences -----

  /** The order in which Python compares strings and byte strings, on code points or bytes. */
  predicate Lex(a: seq<int>, b: seq<int>) {
    a == [] || (b != [] && (a[0] < b[0] || (a[0] == b[0] && Lex(a[1..], b[1..]))))
  }

  lemma {:induction false} LexIsTotal(a: seq<int>, b: seq<int>)
    ensures Lex(a, b) || Lex(b, a)
    ensures Lex(a, b) && Lex(b, a) ==> a == b
  {
    if a != [] && b != [] && a[0] == b[0] {
      LexIsTotal(a[1..], b[1..]);
      assert a == [a[0]] + a[1..] && b == [b[0]] + b[1..];
    }
  }

  lemma {:induction false} LexIsTransitive(a: seq<int>, b: seq<int>, c: seq<int>)
    requires Lex(a, b) && Lex(b, c)
    ensures Lex(a, c)
  {
    if a != [] && a[0] == b[0] == c[0] {
      LexIsTransitive(a[1..], b[1..], c[1..]);
    }
  }

  function Points(s: string): seq<int> {
    seq(|s|, i requires 0 <= i < |s| => s[i] as int)
  }

  lemma PointsTellTexts(a: string, b: string)
    requires Points(a) == Points(b)
    ensures a == b
  {
    assert |Points(a)| == |a| && |Points(b)| == |b|;
    forall i | 0 <= i < |a| ensures a[i] == b[i] {
      assert Points(a)[i] == Points(b)[i];
    }
  }

  /** Texts in Python's order. */
  function ByText(): (string, string) -> bool {
    (a, b) => Lex(Points(a), Points(b))
  }

  lemma TextsAreOrdered(m: multiset<string>)
    ensures Ordering(ByText()) && TellsApart(m, ByText())
  {
    forall x: string, y: string
      ensures ByText()(x, y) || ByText()(y, x)
      ensures ByText()(x, y) && ByText()(y, x) ==> x == y
    {
      LexIsTotal(Points(x), Points(y));
      if Points(x) == Points(y) {
        PointsTellTexts(x, y);
      }
    }
    forall x: string, y: string, z: string | ByText()(x, y) && ByText()(y, z) ensures ByText()(x, z) {
      LexIsTransitive(Points(x), Points(y), Points(z));
    }
  }

  // ----- mapping the elements -----

  function Map<S, T>(s: seq<S>, f: S -> T): (r: seq<T>)
    ensures |r| == |s| && forall i :: 0 <= i < |s| ==> r[i] == f(s[i])
  {
    if s == [] then [] else Map(s[..|s| - 1], f) + [f(s[|s| - 1])]
  }

  function Without<T>(s: seq<T>, k: int): (r: seq<T>)
    requires 0 <= k < |s|
    ensures |r| == |s| - 1
  {
    s[..k] + s[k + 1..]
  }

  lemma WithoutElements<T>(s: seq<T>, k: nat)
    requires k < |s|
    ensures multiset(s) == multiset(Without(s, k)) + multiset{s[k]}
    ensures forall x :: x in Without(s, k) ==> x in s
  {
    assert s == s[..k] + [s[k]] + s[k + 1..];
  }

  lemma MapWithout<S, T>(s: seq<S>, f: S -> T, k: nat)
    requires k < |s|
    ensures Map(Without(s, k), f) == Without(Map(s, f), k)
  {
    hide Map;
    var w, m := Without(s, k), Map(s, f);
    var l, r := Map(w, f), Without(m, k);
    assert w == s[..k] + s[k + 1..] && r == m[..k] + m[k + 1..];
    hide *;
    forall i | 0 <= i < |l| ensures l[i] == r[i] {
      if i < k {
        assert w[i] == s[i] && r[i] == m[i];
      } else {
        assert w[i] == s[i + 1] && r[i] == m[i + 1];
      }
    }
  }

  lemma ImagesWithout<S, T>(s: seq<S>, f: S -> T, k: nat)
    requires k < |s|
    ensures multiset(Map(s, f)) == multiset(Map(Without(s, k), f)) + multiset{f(s[k])}
  {
    MapWithout(s, f, k);
    WithoutElements(Map(s, f), k);
  }

  /** Rearranging the elements rearranges their images. */
  lemma {:induction false} MapForgetsOrder<S, T>(a: seq<S>, b: seq<S>, f: S -> T)
    requires multiset(a) == multiset(b)
    ensures multiset(Map(a, f)) == multiset(Map(b, f))
  {
    assert |a| == |multiset(a)| == |multiset(b)| == |b|;
    if a != [] {
      SameElements(a, b, a[0]);
      var k :| 0 <= k < |b| && b[k] == a[0];
      WithoutElements(a, 0);
      WithoutElements(b, k);
      assert multiset(Without(a, 0)) == multiset(a) - multiset{a[0]} == multiset(Without(b, k)) by { hide Without; }
      MapForgetsOrder(Without(a, 0), Without(b, k), f);
      ImagesWithout(a, f, 0);
      ImagesWithout(b, f, k);
    }
  }

  /** No two elements share an image. */
  ghost predicate Separates<S, T>(f: S -> T, a: seq<S>, b: seq<S>) {
    forall x, y :: x in a && y in b && f(x) == f(y) ==> x == y
  }

  lemma Partner<S, T>(a: seq<S>, b: seq<S>, f: S -> T) returns (k: nat)
    requires multiset(Map(a, f)) == multiset(Map(b, f)) && a != [] && Separates(f, a, b)
    ensures k < |b| && b[k] == a[0]
  {
    var fa, fb := Map(a, f), Map(b, f);
    assert fa[0] == f(a[0]);
    SameElements(fa, fb, fa[0]);
    k :| 0 <= k < |fb| && fb[k] == fa[0];
    assert b[k] in b && a[0] in a;
  }

  /** If the images are rearranged and no two elements share one, the elements are rearranged. */
  lemma {:induction false} MapTellsElements<S, T>(a: seq<S>, b: seq<S>, f: S -> T)
    requires multiset(Map(a, f)) == multiset(Map(b, f)) && Separates(f, a, b)
    ensures multiset(a) == multiset(b)
  {
    ImagesCount(a, f);
    ImagesCount(b, f);
    if a != [] {
      var k := Partner(a, b, f);
      ImagesWithout(a, f, 0);
      ImagesWithout(b, f, k);
      SeparatesWithout(f, a, b, k);
      hide Map, Without, Separates;
      CancelOne(multiset(Map(Without(a, 0), f)), multiset(Map(Without(b, k), f)), f(a[0]));
      MapTellsElements(Without(a, 0), Without(b, k), f);
      WithoutElements(a, 0);
      WithoutElements(b, k);
    }
  }

  lemma ImagesCount<S, T>(s: seq<S>, f: S -> T)
    ensures |s| == |multiset(Map(s, f))|
  {
  }

  lemma SeparatesWithout<S, T>(f: S -> T, a: seq<S>, b: seq<S>, k: nat)
    requires a != [] && k < |b| && Separates(f, a, b)
    ensures Separates(f, Without(a, 0), Without(b, k))
  {
    WithoutElements(a, 0);
    WithoutElements(b, k);
  }
}
