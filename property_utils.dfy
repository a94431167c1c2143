/**
 * The catalog utilities: filtering listings by optional bounds and equality
 * tests, and sorting a copy of a listing array by a numeric field.
 */
module PropertyUtils {
  import opened Wrappers
  import opened PropertyTypes

  /** The optional filters; a filter whose value is falsy is ignored. */
  datatype Filters = Filters(
    minPrice: Option<int>,
    maxPrice: Option<int>,
    zona: Option<string>,
    tipo: Option<string>,
    minLocali: Option<int>
  )

  /** A numeric filter is active when present and not 0 (JavaScript truthiness). */
  predicate ActiveNumber(o: Option<int>) { o.Some? && o.value != 0 }

  /** A text filter is active when present and not empty (JavaScript truthiness). */
  predicate ActiveText(o: Option<string>) { o.Some? && o.value != "" }

  /** No filter is active. */
  predicate NoActiveFilter(f: Filters)
  {
    !ActiveNumber(f.minPrice) && !ActiveNumber(f.maxPrice) && !ActiveText(f.zona)
    && !ActiveText(f.tipo) && !ActiveNumber(f.minLocali)
  }

  /** The callback given to `Array.prototype.filter`: each active filter in turn may reject. */
  predicate Keep(p: Property, f: Filters)
    ensures Keep(p, f) <==> Satisfies(p, f)
  {
    if ActiveNumber(f.minPrice) && p.prezzo < f.minPrice.value then false
    else if ActiveNumber(f.maxPrice) && p.prezzo > f.maxPrice.value then false
    else if ActiveText(f.zona) && p.zona != f.zona.value then false
    else if ActiveText(f.tipo) && p.tipo != f.tipo.value then false
    else if ActiveNumber(f.minLocali) && p.locali < f.minLocali.value then false
    else true
  }

  /** What a listing must meet: every active filter, as a bound or an equality. */
  ghost predicate Satisfies(p: Property, f: Filters)
  {
    && (ActiveNumber(f.minPrice) ==> p.prezzo >= f.minPrice.value)
    && (ActiveNumber(f.maxPrice) ==> p.prezzo <= f.maxPrice.value)
    && (ActiveText(f.zona) ==> p.zona == f.zona.value)
    && (ActiveText(f.tipo) ==> p.tipo == f.tipo.value)
    && (ActiveNumber(f.minLocali) ==> p.locali >= f.minLocali.value)
  }

  /** `r` is obtained from `s` by deleting elements, the rest keeping their order. */
  ghost predicate IsSubsequence<T>(r: seq<T>, s: seq<T>)
    decreases |s|
  {
    if s == [] then r == []
    else IsSubsequence(r, s[1..]) || (r != [] && r[0] == s[0] && IsSubsequence(r[1..], s[1..]))
  }

  /** `properties.filter(Keep)`. */
  function KeepMatching(ps: seq<Property>, f: Filters): (r: seq<Property>)
    ensures IsSubsequence(r, ps)
    ensures forall x :: x in r ==> Satisfies(x, f)
    ensures forall x :: Satisfies(x, f) ==> multiset(r)[x] == multiset(ps)[x]
    decreases |ps|
  {
    if ps == [] then []
    else
      var rest := KeepMatching(ps[1..], f);
      assert ps == [ps[0]] + ps[1..];
      assert multiset(ps) == multiset{ps[0]} + multiset(ps[1..]);
      if Keep(ps[0], f) then
        assert ([ps[0]] + rest)[1..] == rest;
        assert multiset([ps[0]] + rest) == multiset{ps[0]} + multiset(rest);
        [ps[0]] + rest
      else rest
  }

  /**
   * `filterProperties`: empty for an empty input; otherwise the listings
   * that meet every active filter, all of them, in input order.
   */
  function FilterProperties(ps: seq<Property>, f: Filters): (r: seq<Property>)
    ensures |ps| == 0 ==> r == []
    ensures IsSubsequence(r, ps)
    ensures forall x :: x in r ==> Satisfies(x, f)
    ensures forall x :: x in ps && Satisfies(x, f) ==> multiset(r)[x] == multiset(ps)[x]
    ensures forall x :: x in ps ==> (x in r <==> Satisfies(x, f))
  {
    if |ps| == 0 then [] else KeepMatching(ps, f)
  }

  /** With no active filter every listing is kept, in order. */
  lemma {:induction false} NoFilterKeepsAll(ps: seq<Property>, f: Filters)
    requires NoActiveFilter(f)
    ensures FilterProperties(ps, f) == ps
  {
    KeepAllWhenNoFilter(ps, f);
  }

  lemma {:induction false} KeepAllWhenNoFilter(ps: seq<Property>, f: Filters)
    requires NoActiveFilter(f)
    ensures KeepMatching(ps, f) == ps
    decreases |ps|
  {
    if ps != [] {
      KeepAllWhenNoFilter(ps[1..], f);
      assert ps == [ps[0]] + ps[1..];
    }
  }

  /** The numeric fields a listing array can be sorted by. */
  datatype SortKey = Prezzo | Metratura | Locali

  datatype Order = Asc | Desc

  function KeyOf(p: Property, k: SortKey): int
  {
    match k
    case Prezzo => p.prezzo
    case Metratura => p.metratura
    case Locali => p.locali
  }

  /** The comparator: the difference of the keys, negated for a descending sort. */
  function Compare(a: Property, b: Property, k: SortKey, o: Order): (c: int)
    ensures o == Asc ==> (c <= 0 <==> KeyOf(a, k) <= KeyOf(b, k))
    ensures o == Desc ==> (c <= 0 <==> KeyOf(a, k) >= KeyOf(b, k))
    ensures c == 0 <==> KeyOf(a, k) == KeyOf(b, k)
  {
    var c := KeyOf(a, k) - KeyOf(b, k);
    if o == Asc then c else -c
  }

  /** Every earlier element compares at most equal to every later one. */
  ghost predicate SortedBy(s: seq<Property>, k: SortKey, o: Order)
  {
    forall i, j :: 0 <= i < j < |s| ==> Compare(s[i], s[j], k, o) <= 0
  }

  /** The elements of `s` whose key is `v`, in the order of `s`. */
  function WithKey(s: seq<Property>, k: SortKey, v: int): seq<Property>
    decreases |s|
  {
    if s == [] then []
    else if KeyOf(s[0], k) == v then [s[0]] + WithKey(s[1..], k, v)
    else WithKey(s[1..], k, v)
  }

  /** Put `x` before the first element it compares at most equal to. */
  function Insert(x: Property, s: seq<Property>, k: SortKey, o: Order): (r: seq<Property>)
    ensures multiset(r) == multiset(s) + multiset{x}
    decreases |s|
  {
    if s == [] then [x]
    else if Compare(x, s[0], k, o) <= 0 then [x] + s
    else
      assert s == [s[0]] + s[1..];
      assert multiset(s) == multiset{s[0]} + multiset(s[1..]);
      [s[0]] + Insert(x, s[1..], k, o)
  }

  /** A head that compares at most equal to every element of a sorted tail. */
  lemma SortedCons(h: Property, t: seq<Property>, k: SortKey, o: Order)
    requires SortedBy(t, k, o)
    requires forall y :: y in t ==> Compare(h, y, k, o) <= 0
    ensures SortedBy([h] + t, k, o)
  {
  }

  lemma {:induction false} InsertSorted(x: Property, s: seq<Property>, k: SortKey, o: Order)
    requires SortedBy(s, k, o)
    ensures SortedBy(Insert(x, s, k, o), k, o)
    decreases |s|
  {
    if s == [] {
    } else if Compare(x, s[0], k, o) <= 0 {
      forall y | y in s ensures Compare(x, y, k, o) <= 0 {
        var j :| 0 <= j < |s| && s[j] == y;
        if j > 0 { assert Compare(s[0], s[j], k, o) <= 0; }
      }
      SortedCons(x, s, k, o);
    } else {
      var rest := Insert(x, s[1..], k, o);
      InsertSorted(x, s[1..], k, o);
      forall y | y in rest ensures Compare(s[0], y, k, o) <= 0 {
        assert y in multiset(rest);
        if y != x {
          var j :| 0 <= j < |s[1..]| && s[1..][j] == y;
          assert s[j + 1] == y;
        }
      }
      assert SortedBy(s[1..], k, o);
      SortedCons(s[0], rest, k, o);
    }
  }

  /**
   * An element goes in front of the elements with its own key, so inserting
   * keeps the relative order of equal keys.
   */
  lemma {:induction false} InsertStable(x: Property, s: seq<Property>, k: SortKey, o: Order, v: int)
    ensures WithKey(Insert(x, s, k, o), k, v) == (if KeyOf(x, k) == v then [x] + WithKey(s, k, v) else WithKey(s, k, v))
    decreases |s|
  {
    if s != [] && Compare(x, s[0], k, o) > 0 {
      InsertStable(x, s[1..], k, o, v);
      assert ([s[0]] + Insert(x, s[1..], k, o))[1..] == Insert(x, s[1..], k, o);
    } else if s != [] {
      assert ([x] + s)[1..] == s;
    }
  }

  /** Insertion sort from the back: builds the stable sort of `s`. */
  function SortBy(s: seq<Property>, k: SortKey, o: Order): (r: seq<Property>)
    ensures multiset(r) == multiset(s)
    decreases |s|
  {
    if s == [] then []
    else
      assert s == [s[0]] + s[1..];
      assert multiset(s) == multiset{s[0]} + multiset(s[1..]);
      Insert(s[0], SortBy(s[1..], k, o), k, o)
  }

  lemma {:induction false} SortByCorrect(s: seq<Property>, k: SortKey, o: Order)
    ensures multiset(SortBy(s, k, o)) == multiset(s)
    ensures SortedBy(SortBy(s, k, o), k, o)
    decreases |s|
  {
    if s != [] {
      var rest := SortBy(s[1..], k, o);
      SortByCorrect(s[1..], k, o);
      InsertSorted(s[0], rest, k, o);
      assert s == [s[0]] + s[1..];
      assert multiset(s) == multiset{s[0]} + multiset(s[1..]);
    }
  }

  /**
   * `sortProperties`: empty for an empty input; otherwise a permutation of
   * the input ordered by the key, ascending or descending. The input itself
   * is a value and stays as it was, as the spread copy keeps it.
   */
  function SortProperties(ps: seq<Property>, sortBy: SortKey, order: Order): (r: seq<Property>)
    ensures |ps| == 0 ==> r == []
    ensures multiset(r) == multiset(ps)
    ensures order == Asc ==> forall i, j :: 0 <= i < j < |r| ==> KeyOf(r[i], sortBy) <= KeyOf(r[j], sortBy)
    ensures order == Desc ==> forall i, j :: 0 <= i < j < |r| ==> KeyOf(r[i], sortBy) >= KeyOf(r[j], sortBy)
  {
    if |ps| == 0 then []
    else
      var r := SortBy(ps, sortBy, order);
      SortByCorrect(ps, sortBy, order);
      assert forall i, j :: 0 <= i < j < |r| ==> Compare(r[i], r[j], sortBy, order) <= 0;
      r
  }

  /** The sort is stable: listings with equal keys keep their input order. */
  lemma {:induction false} SortStable(ps: seq<Property>, sortBy: SortKey, order: Order, v: int)
    ensures WithKey(SortProperties(ps, sortBy, order), sortBy, v) == WithKey(ps, sortBy, v)
  {
    if |ps| > 0 {
      SortByStable(ps, sortBy, order, v);
    }
  }

  lemma {:induction false} SortByStable(s: seq<Property>, k: SortKey, o: Order, v: int)
    ensures WithKey(SortBy(s, k, o), k, v) == WithKey(s, k, v)
    decreases |s|
  {
    if s != [] {
      SortByStable(s[1..], k, o, v);
      InsertStable(s[0], SortBy(s[1..], k, o), k, o, v);
    }
  }
}
