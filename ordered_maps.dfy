/** The few `std::map` / `std::set` operations the program relies on,
    stated over integer keys: first and last key, `lower_bound`,
    `upper_bound`, stepping an iterator back, and the range erasures
    `erase(find(k), end())`, `erase(upper_bound(k), end())` and
    `erase(begin(), find(k))`.  A `find` that misses yields `end()`, so the
    erasures that start or stop at `find(k)` behave differently when `k` is
    absent; the functions below keep that difference. */
module OrderedMaps {
  import opened Common

  /** A set is empty or has an element. */
  lemma EmptyOrInhabited(s: set<int>)
    ensures s == {} || exists m :: m in s
  {
    if !(exists m :: m in s) {
      assert s == {};
    }
  }

  /** Every finite non-empty set of integers has a least element. */
  lemma LeastExists(s: set<int>)
    requires s != {}
    ensures exists m :: m in s && forall y :: y in s ==> m <= y
  {
    var m := LeastOf(s);
  }

  /** The least element, found by induction on the size of the set. */
  lemma {:induction false} LeastOf(s: set<int>) returns (m: int)
    requires s != {}
    ensures m in s && forall y :: y in s ==> m <= y
  {
    EmptyOrInhabited(s);
    var x :| x in s;
    var rest := s - {x};
    if rest == {} {
      m := x;
    } else {
      var r := LeastOf(rest);
      m := if x < r then x else r;
    }
    forall y | y in s ensures m <= y {
      assert y == x || y in rest;
    }
  }

  /** Every finite non-empty set of integers has a greatest element. */
  lemma GreatestExists(s: set<int>)
    requires s != {}
    ensures exists m :: m in s && forall y :: y in s ==> y <= m
  {
    var m := GreatestOf(s);
  }

  /** The greatest element, found by induction on the size of the set. */
  lemma {:induction false} GreatestOf(s: set<int>) returns (m: int)
    requires s != {}
    ensures m in s && forall y :: y in s ==> y <= m
  {
    EmptyOrInhabited(s);
    var x :| x in s;
    var rest := s - {x};
    if rest == {} {
      m := x;
    } else {
      var r := GreatestOf(rest);
      m := if r < x then x else r;
    }
    forall y | y in s ensures y <= m {
      assert y == x || y in rest;
    }
  }

  /** `*s.begin()` of a non-empty ordered set. */
  function Least(s: set<int>): (m: int)
    requires s != {}
    ensures m in s && forall y :: y in s ==> m <= y
  {
    LeastExists(s);
    var m :| m in s && forall y :: y in s ==> m <= y; m
  }

  /** `*s.rbegin()` of a non-empty ordered set. */
  function Greatest(s: set<int>): (m: int)
    requires s != {}
    ensures m in s && forall y :: y in s ==> y <= m
  {
    GreatestExists(s);
    var m :| m in s && forall y :: y in s ==> y <= m; m
  }

  /** `s.upper_bound(k)`: the first element strictly greater than `k`, or
      None for `end()`. */
  function UpperBound(s: set<int>, k: int): (r: Option<int>)
    ensures r.None? <==> forall y :: y in s ==> y <= k
    ensures r.Some? ==> r.value in s && k < r.value
    ensures r.Some? ==> forall y :: y in s && k < y ==> r.value <= y
  {
    var above := set y | y in s && k < y;
    if above == {} then
      assert forall y :: y in s ==> y <= k by {
        forall y | y in s ensures y in above || y <= k { }
      }
      None
    else
      var m := Least(above);
      assert forall y :: y in s && k < y ==> m <= y by {
        forall y | y in s && k < y ensures m <= y { assert y in above; }
      }
      Some(m)
  }

  /** `s.lower_bound(k)`: the first element not less than `k`. */
  function LowerBound(s: set<int>, k: int): (r: Option<int>)
    ensures r.None? <==> forall y :: y in s ==> y < k
    ensures r.Some? ==> r.value in s && k <= r.value
    ensures r.Some? ==> forall y :: y in s && k <= y ==> r.value <= y
  {
    var atLeast := set y | y in s && k <= y;
    if atLeast == {} then
      assert forall y :: y in s ==> y < k by {
        forall y | y in s ensures y in atLeast || y < k { }
      }
      None
    else
      var m := Least(atLeast);
      assert forall y :: y in s && k <= y ==> m <= y by {
        forall y | y in s && k <= y ensures m <= y { assert y in atLeast; }
      }
      Some(m)
  }

  /** `upper_bound` is determined by the set: any value with its defining
      properties is the one it returns. */
  lemma UpperBoundIs(s: set<int>, k: int, v: Option<int>)
    requires v.None? ==> forall y :: y in s ==> y <= k
    requires v.Some? ==> v.value in s && k < v.value
    requires v.Some? ==> forall y :: y in s && k < y ==> v.value <= y
    ensures UpperBound(s, k) == v
  {
    var r := UpperBound(s, k);
    if r.Some? && v.Some? {
      assert r.value <= v.value && v.value <= r.value;
    }
  }

  /** Inserting an element at or below `k` leaves `upper_bound(k)` alone. */
  lemma UpperBoundInsertBelow(s: set<int>, t: set<int>, k: int, x: int)
    requires x <= k
    requires forall y :: y in t <==> y in s || y == x
    ensures UpperBound(t, k) == UpperBound(s, k)
  {
    UpperBoundIs(t, k, UpperBound(s, k));
  }

  /** After inserting a new element `x`, `upper_bound(k)` is `x` exactly
      when `x` lies after `k` and before every old element after `k`. */
  lemma UpperBoundInserted(s: set<int>, t: set<int>, k: int, x: int)
    requires x !in s
    requires forall y :: y in t <==> y in s || y == x
    ensures UpperBound(t, k) == Some(x) <==> k < x && forall y :: y in s && k < y ==> x < y
  {
    if k < x && forall y :: y in s && k < y ==> x < y {
      UpperBoundIs(t, k, Some(x));
    }
  }

  /** Removing anything but the element `upper_bound(k)` points at leaves
      it alone. */
  lemma UpperBoundRemoveOther(s: set<int>, t: set<int>, k: int, x: int)
    requires UpperBound(s, k) != Some(x)
    requires forall y :: y in t <==> y in s && y != x
    ensures UpperBound(t, k) == UpperBound(s, k)
  {
    UpperBoundIs(t, k, UpperBound(s, k));
  }

  /** Removing the element `upper_bound(k)` points at moves it on to
      `upper_bound` of that element. */
  lemma UpperBoundRemoveNext(s: set<int>, t: set<int>, k: int, x: int)
    requires UpperBound(s, k) == Some(x)
    requires forall y :: y in t <==> y in s && y != x
    ensures UpperBound(t, k) == UpperBound(s, x)
  {
    UpperBoundIs(t, k, UpperBound(s, x));
  }

  /** Dropping every element above `t`, for `k <= t`, keeps
      `upper_bound(k)` when it is at most `t` and leaves none otherwise. */
  lemma UpperBoundTruncate(s: set<int>, u: set<int>, k: int, t: int)
    requires k <= t
    requires forall y :: y in u <==> y in s && y <= t
    ensures UpperBound(s, k).Some? && UpperBound(s, k).value <= t ==> UpperBound(u, k) == UpperBound(s, k)
    ensures UpperBound(s, k).None? || t < UpperBound(s, k).value ==> UpperBound(u, k).None?
  {
    var r := UpperBound(s, k);
    if r.Some? && r.value <= t {
      UpperBoundIs(u, k, r);
    } else {
      UpperBoundIs(u, k, None);
    }
  }

  /** `*(--s.find(k))` for a `k` that is present and not first: the greatest
      element strictly below `k`. */
  function Predecessor(s: set<int>, k: int): (p: int)
    requires exists y :: y in s && y < k
    ensures p in s && p < k
    ensures forall y :: y in s && y < k ==> y <= p
  {
    var below := set y | y in s && y < k;
    var w :| w in s && w < k;
    assert w in below;
    var p := Greatest(below);
    assert forall y :: y in s && y < k ==> y <= p by {
      forall y | y in s && y < k ensures y <= p { assert y in below; }
    }
    p
  }

  /** `*(--s.find(k))`: the element before `k` when `k` is present, and the
      last element when it is not (`find` gives `end()`).  Stepping back
      from `begin()` is undefined, hence the precondition. */
  function StepBack(s: set<int>, k: int): (p: int)
    requires s != {}
    requires k in s ==> exists y :: y in s && y < k
    ensures p in s
    ensures k in s ==> p < k && forall y :: y in s && y < k ==> y <= p
    ensures k !in s ==> forall y :: y in s ==> y <= p
  {
    if k in s then Predecessor(s, k) else Greatest(s)
  }

  /** `*(--s.upper_bound(k))` when some element is at most `k`: the
      greatest element not above `k`. */
  function Floor(s: set<int>, k: int): (p: int)
    requires exists y :: y in s && y <= k
    ensures p in s && p <= k
    ensures forall y :: y in s && y <= k ==> y <= p
  {
    var atMost := set y | y in s && y <= k;
    var w :| w in s && w <= k;
    assert w in atMost;
    var p := Greatest(atMost);
    assert forall y :: y in s && y <= k ==> y <= p by {
      forall y | y in s && y <= k ensures y <= p { assert y in atMost; }
    }
    p
  }

  /** The entries of `m` whose keys satisfy a bound. */
  function Below<V>(m: map<int, V>, k: int): (r: map<int, V>)
    ensures forall j :: j in r <==> j in m && j < k
    ensures forall j :: j in r ==> r[j] == m[j]
  {
    map j | j in m && j < k :: m[j]
  }

  function AtMost<V>(m: map<int, V>, k: int): (r: map<int, V>)
    ensures forall j :: j in r <==> j in m && j <= k
    ensures forall j :: j in r ==> r[j] == m[j]
  {
    map j | j in m && j <= k :: m[j]
  }

  function AtLeast<V>(m: map<int, V>, k: int): (r: map<int, V>)
    ensures forall j :: j in r <==> j in m && k <= j
    ensures forall j :: j in r ==> r[j] == m[j]
  {
    map j | j in m && k <= j :: m[j]
  }

  /** `m.erase(m.find(k), m.end())`: drops every entry from `k` on when `k`
      is a key, and nothing at all when it is not. */
  function EraseFromFound<V>(m: map<int, V>, k: int): (r: map<int, V>)
    ensures k in m ==> r == Below(m, k)
    ensures k !in m ==> r == m
  {
    if k in m then Below(m, k) else m
  }

  /** `m.erase(m.upper_bound(k), m.end())`: keeps the entries at or before
      `k`. */
  function EraseAfter<V>(m: map<int, V>, k: int): (r: map<int, V>)
    ensures r == AtMost(m, k)
  {
    AtMost(m, k)
  }

  /** `m.erase(m.begin(), m.find(k))`: drops the entries before `k` when `k`
      is a key, and every entry when it is not. */
  function EraseBeforeFound<V>(m: map<int, V>, k: int): (r: map<int, V>)
    ensures k in m ==> r == AtLeast(m, k)
    ensures k !in m ==> r == map[]
  {
    if k in m then AtLeast(m, k) else map[]
  }

  /** Erasing from a found key leaves a prefix of the map: what survives is
      unchanged, and nothing at or after `k` survives when `k` was a key. */
  lemma EraseFromFoundIsPrefix<V>(m: map<int, V>, k: int)
    ensures forall j :: j in EraseFromFound(m, k) ==> j in m && EraseFromFound(m, k)[j] == m[j]
    ensures k in m ==> forall j :: j in EraseFromFound(m, k) <==> j in m && j < k
  {
  }

  /** Erasing from the same key twice is erasing once. */
  lemma EraseFromFoundIdempotent<V>(m: map<int, V>, k: int)
    ensures EraseFromFound(EraseFromFound(m, k), k) == EraseFromFound(m, k)
  {
    if k in m {
      assert k !in Below(m, k);
    }
  }
}
