/** Sequence, sum and string helpers shared by every part of the ledger model.
    They stand for the JavaScript array methods `filter`, `map`, `reduce`
    (summing), `slice`, and the string methods `toLowerCase` and `includes`. */
module Seqs {

  datatype Option<+T> = None | Some(value: T)

  /** The value of a field an update may or may not carry (object spread). */
  function Or<T>(o: Option<T>, default: T): T {
    match o
    case Some(v) => v
    case None => default
  }

  // ---------------------------------------------------------------------------
  // filter

  /** `s.filter(p)`: the elements of `s` that satisfy `p`, in their order. */
  function Filter<T>(s: seq<T>, p: T -> bool): (r: seq<T>)
    ensures |r| <= |s|
  {
    if s == [] then [] else (if p(s[0]) then [s[0]] else []) + Filter(s[1..], p)
  }

  /** `r` is `s` with some elements left out, the rest in their order. */
  predicate IsSubseq<T(==)>(r: seq<T>, s: seq<T>)
    decreases |s|
  {
    if s == [] then r == []
    else (r != [] && r[0] == s[0] && IsSubseq(r[1..], s[1..])) || IsSubseq(r, s[1..])
  }

  lemma {:induction false} FilterConcat<T>(a: seq<T>, b: seq<T>, p: T -> bool)
    ensures Filter(a + b, p) == Filter(a, p) + Filter(b, p)
  {
    if a == [] {
      assert a + b == b;
    } else {
      var h := if p(a[0]) then [a[0]] else [];
      assert (a + b)[0] == a[0];
      assert (a + b)[1..] == a[1..] + b;
      FilterConcat(a[1..], b, p);
      calc {
        Filter(a + b, p);
        h + Filter(a[1..] + b, p);
        h + (Filter(a[1..], p) + Filter(b, p));
        (h + Filter(a[1..], p)) + Filter(b, p);
      }
    }
  }

  /** An element is kept exactly when it is in `s` and satisfies `p`. */
  lemma {:induction false} FilterMember<T>(s: seq<T>, p: T -> bool, x: T)
    ensures x in Filter(s, p) <==> x in s && p(x)
  {
    if s != [] {
      FilterMember(s[1..], p, x);
      assert x in s <==> x == s[0] || x in s[1..];
    }
  }

  lemma FilterMembers<T>(s: seq<T>, p: T -> bool)
    ensures forall x :: x in Filter(s, p) <==> x in s && p(x)
  {
    forall x ensures x in Filter(s, p) <==> x in s && p(x) {
      FilterMember(s, p, x);
    }
  }

  /** Filtering by a stronger predicate after a weaker one is filtering by the stronger. */
  lemma {:induction false} FilterOfFilter<T>(s: seq<T>, p: T -> bool, q: T -> bool)
    requires forall x :: q(x) ==> p(x)
    ensures Filter(Filter(s, p), q) == Filter(s, q)
  {
    if s != [] {
      FilterOfFilter(s[1..], p, q);
      var h := if p(s[0]) then [s[0]] else [];
      FilterConcat(h, Filter(s[1..], p), q);
    }
  }

  /** Filtering keeps the survivors in their original relative order. */
  lemma {:induction false} IsSubseqRefl<T>(s: seq<T>)
    ensures IsSubseq(s, s)
  {
    if s != [] {
      IsSubseqRefl(s[1..]);
    }
  }

  lemma {:induction false} EmptyIsSubseq<T>(s: seq<T>)
    ensures IsSubseq([], s)
  {
    if s != [] {
      EmptyIsSubseq(s[1..]);
    }
  }

  lemma {:induction false} FilterIsSubseq<T>(s: seq<T>, p: T -> bool)
    ensures IsSubseq(Filter(s, p), s)
  {
    if s != [] {
      FilterIsSubseq(s[1..], p);
      var r := Filter(s, p);
      if p(s[0]) {
        assert r[0] == s[0] && r[1..] == Filter(s[1..], p);
      } else {
        assert r == Filter(s[1..], p);
      }
    }
  }

  /** When every element passes, filtering returns the sequence itself. */
  lemma {:induction false} FilterAll<T>(s: seq<T>, p: T -> bool)
    requires forall i :: 0 <= i < |s| ==> p(s[i])
    ensures Filter(s, p) == s
  {
    if s != [] {
      assert p(s[0]);
      FilterAll(s[1..], p);
    }
  }

  /** When no element passes, filtering returns the empty sequence. */
  lemma {:induction false} FilterNone<T>(s: seq<T>, p: T -> bool)
    requires forall i :: 0 <= i < |s| ==> !p(s[i])
    ensures Filter(s, p) == []
  {
    if s != [] {
      assert !p(s[0]);
      FilterNone(s[1..], p);
    }
  }

  /** Predicates that agree on every element filter alike. */
  lemma {:induction false} FilterAgree<T>(s: seq<T>, p: T -> bool, q: T -> bool)
    requires forall i :: 0 <= i < |s| ==> p(s[i]) == q(s[i])
    ensures Filter(s, p) == Filter(s, q)
  {
    if s != [] {
      FilterAgree(s[1..], p, q);
    }
  }

  /** Filtering twice by the same predicate is filtering once. */
  lemma FilterIdempotent<T>(s: seq<T>, p: T -> bool)
    ensures Filter(Filter(s, p), p) == Filter(s, p)
  {
    var r := Filter(s, p);
    forall i | 0 <= i < |r| ensures p(r[i]) {
      FilterMember(s, p, r[i]);
    }
    FilterAll(r, p);
  }

  /** A predicate and its complement split a sequence's length. */
  lemma {:induction false} FilterSplitLength<T>(s: seq<T>, p: T -> bool, q: T -> bool)
    requires forall x :: q(x) == !p(x)
    ensures |Filter(s, p)| + |Filter(s, q)| == |s|
  {
    if s != [] {
      FilterSplitLength(s[1..], p, q);
    }
  }

  /** Filtering commutes with a map that does not change the filtered property. */
  lemma {:induction false} FilterMapCommute<T, U>(s: seq<T>, f: T -> U, p: T -> bool, q: U -> bool)
    requires forall x :: q(f(x)) == p(x)
    ensures Filter(Map(s, f), q) == Map(Filter(s, p), f)
  {
    if s != [] {
      var m := Map(s, f);
      assert m[0] == f(s[0]) && m[1..] == Map(s[1..], f);
      FilterMapCommute(s[1..], f, p, q);
      var h := if p(s[0]) then [s[0]] else [];
      MapConcat(h, Filter(s[1..], p), f);
    }
  }

  /** No two elements of `s` share a key. */
  ghost predicate UniqueBy<T, K>(s: seq<T>, key: T -> K)
  {
    forall i, j :: 0 <= i < j < |s| ==> key(s[i]) != key(s[j])
  }

  /** Filtering keeps keys distinct. */
  lemma {:induction false} FilterUniqueBy<T, K>(s: seq<T>, p: T -> bool, key: T -> K)
    requires UniqueBy(s, key)
    ensures UniqueBy(Filter(s, p), key)
  {
    if s != [] {
      UniqueTail(s, key);
      FilterUniqueBy(s[1..], p, key);
      if p(s[0]) {
        var rest := Filter(s[1..], p);
        forall y | y in rest ensures key(y) != key(s[0]) {
          FilterMember(s[1..], p, y);
        }
        UniqueCons(s[0], rest, key);
        assert Filter(s, p) == [s[0]] + rest;
      }
    }
  }

  lemma UniqueTail<T, K>(s: seq<T>, key: T -> K)
    requires UniqueBy(s, key) && s != []
    ensures UniqueBy(s[1..], key)
    ensures forall y :: y in s[1..] ==> key(y) != key(s[0])
  {
    var t := s[1..];
    forall i, j | 0 <= i < j < |t| ensures key(t[i]) != key(t[j]) {
      assert t[i] == s[i + 1] && t[j] == s[j + 1];
    }
    forall y | y in t ensures key(y) != key(s[0]) {
      var j :| 0 <= j < |t| && t[j] == y;
      assert s[j + 1] == y;
    }
  }

  lemma UniqueCons<T, K>(x: T, r: seq<T>, key: T -> K)
    requires UniqueBy(r, key) && forall y :: y in r ==> key(y) != key(x)
    ensures UniqueBy([x] + r, key)
  {
    var c := [x] + r;
    forall i, j | 0 <= i < j < |c| ensures key(c[i]) != key(c[j]) {
      assert c[j] == r[j - 1];
      if i > 0 {
        assert c[i] == r[i - 1];
      } else {
        assert c[j] in r;
      }
    }
  }

  function KeyIs<T, K(==)>(key: T -> K, k: K): T -> bool {
    (y: T) => key(y) == k
  }

  /** With distinct keys, exactly one element carries the key of a member. */
  lemma {:induction false} FilterUniqueSingleton<T, K>(s: seq<T>, key: T -> K, x: T)
    requires UniqueBy(s, key) && x in s
    ensures Filter(s, KeyIs(key, key(x))) == [x]
  {
    var rest := s[1..];
    assert UniqueBy(rest, key) by {
      forall i, j | 0 <= i < j < |rest| ensures key(rest[i]) != key(rest[j]) {
        assert rest[i] == s[i + 1] && rest[j] == s[j + 1];
      }
    }
    if s[0] == x {
      forall i | 0 <= i < |rest| ensures !KeyIs(key, key(x))(rest[i]) {
        assert rest[i] == s[i + 1];
      }
      FilterNone(rest, KeyIs(key, key(x)));
    } else {
      var j :| 0 <= j < |s| && s[j] == x;
      assert j > 0;
      assert key(s[0]) != key(s[j]);
      assert x in rest by { assert rest[j - 1] == x; }
      FilterUniqueSingleton(rest, key, x);
    }
  }

  // ---------------------------------------------------------------------------
  // map

  /** `s.map(f)`. */
  function Map<T, U>(s: seq<T>, f: T -> U): (r: seq<U>)
  {
    seq(|s|, i requires 0 <= i < |s| => f(s[i]))
  }

  lemma MapConcat<T, U>(a: seq<T>, b: seq<T>, f: T -> U)
    ensures Map(a + b, f) == Map(a, f) + Map(b, f)
  {
    assert forall i :: 0 <= i < |a| + |b| ==> Map(a + b, f)[i] == (Map(a, f) + Map(b, f))[i];
  }

  // ---------------------------------------------------------------------------
  // summing with reduce((sum, x) => sum + f(x), 0)

  function Sum<T>(s: seq<T>, f: T -> int): int
  {
    if s == [] then 0 else f(s[0]) + Sum(s[1..], f)
  }

  lemma {:induction false} SumConcat<T>(a: seq<T>, b: seq<T>, f: T -> int)
    ensures Sum(a + b, f) == Sum(a, f) + Sum(b, f)
  {
    if a == [] {
      assert a + b == b;
    } else {
      assert (a + b)[0] == a[0];
      assert (a + b)[1..] == a[1..] + b;
      SumConcat(a[1..], b, f);
    }
  }

  /** The sum of `h` is the sum of `f` plus the sum of `g` when `h = f + g` pointwise. */
  lemma {:induction false} SumAdd<T>(s: seq<T>, f: T -> int, g: T -> int, h: T -> int)
    requires forall x :: h(x) == f(x) + g(x)
    ensures Sum(s, h) == Sum(s, f) + Sum(s, g)
  {
    if s != [] {
      SumAdd(s[1..], f, g, h);
    }
  }

  /** Summing over a filter is summing an indicator-weighted function over everything. */
  lemma {:induction false} SumFilterIndicator<T>(s: seq<T>, p: T -> bool, f: T -> int, g: T -> int)
    requires forall x :: g(x) == (if p(x) then f(x) else 0)
    ensures Sum(Filter(s, p), f) == Sum(s, g)
  {
    if s != [] {
      SumFilterIndicator(s[1..], p, f, g);
      SumConcat(if p(s[0]) then [s[0]] else [], Filter(s[1..], p), f);
    }
  }

  /** Sequences whose elements agree position by position have the same sum. */
  lemma {:induction false} SumPointwise<T>(a: seq<T>, b: seq<T>, f: T -> int)
    requires |a| == |b| && forall i :: 0 <= i < |a| ==> f(a[i]) == f(b[i])
    ensures Sum(a, f) == Sum(b, f)
  {
    if a != [] {
      SumPointwise(a[1..], b[1..], f);
    }
  }

  /** Summing over the elements that pass a predicate and over those that fail it
      adds up to the sum over all elements. */
  lemma {:induction false} SumFilterSplit<T>(s: seq<T>, p: T -> bool, q: T -> bool, f: T -> int)
    requires forall x :: q(x) == !p(x)
    ensures Sum(Filter(s, p), f) + Sum(Filter(s, q), f) == Sum(s, f)
  {
    if s != [] {
      SumFilterSplit(s[1..], p, q, f);
      var h := if p(s[0]) then [s[0]] else [];
      var k := if q(s[0]) then [s[0]] else [];
      SumConcat(h, Filter(s[1..], p), f);
      SumConcat(k, Filter(s[1..], q), f);
    }
  }

  lemma {:induction false} SumNonNegative<T>(s: seq<T>, f: T -> int)
    requires forall i :: 0 <= i < |s| ==> f(s[i]) >= 0
    ensures Sum(s, f) >= 0
  {
    if s != [] {
      assert f(s[0]) >= 0;
      SumNonNegative(s[1..], f);
    }
  }

  /** With non-negative terms, a filtered sum never exceeds the full sum. */
  lemma {:induction false} SumFilterBound<T>(s: seq<T>, p: T -> bool, f: T -> int)
    requires forall i :: 0 <= i < |s| ==> f(s[i]) >= 0
    ensures 0 <= Sum(Filter(s, p), f) <= Sum(s, f)
  {
    if s != [] {
      assert f(s[0]) >= 0;
      SumFilterBound(s[1..], p, f);
      var h := if p(s[0]) then [s[0]] else [];
      SumConcat(h, Filter(s[1..], p), f);
    }
  }

  /** Summing `g` over `s.map(f)` is summing `g` after `f` over `s`. */
  lemma {:induction false} SumMap<T, U>(s: seq<T>, f: T -> U, g: U -> int, h: T -> int)
    requires forall x :: h(x) == g(f(x))
    ensures Sum(Map(s, f), g) == Sum(s, h)
  {
    if s != [] {
      var m := Map(s, f);
      assert m[0] == f(s[0]) && m[1..] == Map(s[1..], f);
      SumMap(s[1..], f, g, h);
    }
  }

  // ---------------------------------------------------------------------------
  // strings

  /** `String.prototype.toLowerCase` on the ASCII letters. */
  function LowerChar(c: char): char
  {
    if 'A' <= c <= 'Z' then (c as int + 32) as char else c
  }

  function Lower(s: string): (r: string)
    ensures |r| == |s|
  {
    Map(s, LowerChar)
  }

  /** `s.includes(t)`: `t` occurs in `s` at some position. */
  predicate Contains(s: string, t: string)
    decreases |s|
  {
    (|t| <= |s| && s[..|t|] == t) || (s != [] && Contains(s[1..], t))
  }

  lemma ContainsEmpty(s: string)
    ensures Contains(s, "")
  {
    assert s[..0] == "";
  }

  /** Lower-casing both sides keeps an occurrence: `includes` after
      `toLowerCase` finds every verbatim match. */
  lemma {:induction false} ContainsLower(s: string, t: string)
    requires Contains(s, t)
    ensures Contains(Lower(s), Lower(t))
    decreases |s|
  {
    if |t| <= |s| && s[..|t|] == t {
      assert Lower(s)[..|t|] == Lower(t);
    } else {
      ContainsLower(s[1..], t);
      assert Lower(s)[1..] == Lower(s[1..]);
    }
  }

  lemma LowerIdempotent(s: string)
    ensures Lower(Lower(s)) == Lower(s)
  {
    forall i | 0 <= i < |s| ensures Lower(Lower(s))[i] == Lower(s)[i] {
      assert Lower(s)[i] == LowerChar(s[i]);
      assert Lower(Lower(s))[i] == LowerChar(LowerChar(s[i]));
    }
  }

  /** An occurrence in a prefix is an occurrence in the whole string. */
  lemma {:induction false} ContainsInPrefix(s: string, u: string, t: string)
    requires Contains(s, t) && |s| <= |u| && u[..|s|] == s
    ensures Contains(u, t)
    decreases |s|
  {
    if |t| <= |s| && s[..|t|] == t {
      assert u[..|t|] == s[..|t|];
    } else {
      assert u[1..][..|s| - 1] == s[1..];
      ContainsInPrefix(s[1..], u[1..], t);
    }
  }

  /** `includes` is transitive. */
  lemma {:induction false} ContainsTransitive(a: string, b: string, c: string)
    requires Contains(a, b) && Contains(b, c)
    ensures Contains(a, c)
    decreases |a|
  {
    if |b| <= |a| && a[..|b|] == b {
      ContainsInPrefix(b, a, c);
    } else {
      ContainsTransitive(a[1..], b, c);
    }
  }

  /** Decimal digits of a natural number, as `String(n)` writes them. */
  function NatToString(n: nat): (r: string)
    ensures |r| >= 1
    ensures forall i :: 0 <= i < |r| ==> '0' <= r[i] <= '9'
  {
    if n < 10 then [Digit(n)] else NatToString(n / 10) + [Digit(n % 10)]
  }

  function Digit(d: nat): (c: char)
    requires d < 10
    ensures '0' <= c <= '9'
  {
    ['0', '1', '2', '3', '4', '5', '6', '7', '8', '9'][d]
  }
}
