/** Generic sequence operations behind the catalog's array expressions:
    `filter`, `map`, `slice` and the update-by-id and delete-by-id forms the
    store builds from them. */
module Sequences {

  function Min(a: int, b: int): int
  {
    if a <= b then a else b
  }

  /** Number of elements of `s` that satisfy `keep`. */
  function CountWhere<T>(s: seq<T>, keep: T -> bool): (n: nat)
    ensures n <= |s|
  {
    if s == [] then 0 else (if keep(s[0]) then 1 else 0) + CountWhere(s[1..], keep)
  }

  /** Number of elements of `s` whose id is `id`. */
  function CountId<T>(s: seq<T>, idOf: T -> string, id: string): (n: nat)
    ensures n <= |s|
  {
    if s == [] then 0 else (if idOf(s[0]) == id then 1 else 0) + CountId(s[1..], idOf, id)
  }

  /** `r` is obtained from `s` by deleting elements, so the relative order of
      what is left is the order it had in `s`. */
  predicate IsSubsequence<T(==)>(r: seq<T>, s: seq<T>)
    decreases |s|
  {
    if r == [] then true
    else if s == [] then false
    else if r[0] == s[0] then IsSubsequence(r[1..], s[1..])
    else IsSubsequence(r, s[1..])
  }

  /** No two elements of `s` have the same key. */
  predicate DistinctBy<T, K(==)>(s: seq<T>, key: T -> K)
  {
    forall j, k :: 0 <= j < k < |s| ==> key(s[j]) != key(s[k])
  }

  predicate Distinct<T(==)>(s: seq<T>)
  {
    forall j, k :: 0 <= j < k < |s| ==> s[j] != s[k]
  }

  /** `Array.prototype.filter`: the elements that pass, each once per
      occurrence, in their original order. */
  function Filter<T(==)>(s: seq<T>, keep: T -> bool): (r: seq<T>)
    ensures |r| == CountWhere(s, keep)
    ensures forall x :: x in r ==> x in s && keep(x)
    ensures forall x :: x in s && keep(x) ==> x in r
    ensures IsSubsequence(r, s)
  {
    if s == [] then []
    else if keep(s[0]) then
      var rest := Filter(s[1..], keep);
      assert ([s[0]] + rest)[1..] == rest;
      [s[0]] + rest
    else
      var rest := Filter(s[1..], keep);
      assert rest != [] ==> rest[0] in rest && rest[0] != s[0];
      rest
  }

  /** `Array.prototype.map`. */
  function Map<T, U>(s: seq<T>, f: T -> U): (r: seq<U>)
    ensures |r| == |s|
    ensures forall k :: 0 <= k < |s| ==> r[k] == f(s[k])
  {
    if s == [] then [] else [f(s[0])] + Map(s[1..], f)
  }

  lemma {:induction false} CountComplement<T>(s: seq<T>, keep: T -> bool, idOf: T -> string, id: string)
    requires forall x :: keep(x) <==> idOf(x) != id
    ensures CountWhere(s, keep) + CountId(s, idOf, id) == |s|
  {
    if s != [] {
      CountComplement(s[1..], keep, idOf, id);
    }
  }

  lemma {:induction false} CountIdIsMultiplicity(s: seq<string>, idOf: string -> string, id: string)
    requires forall x :: idOf(x) == x
    ensures CountId(s, idOf, id) == multiset(s)[id]
  {
    if s != [] {
      CountIdIsMultiplicity(s[1..], idOf, id);
      assert s == [s[0]] + s[1..];
      assert multiset(s) == multiset{s[0]} + multiset(s[1..]);
    }
  }

  /** `s.filter(e => idOf(e) !== id)`: every element with that id goes, every
      other element stays, in order. */
  function RemoveById<T(==)>(s: seq<T>, idOf: T -> string, id: string): (r: seq<T>)
    ensures forall x :: x in r ==> x in s && idOf(x) != id
    ensures forall x :: x in s && idOf(x) != id ==> x in r
    ensures IsSubsequence(r, s)
    ensures |r| == |s| - CountId(s, idOf, id)
    ensures (forall x :: x in s ==> idOf(x) != id) ==> r == s
  {
    var keep := (e: T) => idOf(e) != id;
    CountComplement(s, keep, idOf, id);
    if forall x :: x in s ==> idOf(x) != id then
      FilterKeepsAll(s, keep);
      Filter(s, keep)
    else
      Filter(s, keep)
  }

  /** `s.map(e => idOf(e) === id ? x : e)`: every element with that id is
      replaced by `x` in place; length and positions are kept. */
  function ReplaceById<T>(s: seq<T>, idOf: T -> string, id: string, x: T): (r: seq<T>)
    ensures |r| == |s|
    ensures forall k :: 0 <= k < |s| && idOf(s[k]) == id ==> r[k] == x
    ensures forall k :: 0 <= k < |s| && idOf(s[k]) != id ==> r[k] == s[k]
    ensures (forall k :: 0 <= k < |s| ==> idOf(s[k]) != id) ==> r == s
  {
    Map(s, (e: T) => if idOf(e) == id then x else e)
  }

  /** A filter whose predicate holds of every element keeps the sequence. */
  lemma {:induction false} FilterKeepsAll<T>(s: seq<T>, keep: T -> bool)
    requires forall x :: x in s ==> keep(x)
    ensures Filter(s, keep) == s
  {
    if s != [] {
      assert forall x :: x in s[1..] ==> x in s;
      FilterKeepsAll(s[1..], keep);
      assert s == [s[0]] + s[1..];
    }
  }

  /** Filtering never makes two elements share a key. */
  lemma {:induction false} FilterKeepsDistinct<T, K>(s: seq<T>, keep: T -> bool, key: T -> K)
    ensures DistinctBy(s, key) ==> DistinctBy(Filter(s, keep), key)
  {
    if s != [] && DistinctBy(s, key) {
      var tail := s[1..];
      assert DistinctBy(tail, key) by {
        forall j, k | 0 <= j < k < |tail| ensures key(tail[j]) != key(tail[k]) {
          assert tail[j] == s[j + 1] && tail[k] == s[k + 1];
        }
      }
      FilterKeepsDistinct(tail, keep, key);
      var rest := Filter(tail, keep);
      if keep(s[0]) {
        var r := [s[0]] + rest;
        forall m | 0 <= m < |rest| ensures key(s[0]) != key(rest[m]) {
          assert rest[m] in tail;
          var i :| 0 <= i < |tail| && tail[i] == rest[m];
          assert tail[i] == s[i + 1];
        }
        forall j, k | 0 <= j < k < |r| ensures key(r[j]) != key(r[k]) {
          if j == 0 {
            assert r[k] == rest[k - 1];
          } else {
            assert r[j] == rest[j - 1] && r[k] == rest[k - 1];
          }
        }
      }
    }
  }

  /** Putting in front an element whose key no element has keeps keys distinct. */
  lemma ConsKeepsDistinct<T, K>(x: T, tail: seq<T>, key: T -> K)
    requires DistinctBy(tail, key)
    requires forall y :: y in multiset(tail) ==> key(y) != key(x)
    ensures DistinctBy([x] + tail, key)
  {
    var r := [x] + tail;
    forall a, b | 0 <= a < b < |r| ensures key(r[a]) != key(r[b]) {
      assert r[b] == tail[b - 1];
      assert tail[b - 1] in multiset(tail);
      if a > 0 {
        assert r[a] == tail[a - 1];
      }
    }
  }

  /** Appending an element whose key no element has keeps keys distinct. */
  lemma SnocKeepsDistinct<T, K>(s: seq<T>, x: T, key: T -> K)
    requires DistinctBy(s, key)
    requires forall k :: 0 <= k < |s| ==> key(s[k]) != key(x)
    ensures DistinctBy(s + [x], key)
  {
    var r := s + [x];
    forall a, b | 0 <= a < b < |r| ensures key(r[a]) != key(r[b]) {
      assert r[a] == s[a];
      if b < |s| {
        assert r[b] == s[b];
      }
    }
  }

  /** What a loop `for (let i = 1; i <= draws.length; i++) out.push(f(i, draws[i - 1]))`
      leaves in `out`. */
  function Generate<D, T>(draws: seq<D>, f: (nat, D) -> T): seq<T>
  {
    if draws == [] then [] else Generate(draws[..|draws| - 1], f) + [f(|draws|, draws[|draws| - 1])]
  }

  /** A prefix one longer is the shorter prefix and one more element. */
  lemma PrefixSnoc<T>(s: seq<T>, i: nat)
    requires 0 < i <= |s|
    ensures s[..i] == s[..i - 1] + [s[i - 1]]
  {
  }

  /** One more iteration pushes one more element. */
  lemma GenerateSnoc<D, T>(draws: seq<D>, d: D, f: (nat, D) -> T)
    ensures Generate(draws + [d], f) == Generate(draws, f) + [f(|draws| + 1, d)]
  {
    assert (draws + [d])[..|draws|] == draws;
  }

  /** Element `k` of the generated sequence is what iteration `k + 1` pushed. */
  lemma {:induction false} GenerateAt<D, T>(draws: seq<D>, f: (nat, D) -> T)
    ensures |Generate(draws, f)| == |draws|
    ensures forall k :: 0 <= k < |draws| ==> Generate(draws, f)[k] == f(k + 1, draws[k])
  {
    if draws != [] {
      var front := draws[..|draws| - 1];
      GenerateAt(front, f);
      forall k | 0 <= k < |front| ensures front[k] == draws[k] {
      }
    }
  }

  /** A property every pushed element has holds of every generated element. */
  lemma GenerateAll<D, T>(draws: seq<D>, f: (nat, D) -> T, p: T -> bool)
    requires forall i: nat, d: D :: p(f(i, d))
    ensures forall x :: x in Generate(draws, f) ==> p(x)
  {
    GenerateAt(draws, f);
    forall x | x in Generate(draws, f) ensures p(x) {
      var k :| 0 <= k < |draws| && Generate(draws, f)[k] == x;
    }
  }

  /** When iterations with different numbers always push elements with
      different keys, the generated sequence has no repeated key. */
  lemma GenerateDistinct<D, T, K>(draws: seq<D>, f: (nat, D) -> T, key: T -> K)
    requires forall i: nat, j: nat, d: D, e: D :: i != j ==> key(f(i, d)) != key(f(j, e))
    ensures DistinctBy(Generate(draws, f), key)
  {
    GenerateAt(draws, f);
    var r := Generate(draws, f);
    forall a, b | 0 <= a < b < |r| ensures key(r[a]) != key(r[b]) {
      assert r[a] == f(a + 1, draws[a]) && r[b] == f(b + 1, draws[b]);
    }
  }

  /** Two sequences without repeated keys, no key shared between them,
      concatenate to one without repeated keys. */
  lemma ConcatKeepsDistinct<T, K>(a: seq<T>, b: seq<T>, key: T -> K)
    requires DistinctBy(a, key) && DistinctBy(b, key)
    requires forall x, y :: x in a && y in b ==> key(x) != key(y)
    ensures DistinctBy(a + b, key)
  {
    var r := a + b;
    forall j, k | 0 <= j < k < |r| ensures key(r[j]) != key(r[k]) {
      if k < |a| {
        assert r[j] == a[j] && r[k] == a[k];
      } else if j >= |a| {
        assert r[j] == b[j - |a|] && r[k] == b[k - |a|];
      } else {
        assert r[j] == a[j] && r[k] == b[k - |a|];
        assert a[j] in a && b[k - |a|] in b;
      }
    }
  }

  /** Concatenating two sequences with distinct string keys keeps the keys
      distinct when the keys of the two sides differ at position `k`. */
  lemma ConcatDisjointAt<T>(a: seq<T>, b: seq<T>, key: T -> string, k: nat, c: char)
    requires DistinctBy(a, key) && DistinctBy(b, key)
    requires forall x :: x in a ==> |key(x)| > k && key(x)[k] == c
    requires forall y :: y in b ==> |key(y)| > k && key(y)[k] != c
    ensures DistinctBy(a + b, key)
  {
    ConcatKeepsDistinct(a, b, key);
  }

  /** Putting in front an element whose string key differs at position `k`
      from the keys of all others keeps the keys distinct. */
  lemma ConsDisjointAt<T>(x: T, tail: seq<T>, key: T -> string, k: nat, c: char)
    requires DistinctBy(tail, key)
    requires |key(x)| > k && key(x)[k] == c
    requires forall y :: y in tail ==> |key(y)| > k && key(y)[k] != c
    ensures DistinctBy([x] + tail, key)
  {
    forall y | y in multiset(tail) ensures key(y) != key(x) {
      assert y in tail;
    }
    ConsKeepsDistinct(x, tail, key);
  }

  /** A prefix of a sequence without repeated keys has none either. */
  lemma PrefixKeepsDistinct<T, K>(s: seq<T>, n: nat, key: T -> K)
    requires n <= |s|
    ensures DistinctBy(s, key) ==> DistinctBy(s[..n], key)
  {
    forall j, k | 0 <= j < k < n && DistinctBy(s, key) ensures key(s[..n][j]) != key(s[..n][k]) {
      assert s[..n][j] == s[j] && s[..n][k] == s[k];
    }
  }
}
