/** How the model stands for `Math.random()`: every random choice is an
    arbitrary natural number supplied by the caller, reduced to the range the
    source's expression produces. Every outcome of the source is some choice,
    and every choice is an outcome. */
module Random {
  import opened Sequences

  /** `Math.floor(Math.random() * n)` for the choice `r`: an index below `n`,
      and each index is the outcome of some choice (itself). */
  function Draw(r: nat, n: nat): (k: nat)
    requires n > 0
    ensures k < n
    ensures r < n ==> k == r
  {
    r % n
  }

  /** The position the shuffle oracle draws next out of `n` remaining elements. */
  function PickIndex(picks: seq<nat>, n: nat): (j: nat)
    requires n > 0
    ensures j < n
  {
    Draw(if picks == [] then 0 else picks[0], n)
  }

  /** `[...pool].sort(() => 0.5 - Math.random())` as an oracle: element
      `PickIndex(picks, |s|)` comes first and the rest is shuffled by the remaining
      picks, so the result is always a permutation, and every permutation is
      some outcome (`EveryPermutationReachable`). */
  function Shuffled<T>(s: seq<T>, picks: seq<nat>): (r: seq<T>)
    ensures |r| == |s|
    ensures multiset(r) == multiset(s)
    decreases |s|
  {
    if s == [] then []
    else
      var j := PickIndex(picks, |s|);
      assert s == s[..j] + [s[j]] + s[j + 1..];
      [s[j]] + Shuffled(s[..j] + s[j + 1..], if picks == [] then [] else picks[1..])
  }

  /** Matching the head of `r` with element `j` of `s` leaves two tails that
      are still permutations of each other. */
  lemma RemoveMatched<T>(s: seq<T>, r: seq<T>, j: nat)
    requires multiset(r) == multiset(s)
    requires j < |s| && 0 < |r| && s[j] == r[0]
    ensures multiset(r[1..]) == multiset(s[..j] + s[j + 1..])
  {
    assert r == [r[0]] + r[1..];
    assert s == s[..j] + [s[j]] + s[j + 1..];
    calc {
      multiset(r[1..]);
      multiset(r) - multiset{r[0]};
      multiset(s[..j]) + multiset{s[j]} + multiset(s[j + 1..]) - multiset{s[j]};
      multiset(s[..j]) + multiset(s[j + 1..]);
    }
  }

  /** A non-empty sequence is its head followed by its tail. */
  lemma HeadTail<T>(r: seq<T>)
    requires |r| > 0
    ensures r == [r[0]] + r[1..]
  {
  }

  /** Picks that start with `j` put element `j` first. */
  lemma ShuffledFirst<T>(s: seq<T>, j: nat, more: seq<nat>)
    requires j < |s|
    ensures Shuffled(s, [j] + more) == [s[j]] + Shuffled(s[..j] + s[j + 1..], more)
  {
    assert PickIndex([j] + more, |s|) == j;
    assert ([j] + more)[1..] == more;
  }

  /** Every permutation of `s` is some outcome of the shuffle: the picks
      that produce `r` name, step by step, where its next element sits among
      those that remain. */
  lemma {:induction false} EveryPermutationReachable<T>(s: seq<T>, r: seq<T>) returns (picks: seq<nat>)
    requires multiset(r) == multiset(s)
    ensures Shuffled(s, picks) == r
    decreases |s|
  {
    assert |r| == |multiset(r)| == |multiset(s)| == |s|;
    if |s| == 0 {
      picks := [];
    } else {
      assert r[0] in multiset(s);
      var j :| 0 <= j < |s| && s[j] == r[0];
      RemoveMatched(s, r, j);
      var more := EveryPermutationReachable(s[..j] + s[j + 1..], r[1..]);
      picks := [j] + more;
      ShuffledFirst(s, j, more);
      HeadTail(r);
    }
  }

  /** Taking element `j` out of a sequence without repeated keys leaves one
      without repeated keys, none of whose keys is that of element `j`. */
  lemma RemoveAtKeepsDistinct<T>(s: seq<T>, j: nat, key: T -> string)
    requires j < |s| && DistinctBy(s, key)
    ensures DistinctBy(s[..j] + s[j + 1..], key)
    ensures forall x :: x in s[..j] + s[j + 1..] ==> key(x) != key(s[j])
  {
    var rest := s[..j] + s[j + 1..];
    forall m | 0 <= m < |rest| ensures rest[m] == s[if m < j then m else m + 1] {
      if m < j {
        assert rest[m] == s[..j][m];
      } else {
        assert rest[m] == s[j + 1..][m - j];
      }
    }
    forall a, b | 0 <= a < b < |rest| ensures key(rest[a]) != key(rest[b]) {
      assert rest[a] == s[if a < j then a else a + 1];
      assert rest[b] == s[if b < j then b else b + 1];
    }
    forall x | x in rest ensures key(x) != key(s[j]) {
      var m :| 0 <= m < |rest| && rest[m] == x;
      assert rest[m] == s[if m < j then m else m + 1];
    }
  }

  /** Shuffling never makes two elements share a key. */
  lemma {:induction false} ShuffledKeepsDistinct<T>(s: seq<T>, picks: seq<nat>, key: T -> string)
    ensures DistinctBy(s, key) ==> DistinctBy(Shuffled(s, picks), key)
    decreases |s|
  {
    if s != [] && DistinctBy(s, key) {
      var j := PickIndex(picks, |s|);
      var rest := s[..j] + s[j + 1..];
      var more := if picks == [] then [] else picks[1..];
      RemoveAtKeepsDistinct(s, j, key);
      ShuffledKeepsDistinct(rest, more, key);
      ConsKeepsDistinct(s[j], Shuffled(rest, more), key);
    }
  }
}
