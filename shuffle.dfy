/** `shuffleArray`: the Durstenfeld form of the Fisher–Yates shuffle, run on a
    copy of its input. `Math.random` is replaced by an oracle `pick`: at the
    step for index `i` it names the index `j`, with `0 <= j <= i`, that
    `Math.floor(Math.random() * (i + 1))` would give. */
module Shuffle {

  /** Every choice the oracle makes is one `Math.random` could produce. */
  ghost predicate ValidPick(pick: nat -> nat)
  {
    forall i: nat :: pick(i) <= i
  }

  /** `s` with the elements at `i` and `j` exchanged. */
  function Swap<T>(s: seq<T>, i: nat, j: nat): (r: seq<T>)
    requires i < |s| && j < |s|
    ensures |r| == |s| && r[i] == s[j] && r[j] == s[i]
    ensures forall k | 0 <= k < |s| && k != i && k != j :: r[k] == s[k]
  {
    s[i := s[j]][j := s[i]]
  }

  /** The swaps for indices `i`, `i - 1`, ..., 1, applied to `s`. */
  function ShuffleFrom<T>(s: seq<T>, pick: nat -> nat, i: nat): seq<T>
    requires ValidPick(pick) && i < |s|
    decreases i
  {
    if i == 0 then s else ShuffleFrom(Swap(s, i, pick(i)), pick, i - 1)
  }

  /** The array `shuffleArray` returns for `s` under the oracle `pick`. */
  function Shuffled<T>(s: seq<T>, pick: nat -> nat): seq<T>
    requires ValidPick(pick)
  {
    if |s| == 0 then s else ShuffleFrom(s, pick, |s| - 1)
  }

  lemma SwapPermutes<T>(s: seq<T>, i: nat, j: nat)
    requires i < |s| && j < |s|
    ensures multiset(Swap(s, i, j)) == multiset(s)
  {
  }

  lemma {:induction false} ShuffleFromPermutes<T>(s: seq<T>, pick: nat -> nat, i: nat)
    requires ValidPick(pick) && i < |s|
    ensures |ShuffleFrom(s, pick, i)| == |s|
    ensures multiset(ShuffleFrom(s, pick, i)) == multiset(s)
    decreases i
  {
    if i > 0 {
      assert pick(i) <= i;
      SwapPermutes(s, i, pick(i));
      ShuffleFromPermutes(Swap(s, i, pick(i)), pick, i - 1);
    }
  }

  /** Whatever the oracle chooses, the shuffled array has the same length as
      the input and holds the same elements, each as often. */
  lemma ShuffledIsPermutation<T>(s: seq<T>, pick: nat -> nat)
    requires ValidPick(pick)
    ensures |Shuffled(s, pick)| == |s|
    ensures multiset(Shuffled(s, pick)) == multiset(s)
  {
    if |s| > 0 {
      ShuffleFromPermutes(s, pick, |s| - 1);
    }
  }

  lemma {:induction false} ShuffleFromIdentity<T>(s: seq<T>, pick: nat -> nat, i: nat)
    requires ValidPick(pick) && i < |s|
    requires forall k: nat :: pick(k) == k
    ensures ShuffleFrom(s, pick, i) == s
    decreases i
  {
    if i > 0 {
      assert Swap(s, i, pick(i)) == s;
      ShuffleFromIdentity(s, pick, i - 1);
    }
  }

  /** An oracle that always picks the current index leaves the order as it is. */
  lemma ShuffledIdentity<T>(s: seq<T>, pick: nat -> nat)
    requires forall k: nat :: pick(k) == k
    ensures ValidPick(pick) && Shuffled(s, pick) == s
  {
    if |s| > 0 {
      ShuffleFromIdentity(s, pick, |s| - 1);
    }
  }

  /** `shuffleArray`: copy the input into a fresh array, then swap index `i`
      with the oracle's choice for `i = n - 1` down to `1`. The input, a
      value, is left as it was. */
  method ShuffleArray<T>(items: seq<T>, pick: nat -> nat) returns (shuffled: seq<T>)
    requires ValidPick(pick)
    ensures shuffled == Shuffled(items, pick)
    ensures |shuffled| == |items| && multiset(shuffled) == multiset(items)
  {
    var newArray := new T[|items|](k requires 0 <= k < |items| => items[k]);
    var i: int := |items| - 1;
    assert newArray[..] == items;
    while i > 0
      invariant -1 <= i < |items| && (|items| > 0 ==> i >= 0)
      invariant i >= 0 ==> ShuffleFrom(newArray[..], pick, i) == Shuffled(items, pick)
      invariant i < 0 ==> newArray[..] == items
    {
      var j := pick(i);
      ghost var before := newArray[..];
      newArray[i], newArray[j] := newArray[j], newArray[i];
      assert newArray[..] == Swap(before, i, j);
      i := i - 1;
    }
    shuffled := newArray[..];
    ShuffledIsPermutation(items, pick);
  }
}
