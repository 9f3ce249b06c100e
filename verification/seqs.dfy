/**
 * Generic sequence operations the store's handlers are built from: the
 * left-to-right sum that `Array.prototype.reduce` computes, the keyed search of
 * `findIndex`, `splice(i, 1)`, `filter((_, i) => i !== index)` and reversal.
 */
module Seqs {

  /** `s.reduce((acc, x) => acc + f(x), 0)`: folded from the left, one element at a time. */
  function Sum<T>(s: seq<T>, f: T -> nat): nat
    decreases |s|
  {
    if s == [] then 0 else Sum(s[..|s| - 1], f) + f(s[|s| - 1])
  }

  lemma {:induction false} SumAppend<T>(a: seq<T>, b: seq<T>, f: T -> nat)
    ensures Sum(a + b, f) == Sum(a, f) + Sum(b, f)
    decreases |b|
  {
    if b == [] {
      assert a + b == a;
    } else {
      var b' := b[..|b| - 1];
      assert (a + b)[..|a + b| - 1] == a + b';
      SumAppend(a, b', f);
    }
  }

  /** A sum is zero exactly when every summand is zero. */
  lemma {:induction false} SumZeroIff<T>(s: seq<T>, f: T -> nat)
    ensures Sum(s, f) == 0 <==> forall i :: 0 <= i < |s| ==> f(s[i]) == 0
    decreases |s|
  {
    if s != [] {
      var s' := s[..|s| - 1];
      SumZeroIff(s', f);
      assert forall i :: 0 <= i < |s'| ==> s'[i] == s[i];
    }
  }

  lemma {:induction false} SumSingleton<T>(x: T, f: T -> nat)
    ensures Sum([x], f) == f(x)
  {
    assert [x][..0] == [];
  }

  /** Replacing one element changes the sum by exactly the difference of the two summands. */
  lemma {:induction false} SumUpdate<T>(s: seq<T>, k: nat, x: T, f: T -> nat)
    requires k < |s|
    ensures Sum(s[k := x], f) + f(s[k]) == Sum(s, f) + f(x)
  {
    var t := s[k := x];
    assert s == s[..k] + [s[k]] + s[k + 1..];
    assert t == s[..k] + [x] + s[k + 1..];
    SumAppend(s[..k] + [s[k]], s[k + 1..], f);
    SumAppend(s[..k], [s[k]], f);
    SumAppend(s[..k] + [x], s[k + 1..], f);
    SumAppend(s[..k], [x], f);
    assert [s[k]][..0] == [] && [x][..0] == [];
  }

  /** `s.findIndex(x => key(x) === k)`: the first position whose key is `k`, or -1 when there is none. */
  function FindIndex<T, K(==)>(s: seq<T>, key: T -> K, k: K): (i: int)
    ensures -1 <= i < |s|
    ensures 0 <= i ==> key(s[i]) == k && forall j :: 0 <= j < i ==> key(s[j]) != k
    ensures i == -1 <==> forall j :: 0 <= j < |s| ==> key(s[j]) != k
    decreases |s|
  {
    if s == [] then -1
    else if key(s[0]) == k then 0
    else
      var i := FindIndex(s[1..], key, k);
      if i == -1 then -1 else i + 1
  }

  /** One element appended: a key found before stays where it was; otherwise the new element may carry it. */
  lemma {:induction false} FindIndexSnoc<T, K>(s: seq<T>, x: T, key: T -> K, k: K)
    ensures FindIndex(s + [x], key, k) ==
      if FindIndex(s, key, k) >= 0 then FindIndex(s, key, k) else if key(x) == k then |s| else -1
  {
    var t := s + [x];
    assert forall j :: 0 <= j < |s| ==> t[j] == s[j];
    assert t[|s|] == x;
  }

  /** `splice(i, 1)`: the element at `i` goes, the others keep their order. */
  function RemoveAt<T>(s: seq<T>, i: nat): (r: seq<T>)
    requires i < |s|
    ensures |r| == |s| - 1
    ensures forall j :: 0 <= j < i ==> r[j] == s[j]
    ensures forall j :: i <= j < |r| ==> r[j] == s[j + 1]
  {
    s[..i] + s[i + 1..]
  }

  lemma {:induction false} SumRemoveAt<T>(s: seq<T>, i: nat, f: T -> nat)
    requires i < |s|
    ensures Sum(RemoveAt(s, i), f) + f(s[i]) == Sum(s, f)
  {
    var front, back := s[..i], s[i + 1..];
    SumSingleton(s[i], f);
    SumAppend([s[i]], back, f);
    SumAppend(front, [s[i]] + back, f);
    assert s == front + ([s[i]] + back);
    SumAppend(front, back, f);
  }

  /** `s.filter((_, i) => i !== index)`, written as the filter it is. */
  function KeepOthers<T>(s: seq<T>, index: int): seq<T>
    decreases |s|
  {
    if s == [] then []
    else (if index == 0 then [] else [s[0]]) + KeepOthers(s[1..], index - 1)
  }

  /** Filtering out a valid position is the same as splicing it out. */
  lemma {:induction false} KeepOthersRemovesIndex<T>(s: seq<T>, index: nat)
    requires index < |s|
    ensures KeepOthers(s, index) == RemoveAt(s, index)
    decreases |s|
  {
    if index == 0 {
      KeepOthersOutOfRange(s[1..], -1);
    } else {
      KeepOthersRemovesIndex(s[1..], index - 1);
      assert [s[0]] + RemoveAt(s[1..], index - 1) == RemoveAt(s, index);
    }
  }

  /** A position outside the sequence filters nothing out. */
  lemma {:induction false} KeepOthersOutOfRange<T>(s: seq<T>, index: int)
    requires index < 0 || index >= |s|
    ensures KeepOthers(s, index) == s
    decreases |s|
  {
    if s != [] {
      KeepOthersOutOfRange(s[1..], index - 1);
      assert [s[0]] + s[1..] == s;
    }
  }

  /** Reversal: position `i` of the result holds the element `i` places from the end. */
  function Reverse<T>(s: seq<T>): (r: seq<T>)
    ensures |r| == |s|
    ensures forall i :: 0 <= i < |s| ==> r[i] == s[|s| - 1 - i]
    decreases |s|
  {
    if s == [] then [] else [s[|s| - 1]] + Reverse(s[..|s| - 1])
  }

  /** Reversing does not change a sum. */
  lemma {:induction false} SumReverse<T>(s: seq<T>, f: T -> nat)
    ensures Sum(Reverse(s), f) == Sum(s, f)
    decreases |s|
  {
    if s != [] {
      var s' := s[..|s| - 1];
      SumReverse(s', f);
      assert Reverse(s) == [s[|s| - 1]] + Reverse(s');
      SumAppend([s[|s| - 1]], Reverse(s'), f);
      assert [s[|s| - 1]][..0] == [];
    }
  }

  /** Taking one more element of `s` after a fixed prefix appends that element. */
  lemma {:induction false} TakeOneMore<T>(prefix: seq<T>, s: seq<T>, j: nat)
    requires j < |s|
    ensures prefix + s[..j + 1] == (prefix + s[..j]) + [s[j]]
  {
    assert s[..j + 1] == s[..j] + [s[j]];
  }
}
