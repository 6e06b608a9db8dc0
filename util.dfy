/**
 * util.js: the in-place Fisher-Yates (Durstenfeld) shuffle.  The random index
 * drawn at each step is a nondeterministic choice in [0, i]; every property
 * below holds whatever the choices are.
 */
module Util {

  /** `s` with the elements at `i` and `j` exchanged. */
  function Swap<T>(s: seq<T>, i: int, j: int): (r: seq<T>)
    requires 0 <= i < |s| && 0 <= j < |s|
    ensures |r| == |s| && r[i] == s[j] && r[j] == s[i]
    ensures forall k :: 0 <= k < |s| && k != i && k != j ==> r[k] == s[k]
  {
    s[i := s[j]][j := s[i]]
  }

  /**
   * The random indices of a run that starts at `top` and makes `|js|` steps:
   * step t swaps position `top - t` with `js[t]`, which lies in [0, top - t].
   */
  ghost predicate ValidChoices(n: int, top: int, js: seq<int>) {
    top < n && |js| <= top + 1 &&
    forall t :: 0 <= t < |js| ==> 0 <= js[t] <= top - t
  }

  /** The sequence after the swaps chosen by `js`, made from position `top` downwards. */
  ghost function ApplySwaps<T>(s: seq<T>, top: int, js: seq<int>): (r: seq<T>)
    requires ValidChoices(|s|, top, js)
    ensures |r| == |s|
    decreases |js|
  {
    if js == [] then s
    else ApplySwaps(Swap(s, top, js[0]), top - 1, js[1..])
  }

  /** The result of a whole shuffle of `s` with the random choices `js`. */
  ghost function Shuffled<T>(s: seq<T>, js: seq<int>): seq<T>
    requires ValidChoices(|s|, |s| - 1, js) && |js| == if |s| == 0 then 0 else |s| - 1
  {
    ApplySwaps(s, |s| - 1, js)
  }

  /** One more step at the end of a run. */
  lemma {:induction false} ApplySwapsSnoc<T>(s: seq<T>, top: int, js: seq<int>, j: int)
    requires ValidChoices(|s|, top, js) && |js| <= top && 0 <= j <= top - |js|
    ensures ValidChoices(|s|, top, js + [j])
    ensures ApplySwaps(s, top, js + [j]) == Swap(ApplySwaps(s, top, js), top - |js|, j)
    decreases |js|
  {
    assert forall t :: 0 <= t < |js| ==> (js + [j])[t] == js[t];
    if js == [] {
      assert ([] + [j])[1..] == [];
    } else {
      var s' := Swap(s, top, js[0]);
      assert (js + [j])[0] == js[0];
      assert (js + [j])[1..] == js[1..] + [j];
      assert forall t :: 0 <= t < |js[1..] + [j]| ==> (js[1..] + [j])[t] == (js + [j])[t + 1];
      ApplySwapsSnoc(s', top - 1, js[1..], j);
    }
  }

  /** A swap rearranges, it neither adds nor loses elements. */
  lemma SwapPermutes<T>(s: seq<T>, i: int, j: int)
    requires 0 <= i < |s| && 0 <= j < |s|
    ensures multiset(Swap(s, i, j)) == multiset(s)
  {
  }

  /** Whatever the random choices, a shuffle is a permutation of its input. */
  lemma {:induction false} ShuffledPermutes<T>(s: seq<T>, top: int, js: seq<int>)
    requires ValidChoices(|s|, top, js)
    ensures multiset(ApplySwaps(s, top, js)) == multiset(s)
    decreases |js|
  {
    if js != [] {
      SwapPermutes(s, top, js[0]);
      assert forall t :: 0 <= t < |js[1..]| ==> js[1..][t] == js[t + 1];
      ShuffledPermutes(Swap(s, top, js[0]), top - 1, js[1..]);
    }
  }

  /** A sequence of length at most one has nothing to swap. */
  lemma ShortIsUnchanged<T>(s: seq<T>, js: seq<int>)
    requires |s| <= 1 && ValidChoices(|s|, |s| - 1, js) && |js| == 0
    ensures Shuffled(s, js) == s
  {
  }

  /**
   * `shuffleArray`: shuffles `a` in place and returns the same array.  The
   * ghost `js` records the index drawn at every step.
   */
  method ShuffleArray<T>(a: array<T>) returns (r: array<T>, ghost js: seq<int>)
    modifies a
    ensures r == a
    ensures ValidChoices(a.Length, a.Length - 1, js)
    ensures |js| == if a.Length == 0 then 0 else a.Length - 1
    ensures a[..] == Shuffled(old(a[..]), js)
    ensures multiset(a[..]) == multiset(old(a[..]))
    ensures a.Length <= 1 ==> a[..] == old(a[..])
  {
    ghost var s := a[..];
    js := [];
    var i := a.Length - 1;
    while i > 0
      invariant -1 <= i < a.Length
      invariant a.Length > 0 ==> i >= 0
      invariant a.Length > 0 ==> i == a.Length - 1 - |js|
      invariant a.Length == 0 ==> js == []
      invariant ValidChoices(a.Length, a.Length - 1, js)
      invariant a[..] == ApplySwaps(s, a.Length - 1, js)
    {
      var j :| 0 <= j <= i;
      ApplySwapsSnoc(s, a.Length - 1, js, j);
      a[i], a[j] := a[j], a[i];
      js := js + [j];
      i := i - 1;
    }
    ShuffledPermutes(s, a.Length - 1, js);
    r := a;
  }

  /**
   * `Object.keys(m)`: the keys of `m`, each once, in an order the model
   * leaves open.
   */
  method KeysOf<V>(m: map<string, V>) returns (ks: seq<string>)
    ensures |ks| == |m.Keys|
    ensures forall k :: k in m <==> k in ks
    ensures forall i, j :: 0 <= i < j < |ks| ==> ks[i] != ks[j]
  {
    ks := [];
    var rest := m.Keys;
    while rest != {}
      invariant rest <= m.Keys
      invariant forall k :: k in m <==> k in ks || k in rest
      invariant forall k :: k in ks ==> k !in rest
      invariant forall i, j :: 0 <= i < j < |ks| ==> ks[i] != ks[j]
      invariant |ks| + |rest| == |m.Keys|
      decreases rest
    {
      var k :| k in rest;
      ks := ks + [k];
      rest := rest - {k};
    }
  }

  /** Concatenation regrouped: the proof hint of the loops that append to a connection's output. */
  lemma AppendAssoc<T>(a: seq<T>, b: seq<T>, c: seq<T>)
    ensures a + (b + c) == (a + b) + c
  {
  }
}
