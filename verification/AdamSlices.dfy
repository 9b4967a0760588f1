/** Multiset equality of two string slices, decided with a counter map that is shrunk in place. */
module AdamSlices {

  /** The counters of a multiset: one positive entry for each element. */
  ghost predicate Counts(diff: map<string, int>, m: multiset<string>) {
    && (forall s :: s in diff <==> s in m)
    && (forall s | s in diff :: diff[s] == m[s])
  }

  function Incremented(diff: map<string, int>, s: string): map<string, int> {
    diff[s := (if s in diff then diff[s] else 0) + 1]
  }

  function Decremented(diff: map<string, int>, s: string): map<string, int>
    requires s in diff
  {
    var next := diff[s := diff[s] - 1];
    if next[s] == 0 then next - {s} else next
  }

  lemma CountOneMore(diff: map<string, int>, m: multiset<string>, s: string)
    requires Counts(diff, m)
    ensures Counts(Incremented(diff, s), m + multiset{s})
  {
  }

  lemma CountOneLess(diff: map<string, int>, m: multiset<string>, s: string)
    requires Counts(diff, m) && s in diff
    ensures Counts(Decremented(diff, s), m - multiset{s})
  {
  }

  lemma PrefixStep(y: seq<string>, j: nat)
    requires j < |y|
    ensures multiset(y[..j + 1]) == multiset(y[..j]) + multiset{y[j]}
    ensures multiset(y[..j + 1]) <= multiset(y)
  {
    assert y[..j + 1] == y[..j] + [y[j]];
    assert y == y[..j + 1] + y[j + 1..];
  }

  lemma SizeOfDifference(x: seq<string>, y: seq<string>)
    requires |x| == |y| && multiset(y) <= multiset(x)
    ensures multiset(y) == multiset(x)
  {
    var rest := multiset(x) - multiset(y);
    assert multiset(x) == multiset(y) + rest;
    assert |multiset(x)| == |multiset(y)| + |rest|;
  }

  /** The first loop: counts every element. */
  method CountElements(x: seq<string>) returns (diff: map<string, int>)
    ensures Counts(diff, multiset(x))
  {
    hide Counts;
    diff := map[];
    NothingCounted();
    for i := 0 to |x|
      invariant Counts(diff, multiset(x[..i]))
    {
      PrefixStep(x, i);
      CountOneMore(diff, multiset(x[..i]), x[i]);
      diff := diff[x[i] := (if x[i] in diff then diff[x[i]] else 0) + 1];
    }
    assert x[..|x|] == x;
  }

  /** True exactly for slices with the same elements, each equally often. Once the second loop
      ends the counters are all used up, so the source's last `return false` is never reached. */
  method SlicesEqual(x: seq<string>, y: seq<string>) returns (equal: bool)
    ensures equal <==> multiset(x) == multiset(y)
  {
    hide Counts;
    if |x| != |y| {
      assert |multiset(x)| == |x| && |multiset(y)| == |y|;
      return false;
    }
    var diff := CountElements(x);
    ghost var left := multiset(x);
    for j := 0 to |y|
      invariant left + multiset(y[..j]) == multiset(x)
      invariant Counts(diff, left)
    {
      PrefixStep(y, j);
      Counted(diff, left, y[j]);
      if y[j] !in diff {
        assert multiset(y)[y[j]] > multiset(x)[y[j]];
        return false;
      }
      CountOneLess(diff, left, y[j]);
      diff := diff[y[j] := diff[y[j]] - 1];
      if diff[y[j]] == 0 {
        diff := diff - {y[j]};
      }
      left := left - multiset{y[j]};
    }
    assert y[..|y|] == y;
    SizeOfDifference(x, y);
    AllCounted(diff);
    equal := |diff| == 0;
  }

  lemma NothingCounted()
    ensures Counts(map[], multiset{})
  {
  }

  lemma Counted(diff: map<string, int>, m: multiset<string>, s: string)
    requires Counts(diff, m)
    ensures s in diff <==> m[s] > 0
  {
  }

  lemma AllCounted(diff: map<string, int>)
    requires Counts(diff, multiset{})
    ensures diff == map[]
  {
  }
}
