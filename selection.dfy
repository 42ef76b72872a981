/**
  The model selection: a list of model keys that the user edits by clicking
  on a model, keeping at most one selected model per provider.
 */
module Selection {
  import opened Catalog

  /** What a filter keeps: every key but one, or every key outside one provider. */
  datatype Criterion = OtherThan(key: ModelKey) | OutsideProvider(provider: Provider)

  predicate Keeps(c: Criterion, m: ModelKey) {
    match c
    case OtherThan(k) => m != k
    case OutsideProvider(p) => ProviderOf(m) != p
  }

  /** The keys of `s` that `c` keeps, in their order in `s`. */
  function Filter(s: seq<ModelKey>, c: Criterion): (r: seq<ModelKey>)
    ensures |r| <= |s|
  {
    if s == [] then []
    else (if Keeps(c, s[0]) then [s[0]] else []) + Filter(s[1..], c)
  }

  /** `r` is obtained from `s` by deleting some of its elements. */
  ghost predicate IsSubsequence(r: seq<ModelKey>, s: seq<ModelKey>)
    decreases |s|
  {
    r == [] || (s != [] && ((r[0] == s[0] && IsSubsequence(r[1..], s[1..])) || IsSubsequence(r, s[1..])))
  }

  /** No key is selected twice. */
  ghost predicate Distinct(s: seq<ModelKey>) {
    forall i, j :: 0 <= i < j < |s| ==> s[i] != s[j]
  }

  /** No two selected keys share a provider. */
  ghost predicate OnePerProvider(s: seq<ModelKey>) {
    forall i, j :: 0 <= i < j < |s| ==> ProviderOf(s[i]) != ProviderOf(s[j])
  }

  /** The invariant the selection keeps. */
  ghost predicate Valid(s: seq<ModelKey>) {
    Distinct(s) && OnePerProvider(s)
  }

  /** The selection's initial value. */
  const InitialSelection: seq<ModelKey> := [Gpt5Nano]

  /**
    The update a click on model `k` applies to the selection `prev`: a
    selected key is deselected; otherwise the keys of its provider are
    dropped and `k` is appended.
   */
  function Toggle(prev: seq<ModelKey>, k: ModelKey): (r: seq<ModelKey>)
    ensures k in r <==> k !in prev
    ensures forall m :: m in r ==> m in prev || m == k
    ensures |r| <= |prev| + 1
  {
    if k in prev then
      FilterMembership(prev, OtherThan(k));
      Filter(prev, OtherThan(k))
    else
      FilterMembership(prev, OutsideProvider(ProviderOf(k)));
      Filter(prev, OutsideProvider(ProviderOf(k))) + [k]
  }

  /** The selection after a series of clicks: every key in it was there before or was clicked. */
  function ToggleAll(s: seq<ModelKey>, clicks: seq<ModelKey>): (r: seq<ModelKey>)
    ensures forall m :: m in r ==> m in s || m in clicks
    decreases |clicks|
  {
    if clicks == [] then s
    else
      var r := ToggleAll(Toggle(s, clicks[0]), clicks[1..]);
      assert forall m :: m in clicks[1..] ==> m in clicks;
      r
  }

  // ---------------------------------------------------------------------
  // Filter

  /** A key survives the filter exactly when it was there and is kept. */
  lemma {:induction false} FilterMembers(s: seq<ModelKey>, c: Criterion, m: ModelKey)
    ensures m in Filter(s, c) <==> m in s && Keeps(c, m)
  {
    if s != [] {
      FilterMembers(s[1..], c, m);
      assert s == [s[0]] + s[1..];
    }
  }

  lemma FilterMembership(s: seq<ModelKey>, c: Criterion)
    ensures forall m :: m in Filter(s, c) <==> m in s && Keeps(c, m)
  {
    forall m ensures m in Filter(s, c) <==> m in s && Keeps(c, m) {
      FilterMembers(s, c, m);
    }
  }

  /** Filter keeps exactly the kept occurrences of every key. */
  lemma {:induction false} FilterCount(s: seq<ModelKey>, c: Criterion, m: ModelKey)
    ensures multiset(Filter(s, c))[m] == if Keeps(c, m) then multiset(s)[m] else 0
  {
    if s != [] {
      var t := s[1..];
      FilterCount(t, c, m);
      assert s == [s[0]] + t;
      assert multiset(s) == multiset{s[0]} + multiset(t);
      if Keeps(c, s[0]) {
        assert multiset(Filter(s, c)) == multiset{s[0]} + multiset(Filter(t, c));
      } else {
        assert Filter(s, c) == Filter(t, c);
      }
    }
  }

  /** Filter preserves the order of the elements it keeps. */
  lemma {:induction false} FilterIsSubsequence(s: seq<ModelKey>, c: Criterion)
    ensures IsSubsequence(Filter(s, c), s)
  {
    if s != [] {
      FilterIsSubsequence(s[1..], c);
      var t := Filter(s[1..], c);
      var r := Filter(s, c);
      if Keeps(c, s[0]) {
        assert r == [s[0]] + t;
        assert r[0] == s[0] && r[1..] == t;
        assert IsSubsequence(r[1..], s[1..]);
      } else {
        assert r == t;
        assert IsSubsequence(r, s[1..]);
      }
    }
  }

  lemma {:induction false} FilterAllKept(s: seq<ModelKey>, c: Criterion)
    requires forall m :: m in s ==> Keeps(c, m)
    ensures Filter(s, c) == s
  {
    if s != [] {
      FilterAllKept(s[1..], c);
      assert s == [s[0]] + s[1..];
    }
  }

  lemma {:induction false} FilterAppend(a: seq<ModelKey>, b: seq<ModelKey>, c: Criterion)
    ensures Filter(a + b, c) == Filter(a, c) + Filter(b, c)
  {
    if a == [] {
      assert a + b == b;
    } else {
      var h := if Keeps(c, a[0]) then [a[0]] else [];
      assert (a + b)[0] == a[0] && (a + b)[1..] == a[1..] + b;
      assert Filter(a + b, c) == h + Filter(a[1..] + b, c);
      FilterAppend(a[1..], b, c);
      assert Filter(a, c) == h + Filter(a[1..], c);
      assert h + (Filter(a[1..], c) + Filter(b, c)) == (h + Filter(a[1..], c)) + Filter(b, c);
    }
  }

  /** Filtering out exactly one position cuts that position out. */
  lemma {:induction false} FilterDropsAt(s: seq<ModelKey>, c: Criterion, i: nat)
    requires i < |s| && !Keeps(c, s[i])
    requires forall j :: 0 <= j < |s| && j != i ==> Keeps(c, s[j])
    ensures Filter(s, c) == s[..i] + s[i + 1..]
    ensures |Filter(s, c)| == |s| - 1
  {
    var t := s[1..];
    if i == 0 {
      forall m | m in t ensures Keeps(c, m) {
        var j :| 0 <= j < |t| && t[j] == m;
        assert s[j + 1] == m;
      }
      FilterAllKept(t, c);
      assert s[..0] + s[1..] == t;
    } else {
      forall j | 0 <= j < |t| && j != i - 1 ensures Keeps(c, t[j]) {
        assert t[j] == s[j + 1];
      }
      FilterDropsAt(t, c, i - 1);
      assert Filter(s, c) == [s[0]] + Filter(t, c) by {
        assert Keeps(c, s[0]);
      }
      assert [s[0]] + t[..i - 1] == s[..i];
      assert t[i..] == s[i + 1..];
    }
  }

  lemma DistinctTail(s: seq<ModelKey>)
    requires s != [] && Distinct(s)
    ensures s[0] !in s[1..] && Distinct(s[1..])
  {
    forall i, j | 0 <= i < j < |s[1..]| ensures s[1..][i] != s[1..][j] {
      assert s[1..][i] == s[i + 1] && s[1..][j] == s[j + 1];
    }
  }

  lemma OnePerProviderTail(s: seq<ModelKey>)
    requires s != [] && OnePerProvider(s)
    ensures forall m :: m in s[1..] ==> ProviderOf(m) != ProviderOf(s[0])
    ensures OnePerProvider(s[1..])
  {
    forall i, j | 0 <= i < j < |s[1..]|
      ensures ProviderOf(s[1..][i]) != ProviderOf(s[1..][j])
    {
      assert s[1..][i] == s[i + 1] && s[1..][j] == s[j + 1];
    }
  }

  /** Prepending a key that is absent keeps a list duplicate-free. */
  lemma DistinctCons(m: ModelKey, t: seq<ModelKey>)
    requires m !in t && Distinct(t)
    ensures Distinct([m] + t)
  {
    var r := [m] + t;
    forall i, j | 0 <= i < j < |r| ensures r[i] != r[j] {
      assert r[j] == t[j - 1];
      if i > 0 { assert r[i] == t[i - 1]; }
    }
  }

  /** Prepending a key of a provider absent from the list keeps one key per provider. */
  lemma OnePerProviderCons(m: ModelKey, t: seq<ModelKey>)
    requires (forall x :: x in t ==> ProviderOf(x) != ProviderOf(m)) && OnePerProvider(t)
    ensures OnePerProvider([m] + t)
  {
    var r := [m] + t;
    forall i, j | 0 <= i < j < |r| ensures ProviderOf(r[i]) != ProviderOf(r[j]) {
      assert r[j] == t[j - 1];
      if i > 0 { assert r[i] == t[i - 1]; }
    }
  }

  lemma {:induction false} FilterKeepsDistinct(s: seq<ModelKey>, c: Criterion)
    requires Distinct(s)
    ensures Distinct(Filter(s, c))
  {
    if s != [] {
      DistinctTail(s);
      FilterKeepsDistinct(s[1..], c);
      if Keeps(c, s[0]) {
        FilterMembers(s[1..], c, s[0]);
        DistinctCons(s[0], Filter(s[1..], c));
      }
    }
  }

  lemma {:induction false} FilterKeepsOnePerProvider(s: seq<ModelKey>, c: Criterion)
    requires OnePerProvider(s)
    ensures OnePerProvider(Filter(s, c))
  {
    if s != [] {
      OnePerProviderTail(s);
      FilterKeepsOnePerProvider(s[1..], c);
      if Keeps(c, s[0]) {
        FilterMembership(s[1..], c);
        OnePerProviderCons(s[0], Filter(s[1..], c));
      }
    }
  }

  // ---------------------------------------------------------------------
  // Toggle

  /**
    Clicking a selected key removes every occurrence of it and leaves the
    other keys, with their multiplicities, in their original order.
   */
  lemma ToggleSelected(prev: seq<ModelKey>, k: ModelKey)
    requires k in prev
    ensures var r := Toggle(prev, k);
      && k !in r
      && IsSubsequence(r, prev)
      && forall m :: m != k ==> multiset(r)[m] == multiset(prev)[m]
  {
    FilterIsSubsequence(prev, OtherThan(k));
    FilterMembers(prev, OtherThan(k), k);
    forall m | m != k ensures multiset(Toggle(prev, k))[m] == multiset(prev)[m] {
      FilterCount(prev, OtherThan(k), m);
    }
  }

  /**
    Clicking an unselected key appends it after the keys of the other
    providers, which keep their multiplicities and their original order;
    none of the keys before it shares its provider.
   */
  lemma ToggleUnselected(prev: seq<ModelKey>, k: ModelKey)
    requires k !in prev
    ensures var r := Toggle(prev, k);
      && |r| >= 1 && r[|r| - 1] == k
      && IsSubsequence(r[..|r| - 1], prev)
      && (forall i :: 0 <= i < |r| - 1 ==> ProviderOf(r[i]) != ProviderOf(k))
      && (forall m :: ProviderOf(m) != ProviderOf(k) ==> multiset(r)[m] == multiset(prev)[m])
  {
    var c := OutsideProvider(ProviderOf(k));
    var w := Filter(prev, c);
    var r := Toggle(prev, k);
    assert r == w + [k] && r[..|r| - 1] == w;
    FilterIsSubsequence(prev, c);
    forall i | 0 <= i < |r| - 1 ensures ProviderOf(r[i]) != ProviderOf(k) {
      FilterMembers(prev, c, w[i]);
    }
    forall m | ProviderOf(m) != ProviderOf(k) ensures multiset(r)[m] == multiset(prev)[m] {
      FilterCount(prev, c, m);
      assert multiset(r) == multiset(w) + multiset{k};
    }
  }

  /** Clicking any key keeps the selection free of duplicates and of two keys of one provider. */
  lemma ToggleKeepsValid(prev: seq<ModelKey>, k: ModelKey)
    requires Valid(prev)
    ensures Valid(Toggle(prev, k))
  {
    if k in prev {
      FilterKeepsDistinct(prev, OtherThan(k));
      FilterKeepsOnePerProvider(prev, OtherThan(k));
    } else {
      var w := Filter(prev, OutsideProvider(ProviderOf(k)));
      FilterKeepsDistinct(prev, OutsideProvider(ProviderOf(k)));
      FilterKeepsOnePerProvider(prev, OutsideProvider(ProviderOf(k)));
      forall i | 0 <= i < |w| ensures ProviderOf(w[i]) != ProviderOf(k) {
        FilterMembers(prev, OutsideProvider(ProviderOf(k)), w[i]);
      }
      AppendOtherProviderKeepsValid(w, k);
    }
  }

  lemma AppendOtherProviderKeepsValid(w: seq<ModelKey>, k: ModelKey)
    requires Valid(w)
    requires forall i :: 0 <= i < |w| ==> ProviderOf(w[i]) != ProviderOf(k)
    ensures Valid(w + [k])
  {
    var r := w + [k];
    forall i, j | 0 <= i < j < |r| ensures ProviderOf(r[i]) != ProviderOf(r[j]) {
      assert r[i] == w[i];
      if j < |w| { assert r[j] == w[j]; } else { assert r[j] == k; }
    }
  }

  /** Clicking the selected key at position `i` of a duplicate-free selection cuts that position out. */
  lemma ToggleDeselect(prev: seq<ModelKey>, k: ModelKey, i: nat)
    requires Distinct(prev) && i < |prev| && prev[i] == k
    ensures Toggle(prev, k) == prev[..i] + prev[i + 1..]
    ensures |Toggle(prev, k)| == |prev| - 1
  {
    FilterDropsAt(prev, OtherThan(k), i);
  }

  /** Clicking a key of a provider with nothing selected grows the selection by one. */
  lemma ToggleNewProviderGrows(prev: seq<ModelKey>, k: ModelKey)
    requires forall m :: m in prev ==> ProviderOf(m) != ProviderOf(k)
    ensures Toggle(prev, k) == prev + [k]
    ensures |Toggle(prev, k)| == |prev| + 1
  {
    FilterAllKept(prev, OutsideProvider(ProviderOf(k)));
  }

  /**
    Clicking a key whose provider already has the key at position `i`
    selected swaps the two: that position is cut out, the new key is
    appended, and the size is kept.
   */
  lemma ToggleReplace(prev: seq<ModelKey>, k: ModelKey, i: nat)
    requires OnePerProvider(prev)
    requires i < |prev| && prev[i] != k && ProviderOf(prev[i]) == ProviderOf(k)
    ensures var r := Toggle(prev, k);
      && r == prev[..i] + prev[i + 1..] + [k]
      && |r| == |prev| && prev[i] !in r
  {
    FilterDropsAt(prev, OutsideProvider(ProviderOf(k)), i);
    FilterMembers(prev, OutsideProvider(ProviderOf(k)), prev[i]);
  }

  /**
    Clicking an unselected key twice leaves the selection without any key
    of its provider: a replaced key does not come back.
   */
  lemma ToggleTwiceUnselected(prev: seq<ModelKey>, k: ModelKey)
    requires k !in prev
    ensures Toggle(Toggle(prev, k), k) == Filter(prev, OutsideProvider(ProviderOf(k)))
  {
    var w := Filter(prev, OutsideProvider(ProviderOf(k)));
    FilterMembers(prev, OutsideProvider(ProviderOf(k)), k);
    FilterAppend(w, [k], OtherThan(k));
    FilterAllKept(w, OtherThan(k));
    assert Filter([k], OtherThan(k)) == [];
  }

  /** When `k`'s provider has nothing selected, clicking `k` twice restores the selection. */
  lemma ToggleTwiceRestores(prev: seq<ModelKey>, k: ModelKey)
    requires forall m :: m in prev ==> ProviderOf(m) != ProviderOf(k)
    ensures Toggle(Toggle(prev, k), k) == prev
  {
    ToggleTwiceUnselected(prev, k);
    FilterAllKept(prev, OutsideProvider(ProviderOf(k)));
  }

  /** Every selection reachable by clicks from the initial one keeps the invariant. */
  lemma {:induction false} ToggleAllKeepsValid(s: seq<ModelKey>, clicks: seq<ModelKey>)
    requires Valid(s)
    ensures Valid(ToggleAll(s, clicks))
    decreases |clicks|
  {
    if clicks != [] {
      ToggleKeepsValid(s, clicks[0]);
      ToggleAllKeepsValid(Toggle(s, clicks[0]), clicks[1..]);
    }
  }

  lemma ReachableSelectionsValid(clicks: seq<ModelKey>)
    ensures Valid(ToggleAll(InitialSelection, clicks))
  {
    ToggleAllKeepsValid(InitialSelection, clicks);
  }
}
