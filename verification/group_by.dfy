/**
 * Grouping a stream of postings by key, as a JavaScript `Map` does when a
 * loop runs `m.set(k, (m.get(k) || 0) + v)` for each item
 * (supabase/functions/calculate-settlements/index.ts:100-123,
 * src/pages/Analytics.tsx:117-125, 141-172).
 *
 * A `Map` iterates its keys in first-insertion order; `KeysOf` is that order
 * and `SumFor` / `CountFor` are the value and the number of postings a key
 * accumulates. The lemmas say that the per-key sums add up to the grand total.
 */
module GroupBy {

  datatype Posting = Posting(key: string, value: real)

  predicate Distinct(xs: seq<string>)
  {
    forall i, j :: 0 <= i < j < |xs| ==> xs[i] != xs[j]
  }

  /** First occurrences of `xs`, in order. */
  function Dedup(xs: seq<string>): seq<string>
  {
    if xs == [] then []
    else
      var d := Dedup(xs[..|xs| - 1]);
      if xs[|xs| - 1] in d then d else d + [xs[|xs| - 1]]
  }

  function KeyList(ps: seq<Posting>): seq<string>
  {
    if ps == [] then [] else KeyList(ps[..|ps| - 1]) + [ps[|ps| - 1].key]
  }

  /** The keys a `Map` fed with `ps` would hold, in iteration order. */
  function KeysOf(ps: seq<Posting>): seq<string>
  {
    Dedup(KeyList(ps))
  }

  /** Sum of the values posted to `k`. */
  function SumFor(ps: seq<Posting>, k: string): real
  {
    if ps == [] then 0.0
    else SumFor(ps[..|ps| - 1], k) + (if ps[|ps| - 1].key == k then ps[|ps| - 1].value else 0.0)
  }

  /** Number of postings to `k`. */
  function CountFor(ps: seq<Posting>, k: string): nat
  {
    if ps == [] then 0
    else CountFor(ps[..|ps| - 1], k) + (if ps[|ps| - 1].key == k then 1 else 0)
  }

  /** Sum of all posted values. */
  function PostedTotal(ps: seq<Posting>): real
  {
    if ps == [] then 0.0 else PostedTotal(ps[..|ps| - 1]) + ps[|ps| - 1].value
  }

  /** Sum over the keys `ks` of what each key accumulates. */
  function SumOverKeys(ps: seq<Posting>, ks: seq<string>): real
  {
    if ks == [] then 0.0 else SumOverKeys(ps, ks[..|ks| - 1]) + SumFor(ps, ks[|ks| - 1])
  }

  /** Sum over the keys `ks` of each key's posting count. */
  function CountOverKeys(ps: seq<Posting>, ks: seq<string>): int
  {
    if ks == [] then 0 else CountOverKeys(ps, ks[..|ks| - 1]) + CountFor(ps, ks[|ks| - 1])
  }

  /** `m.get(k) || 0` */
  function Get(m: map<string, real>, k: string): real
  {
    if k in m then m[k] else 0.0
  }

  /** Dedup keeps exactly the elements of its input, each once. */
  lemma {:induction false} DedupSpec(xs: seq<string>)
    ensures Distinct(Dedup(xs))
    ensures forall x :: x in Dedup(xs) <==> x in xs
  {
    if xs != [] {
      var init := xs[..|xs| - 1];
      DedupSpec(init);
      assert xs == init + [xs[|xs| - 1]];
    }
  }

  lemma {:induction false} KeyListSpec(ps: seq<Posting>)
    ensures |KeyList(ps)| == |ps|
    ensures forall i :: 0 <= i < |ps| ==> KeyList(ps)[i] == ps[i].key
  {
    if ps != [] {
      KeyListSpec(ps[..|ps| - 1]);
    }
  }

  /** The keys are distinct, and they are exactly the keys posted to. */
  lemma KeysOfSpec(ps: seq<Posting>)
    ensures Distinct(KeysOf(ps))
    ensures forall k :: k in KeysOf(ps) <==> exists i :: 0 <= i < |ps| && ps[i].key == k
  {
    var kl := KeyList(ps);
    DedupSpec(kl);
    KeyListSpec(ps);
    forall k | k in KeysOf(ps) ensures exists i :: 0 <= i < |ps| && ps[i].key == k {
      assert k in kl;
      var i :| 0 <= i < |kl| && kl[i] == k;
      assert ps[i].key == k;
    }
    forall k, i | 0 <= i < |ps| && ps[i].key == k ensures k in KeysOf(ps) {
      assert kl[i] == k;
    }
  }

  /** What appending one posting does to the grouped state. */
  lemma PostStep(ps: seq<Posting>, p: Posting)
    ensures KeysOf(ps + [p]) == if p.key in KeysOf(ps) then KeysOf(ps) else KeysOf(ps) + [p.key]
    ensures forall k :: SumFor(ps + [p], k) == SumFor(ps, k) + (if k == p.key then p.value else 0.0)
    ensures forall k :: CountFor(ps + [p], k) == CountFor(ps, k) + (if k == p.key then 1 else 0)
    ensures PostedTotal(ps + [p]) == PostedTotal(ps) + p.value
  {
    assert (ps + [p])[..|ps|] == ps;
    assert KeyList(ps + [p]) == KeyList(ps) + [p.key];
    assert (KeyList(ps) + [p.key])[..|KeyList(ps)|] == KeyList(ps);
  }

  lemma {:induction false} SumForAppend(a: seq<Posting>, b: seq<Posting>, k: string)
    ensures SumFor(a + b, k) == SumFor(a, k) + SumFor(b, k)
    decreases |b|
  {
    if b == [] {
      assert a + b == a;
    } else {
      assert (a + b)[..|a + b| - 1] == a + b[..|b| - 1];
      SumForAppend(a, b[..|b| - 1], k);
    }
  }

  lemma {:induction false} PostedTotalAppend(a: seq<Posting>, b: seq<Posting>)
    ensures PostedTotal(a + b) == PostedTotal(a) + PostedTotal(b)
    decreases |b|
  {
    if b == [] {
      assert a + b == a;
    } else {
      assert (a + b)[..|a + b| - 1] == a + b[..|b| - 1];
      PostedTotalAppend(a, b[..|b| - 1]);
    }
  }

  /** A key nobody posted to accumulates nothing. */
  lemma {:induction false} SumForAbsent(ps: seq<Posting>, k: string)
    requires forall i :: 0 <= i < |ps| ==> ps[i].key != k
    ensures SumFor(ps, k) == 0.0 && CountFor(ps, k) == 0
  {
    if ps != [] {
      SumForAbsent(ps[..|ps| - 1], k);
    }
  }

  /** A key that is not among the grouped keys has accumulated nothing. */
  lemma NewKey(ps: seq<Posting>, k: string)
    requires k !in KeysOf(ps)
    ensures SumFor(ps, k) == 0.0 && CountFor(ps, k) == 0
  {
    KeysOfSpec(ps);
    SumForAbsent(ps, k);
  }

  /** Adding one posting changes the sum over distinct keys by its value if its key is among them. */
  lemma {:induction false} SumOverKeysStep(ps: seq<Posting>, p: Posting, ks: seq<string>)
    requires Distinct(ks)
    ensures SumOverKeys(ps + [p], ks) == SumOverKeys(ps, ks) + (if p.key in ks then p.value else 0.0)
    ensures CountOverKeys(ps + [p], ks) == CountOverKeys(ps, ks) + (if p.key in ks then 1 else 0)
  {
    PostStep(ps, p);
    if ks != [] {
      var init := ks[..|ks| - 1];
      assert ks == init + [ks[|ks| - 1]];
      SumOverKeysStep(ps, p, init);
    }
  }

  /** Over any distinct key list covering every posted key, the per-key sums add up to the total. */
  lemma {:induction false} SumOverCoveringKeys(ps: seq<Posting>, ks: seq<string>)
    requires Distinct(ks)
    requires forall i :: 0 <= i < |ps| ==> ps[i].key in ks
    ensures SumOverKeys(ps, ks) == PostedTotal(ps)
    ensures CountOverKeys(ps, ks) == |ps|
  {
    if ps == [] {
      EmptyOverKeys(ks);
    } else {
      var init := ps[..|ps| - 1];
      var p := ps[|ps| - 1];
      SumOverCoveringKeys(init, ks);
      assert ps == init + [p];
      SumOverKeysStep(init, p, ks);
    }
  }

  lemma {:induction false} EmptyOverKeys(ks: seq<string>)
    ensures SumOverKeys([], ks) == 0.0 && CountOverKeys([], ks) == 0
  {
    if ks != [] {
      EmptyOverKeys(ks[..|ks| - 1]);
    }
  }

  /**
   * Grouping loses nothing: the per-key sums over the keys of the grouping
   * add up to the sum of all postings, and the per-key counts to their number.
   */
  lemma GroupingConserves(ps: seq<Posting>)
    ensures SumOverKeys(ps, KeysOf(ps)) == PostedTotal(ps)
    ensures CountOverKeys(ps, KeysOf(ps)) == |ps|
  {
    KeysOfSpec(ps);
    forall i | 0 <= i < |ps| ensures ps[i].key in KeysOf(ps) {
    }
    SumOverCoveringKeys(ps, KeysOf(ps));
  }
}
