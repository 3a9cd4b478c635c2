/** A reference description of what a session produces, independent of the
    step-by-step loop: the keys sighted for the first time, in order, and the
    products the catalog returns for them. */
module FirstSightings {
  import opened Wrappers
  import opened Catalog
  import opened Effects
  import opened Reconcile
  import opened Seqs

  /** The position of the first occurrence of `k` in `ks`. */
  function IndexOf(ks: seq<string>, k: string): (i: nat)
    requires k in ks
    ensures i < |ks| && ks[i] == k && k !in ks[..i]
  {
    if ks[0] == k then 0 else 1 + IndexOf(ks[1..], k)
  }

  /** Keys found after the head of `ks` sit one place further on in `ks`. */
  lemma IndexOfTail(ks: seq<string>, xs: seq<string>)
    requires ks != []
    requires forall x :: x in xs ==> x in ks[1..] && x != ks[0]
    ensures forall i :: 0 <= i < |xs| ==> xs[i] in ks && IndexOf(ks, xs[i]) == 1 + IndexOf(ks[1..], xs[i])
  {
    forall i | 0 <= i < |xs|
      ensures xs[i] in ks && IndexOf(ks, xs[i]) == 1 + IndexOf(ks[1..], xs[i])
    {
      assert xs[i] in xs;
      assert ks == [ks[0]] + ks[1..];
    }
  }

  /** The keys of `ks` that are not in `seen`, each exactly once. */
  function NewKeys(seen: set<string>, ks: seq<string>): (r: seq<string>)
    ensures Distinct(r)
    ensures forall k :: k in r <==> k in ks && k !in seen
    decreases |ks|
  {
    if ks == [] then []
    else if ks[0] in seen then NewKeys(seen, ks[1..])
    else [ks[0]] + NewKeys(seen + {ks[0]}, ks[1..])
  }

  /** `NewKeys` lists the keys in the order of their first occurrence in `ks`. */
  lemma {:induction false} NewKeysInOrder(seen: set<string>, ks: seq<string>)
    ensures forall i, j :: 0 <= i < j < |NewKeys(seen, ks)| ==>
      IndexOf(ks, NewKeys(seen, ks)[i]) < IndexOf(ks, NewKeys(seen, ks)[j])
    decreases |ks|
  {
    if ks != [] {
      var seen' := if ks[0] in seen then seen else seen + {ks[0]};
      var rest := NewKeys(seen', ks[1..]);
      NewKeysInOrder(seen', ks[1..]);
      IndexOfTail(ks, rest);
    }
  }

  /** The products the catalog returns when `keys` are looked up one after
      another as the session's lookups number `n`, `n + 1`, ...; misses and
      errors contribute nothing. */
  function Found(env: Env, n: nat, keys: seq<string>): (r: seq<Product>)
    ensures |r| <= |keys|
    decreases |keys|
  {
    if keys == [] then []
    else
      var here := match GetProductInfo(env.catalog, env.text, n, keys[0])
                  case Some(p) => [p]
                  case None => [];
      here + Found(env, n + 1, keys[1..])
  }

  /** Running the loop over any labels from any state looks up exactly the
      labels' keys not seen before, once each and in first-sighting order, and
      appends to the cart exactly the products found for them, in that order. */
  lemma {:induction false} RunMatchesFirstSightings(env: Env, s: Session, labels: seq<string>)
    ensures Lookups(RunLabels(env, s, labels).log) == Lookups(s.log) + NewKeys(s.seen, Keys(env, labels))
    ensures RunLabels(env, s, labels).cart == s.cart + Found(env, |s.seen|, NewKeys(s.seen, Keys(env, labels)))
    decreases |labels|
  {
    if labels == [] {
      assert Lookups(s.log) + [] == Lookups(s.log);
    } else {
      var k := DedupKey(env, labels[0]);
      var ks := Keys(env, labels);
      var s1 := Observe(env, s, labels[0]);
      var r := RunLabels(env, s1, labels[1..]);
      assert RunLabels(env, s, labels) == r;
      RunMatchesFirstSightings(env, s1, labels[1..]);
      assert ks[0] == k && ks[1..] == Keys(env, labels[1..]);
      if k in s.seen {
        assert s1 == s;
        assert NewKeys(s.seen, ks) == NewKeys(s.seen, ks[1..]);
      } else {
        var n := |s.seen|;
        var rest := NewKeys(s.seen + {k}, ks[1..]);
        assert NewKeys(s.seen, ks) == [k] + rest;
        assert ([k] + rest)[1..] == rest;
        assert |s1.seen| == n + 1 && s1.seen == s.seen + {k};
        match GetProductInfo(env.catalog, env.text, n, k)
        case None =>
          ObserveMissed(env, s, labels[0]);
          assert Found(env, n, [k] + rest) == Found(env, n + 1, rest);
          ConcatAssoc(Lookups(s.log), [k], rest);
        case Some(p) =>
          ObserveFound(env, s, labels[0], p);
          assert Found(env, n, [k] + rest) == [p] + Found(env, n + 1, rest);
          ConcatAssoc(Lookups(s.log), [k], rest);
          ConcatAssoc(s.cart, [p], Found(env, n + 1, rest));
      }
    }
  }
}
