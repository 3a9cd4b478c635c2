/** The reconciliation loop of `run_model`: a set of seen labels, the shared cart
    and an effect log, advanced one detected label at a time. */
module Reconcile {
  import opened Wrappers
  import opened Labels
  import opened Catalog
  import opened Effects
  import opened Seqs

  /** What the loop relies on but does not define: the catalog store and the
      string operations `strip()` and `lower()`. */
  datatype Env = Env(catalog: CatalogFn, text: Text)

  /** One run's state: `detected_labels`, the shared `detected_items` cart, and
      the effects performed so far. */
  datatype Session = Session(seen: set<string>, cart: seq<Product>, log: seq<Effect>)

  /** The state as the frame loop begins: cart just cleared, no label seen. */
  const Initial := Session({}, [], [])

  /** The detection's dedup key: its label stripped but NOT case-folded. */
  function DedupKey(env: Env, detected: string): string {
    env.text.strip(detected)
  }

  /** The handling of one detected box. An already seen key changes nothing. An
      unseen key is marked seen and looked up, as the session's `|seen|`-th
      lookup; a found product is then recorded, cued and appended, in that order. */
  function Observe(env: Env, s: Session, detected: string): (r: Session)
    ensures DedupKey(env, detected) in s.seen ==> r == s
    ensures r.seen == s.seen + {DedupKey(env, detected)}
    ensures |s.cart| <= |r.cart| && r.cart[..|s.cart|] == s.cart
    ensures |s.log| <= |r.log| && r.log[..|s.log|] == s.log
  {
    var key := DedupKey(env, detected);
    if key in s.seen then s
    else
      var marked := s.(seen := s.seen + {key}, log := s.log + [Lookup(key)]);
      match GetProductInfo(env.catalog, env.text, |s.seen|, key)
      case None => marked
      case Some(p) =>
        marked.(log := marked.log + [Record(p.name, p.price), Cue, Append(p)],
                cart := marked.cart + [p])
  }

  /** The keys of a sequence of labels, in order. */
  function Keys(env: Env, labels: seq<string>): (r: seq<string>)
    ensures |r| == |labels|
    ensures forall i :: 0 <= i < |labels| ==> r[i] == DedupKey(env, labels[i])
  {
    if labels == [] then [] else [DedupKey(env, labels[0])] + Keys(env, labels[1..])
  }

  /** The labels of the boxes of one frame after another, in order. */
  function Flatten(frames: seq<seq<string>>): (r: seq<string>)
    ensures forall f, l :: f in frames && l in f ==> l in r
  {
    if frames == [] then [] else frames[0] + Flatten(frames[1..])
  }

  /** The boxes of a frame, handled in order. The cart and the log are only ever
      extended at the end. */
  function RunLabels(env: Env, s: Session, labels: seq<string>): (r: Session)
    ensures |s.cart| <= |r.cart| && r.cart[..|s.cart|] == s.cart
    ensures |s.log| <= |r.log| && r.log[..|s.log|] == s.log
    decreases |labels|
  {
    if labels == [] then s
    else
      var s1 := Observe(env, s, labels[0]);
      var r := RunLabels(env, s1, labels[1..]);
      assert r.cart[..|s.cart|] == r.cart[..|s1.cart|][..|s.cart|];
      assert r.log[..|s.log|] == r.log[..|s1.log|][..|s.log|];
      r
  }

  /** Seen keys stay seen, and the keys seen after a run of boxes are those seen
      before plus the keys of the boxes. */
  lemma {:induction false} RunLabelsSeen(env: Env, s: Session, labels: seq<string>)
    ensures RunLabels(env, s, labels).seen == s.seen + (set k | k in Keys(env, labels))
    decreases |labels|
  {
    if labels != [] {
      var s1 := Observe(env, s, labels[0]);
      RunLabelsSeen(env, s1, labels[1..]);
      assert Keys(env, labels) == [DedupKey(env, labels[0])] + Keys(env, labels[1..]);
    }
  }

  /** The `while True` loop over a finite sequence of frames. The cart and the
      log are only ever extended at the end. */
  function RunFrames(env: Env, s: Session, frames: seq<seq<string>>): (r: Session)
    ensures |s.cart| <= |r.cart| && r.cart[..|s.cart|] == s.cart
    ensures |s.log| <= |r.log| && r.log[..|s.log|] == s.log
    decreases |frames|
  {
    if frames == [] then s
    else
      var s1 := RunLabels(env, s, frames[0]);
      var r := RunFrames(env, s1, frames[1..]);
      assert r.cart[..|s.cart|] == r.cart[..|s1.cart|][..|s.cart|];
      assert r.log[..|s.log|] == r.log[..|s1.log|][..|s.log|];
      r
  }

  lemma {:induction false} RunLabelsConcat(env: Env, s: Session, a: seq<string>, b: seq<string>)
    ensures RunLabels(env, s, a + b) == RunLabels(env, RunLabels(env, s, a), b)
    decreases |a|
  {
    if a == [] {
      assert a + b == b;
    } else {
      assert (a + b)[1..] == a[1..] + b;
      RunLabelsConcat(env, Observe(env, s, a[0]), a[1..], b);
    }
  }

  lemma RunLabelsSingle(env: Env, s: Session, detected: string)
    ensures RunLabels(env, s, [detected]) == Observe(env, s, detected)
  {
    assert [detected][1..] == [];
  }

  lemma RunLabelsPair(env: Env, s: Session, a: string, b: string)
    ensures RunLabels(env, s, [a, b]) == Observe(env, Observe(env, s, a), b)
  {
    assert [a, b] == [a] + [b];
    RunLabelsConcat(env, s, [a], [b]);
    RunLabelsSingle(env, s, a);
    RunLabelsSingle(env, Observe(env, s, a), b);
  }

  /** Appending one more box to a run is one more step at the end. */
  lemma RunLabelsSnoc(env: Env, s: Session, labels: seq<string>, detected: string)
    ensures RunLabels(env, s, labels + [detected]) == Observe(env, RunLabels(env, s, labels), detected)
  {
    RunLabelsConcat(env, s, labels, [detected]);
    RunLabelsSingle(env, RunLabels(env, s, labels), detected);
  }

  /** Frames are processed in order and the boxes of a frame in order: the loop
      over frames is the loop over all their labels, one after another. */
  lemma {:induction false} RunFramesIsRunLabels(env: Env, s: Session, frames: seq<seq<string>>)
    ensures RunFrames(env, s, frames) == RunLabels(env, s, Flatten(frames))
    decreases |frames|
  {
    if frames != [] {
      RunLabelsConcat(env, s, frames[0], Flatten(frames[1..]));
      RunFramesIsRunLabels(env, RunLabels(env, s, frames[0]), frames[1..]);
    }
  }

  /** The seen set after the frame loop is the one before it plus the key of
      every box of every frame. */
  lemma RunFramesSeen(env: Env, s: Session, frames: seq<seq<string>>)
    ensures RunFrames(env, s, frames).seen == s.seen + (set k | k in Keys(env, Flatten(frames)))
  {
    RunFramesIsRunLabels(env, s, frames);
    RunLabelsSeen(env, s, Flatten(frames));
  }

  lemma {:induction false} FlattenSnoc(frames: seq<seq<string>>, f: seq<string>)
    ensures Flatten(frames + [f]) == Flatten(frames) + f
    decreases |frames|
  {
    if frames == [] {
      assert frames + [f] == [f];
      assert f + [] == f;
    } else {
      assert (frames + [f])[1..] == frames[1..] + [f];
      FlattenSnoc(frames[1..], f);
    }
  }

  /** The session invariant: each seen key was looked up exactly once and nothing
      else was, so `|seen|` counts the lookups made; the cart is exactly what the
      log appended; and there are no more cart items than seen keys. */
  predicate Wf(s: Session) {
    && Distinct(Lookups(s.log))
    && s.seen == (set k | k in Lookups(s.log))
    && |s.seen| == |Lookups(s.log)|
    && s.cart == Appended(s.log)
    && |s.cart| <= |s.seen|
  }

  lemma InitialWf()
    ensures Wf(Initial)
  {
  }

  /** One step keeps the invariant. */
  lemma ObservePreservesWf(env: Env, s: Session, detected: string)
    requires Wf(s)
    ensures Wf(Observe(env, s, detected))
  {
    var key := DedupKey(env, detected);
    if key !in s.seen {
      var r := Observe(env, s, detected);
      var lookups := Lookups(s.log);
      match GetProductInfo(env.catalog, env.text, |s.seen|, key)
      case None => ObserveMissed(env, s, detected);
      case Some(p) => ObserveFound(env, s, detected, p);
      assert Lookups(r.log) == lookups + [key];
      assert r.seen == s.seen + {key};
      DistinctSnoc(lookups, key);
      ElementsSnoc(lookups, key);
      assert |r.seen| == |s.seen| + 1;
      assert |Lookups(r.log)| == |lookups| + 1;
      assert r.cart == Appended(r.log) && |r.cart| <= |s.cart| + 1;
    }
  }

  /** The invariant holds through any sequence of labels. */
  lemma {:induction false} RunLabelsPreservesWf(env: Env, s: Session, labels: seq<string>)
    requires Wf(s)
    ensures Wf(RunLabels(env, s, labels))
    decreases |labels|
  {
    if labels != [] {
      ObservePreservesWf(env, s, labels[0]);
      RunLabelsPreservesWf(env, Observe(env, s, labels[0]), labels[1..]);
    }
  }

  /** One step adds a lookup of the detection's key if it was unseen, and no
      other lookup. */
  lemma ObserveLookups(env: Env, s: Session, detected: string)
    ensures Lookups(Observe(env, s, detected).log[|s.log|..])
            == (if DedupKey(env, detected) in s.seen then [] else [DedupKey(env, detected)])
  {
    var key := DedupKey(env, detected);
    var r := Observe(env, s, detected);
    if key in s.seen {
      assert r.log[|s.log|..] == [];
    } else {
      match GetProductInfo(env.catalog, env.text, |s.seen|, key)
      case None =>
        assert r.log[|s.log|..] == [Lookup(key)];
        assert [Lookup(key)][..0] == [];
      case Some(p) =>
        assert r.log[|s.log|..] == [Lookup(key), Record(p.name, p.price), Cue, Append(p)];
        AcceptBlock(key, p);
    }
  }

  /** A key seen at some point is never looked up again: no later lookup of the
      session is for it, whether its own lookup found a product or not. */
  lemma {:induction false} SeenKeysNotLookedUpAgain(env: Env, s: Session, labels: seq<string>)
    ensures forall k :: k in Lookups(RunLabels(env, s, labels).log[|s.log|..]) ==> k !in s.seen
    decreases |labels|
  {
    var r := RunLabels(env, s, labels);
    if labels == [] {
      assert r.log[|s.log|..] == [];
    } else {
      var s1 := Observe(env, s, labels[0]);
      SeenKeysNotLookedUpAgain(env, s1, labels[1..]);
      ObserveLookups(env, s, labels[0]);
      SplitAfterPrefix(r.log, s1.log, |s.log|);
      LookupsConcat(s1.log[|s.log|..], r.log[|s1.log|..]);
    }
  }

  /** The labels of `labels` whose key is not `key`. */
  function Without(env: Env, labels: seq<string>, key: string): (r: seq<string>)
    ensures forall l :: l in r <==> l in labels && DedupKey(env, l) != key
  {
    if labels == [] then []
    else if DedupKey(env, labels[0]) == key then Without(env, labels[1..], key)
    else [labels[0]] + Without(env, labels[1..], key)
  }

  /** Later sightings of a seen key are inert: the session ends exactly as it
      would had those detections never been made. */
  lemma {:induction false} SeenLabelsInert(env: Env, s: Session, labels: seq<string>, key: string)
    requires key in s.seen
    ensures RunLabels(env, s, labels) == RunLabels(env, s, Without(env, labels, key))
    decreases |labels|
  {
    if labels != [] {
      var s1 := Observe(env, s, labels[0]);
      SeenLabelsInert(env, s1, labels[1..], key);
      if DedupKey(env, labels[0]) != key {
        assert ([labels[0]] + Without(env, labels[1..], key))[1..] == Without(env, labels[1..], key);
      }
    }
  }

  /** A miss is final for the session: after an unseen label's lookup comes back
      empty (no row or a database error), the label is marked seen, nothing is
      recorded, cued or appended for it, and its later sightings change nothing. */
  lemma MissIsTerminal(env: Env, s: Session, detected: string, later: seq<string>)
    requires DedupKey(env, detected) !in s.seen
    requires GetProductInfo(env.catalog, env.text, |s.seen|, DedupKey(env, detected)).None?
    ensures var marked := s.(seen := s.seen + {DedupKey(env, detected)}, log := s.log + [Lookup(DedupKey(env, detected))]);
      RunLabels(env, s, [detected] + later) == RunLabels(env, marked, Without(env, later, DedupKey(env, detected)))
  {
    var key := DedupKey(env, detected);
    assert ([detected] + later)[1..] == later;
    SeenLabelsInert(env, Observe(env, s, detected), later, key);
  }

  /** An unseen detection whose lookup finds a product: its key joins the seen
      set, the product is appended at the end of the cart and nothing else in the
      cart changes, and the log gains exactly one lookup, one record, one cue and
      one append, in that order. */
  lemma ObserveFound(env: Env, s: Session, detected: string, p: Product)
    requires DedupKey(env, detected) !in s.seen
    requires GetProductInfo(env.catalog, env.text, |s.seen|, DedupKey(env, detected)) == Some(p)
    ensures Observe(env, s, detected) == Session(
      s.seen + {DedupKey(env, detected)},
      s.cart + [p],
      s.log + [Lookup(DedupKey(env, detected)), Record(p.name, p.price), Cue, Append(p)])
    ensures Lookups(Observe(env, s, detected).log) == Lookups(s.log) + [DedupKey(env, detected)]
    ensures Appended(Observe(env, s, detected).log) == Appended(s.log) + [p]
  {
    var key := DedupKey(env, detected);
    var block := [Lookup(key), Record(p.name, p.price), Cue, Append(p)];
    AcceptBlock(key, p);
    LookupsConcat(s.log, block);
    AppendedConcat(s.log, block);
  }

  /** An unseen detection whose lookup finds nothing, because the catalog has no
      row or raised an error: its key still joins the seen set and the lookup is
      logged, but nothing is recorded, cued or appended. */
  lemma ObserveMissed(env: Env, s: Session, detected: string)
    requires DedupKey(env, detected) !in s.seen
    requires GetProductInfo(env.catalog, env.text, |s.seen|, DedupKey(env, detected)).None?
    ensures Observe(env, s, detected) == Session(
      s.seen + {DedupKey(env, detected)}, s.cart, s.log + [Lookup(DedupKey(env, detected))])
    ensures Lookups(Observe(env, s, detected).log) == Lookups(s.log) + [DedupKey(env, detected)]
    ensures Appended(Observe(env, s, detected).log) == Appended(s.log)
  {
    var key := DedupKey(env, detected);
    assert [Lookup(key)][..0] == [];
    LookupsConcat(s.log, [Lookup(key)]);
    AppendedConcat(s.log, [Lookup(key)]);
  }

  /** Two labels that differ after stripping (for instance only in case) are two
      dedup keys, so both are looked up even when they share one query key; if
      the catalog answers both lookups with the same row, the cart gets that
      product twice. */
  lemma CaseVariantsBothAppend(env: Env, s: Session, a: string, b: string, p: Product)
    requires DedupKey(env, a) != DedupKey(env, b)
    requires DedupKey(env, a) !in s.seen && DedupKey(env, b) !in s.seen
    requires LookupKey(env.text, DedupKey(env, a)) == LookupKey(env.text, DedupKey(env, b))
    requires env.catalog(|s.seen|, LookupKey(env.text, DedupKey(env, a))) == Row(p)
    requires env.catalog(|s.seen| + 1, LookupKey(env.text, DedupKey(env, a))) == Row(p)
    ensures RunLabels(env, s, [a, b]).cart == s.cart + [p, p]
    ensures Lookups(RunLabels(env, s, [a, b]).log) == Lookups(s.log) + [DedupKey(env, a), DedupKey(env, b)]
  {
    var ka, kb := DedupKey(env, a), DedupKey(env, b);
    var s1 := Observe(env, s, a);
    var s2 := Observe(env, s1, b);
    RunLabelsPair(env, s, a, b);
    assert s2.cart == s.cart + [p, p] && Lookups(s2.log) == Lookups(s.log) + [ka, kb] by {
      ObserveFound(env, s, a, p);
      assert |s1.seen| == |s.seen| + 1 && kb !in s1.seen;
      ObserveFound(env, s1, b, p);
      SnocTwice(Lookups(s.log), ka, kb);
      SnocTwice(s.cart, p, p);
    }
  }

  /** A session cannot tell a database error from a catalog gap: with every
      error turned into a missing row, the whole run is the same. */
  lemma {:induction false} ErrorsReadAsMisses(env: Env, s: Session, labels: seq<string>)
    ensures RunLabels(env, s, labels)
         == RunLabels(Env(ErrorsAsMisses(env.catalog), env.text), s, labels)
    decreases |labels|
  {
    if labels != [] {
      var env' := Env(ErrorsAsMisses(env.catalog), env.text);
      ErrorReadAsMiss(env.catalog, env.text, |s.seen|, DedupKey(env, labels[0]));
      assert Observe(env, s, labels[0]) == Observe(env', s, labels[0]);
      ErrorsReadAsMisses(env, Observe(env, s, labels[0]), labels[1..]);
    }
  }
}
