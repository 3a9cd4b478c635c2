/** The effect log of a session: every catalog lookup, every recorder write,
    every sound cue and every append to the shared cart, in the order they happen. */
module Effects {
  import opened Catalog

  datatype Effect =
    | Lookup(key: string)                  // `get_product_info(clean_name)`
    | Record(name: string, price: Price)   // `store_detected_item(name, price)`
    | Cue                                  // `play_sound()`
    | Append(item: Product)                // `detected_items.append(product)`

  /** The arguments of the lookups in `log`, in order. */
  function Lookups(log: seq<Effect>): seq<string>
  {
    if log == [] then []
    else
      var e := log[|log| - 1];
      Lookups(log[..|log| - 1]) + (if e.Lookup? then [e.key] else [])
  }

  /** The items appended to the cart in `log`, in order. */
  function Appended(log: seq<Effect>): seq<Product>
  {
    if log == [] then []
    else
      var e := log[|log| - 1];
      Appended(log[..|log| - 1]) + (if e.Append? then [e.item] else [])
  }

  /** A key is among the lookups exactly when the log holds a lookup of it. */
  lemma {:induction false} LookupsMembers(log: seq<Effect>)
    ensures forall k :: k in Lookups(log) <==> Lookup(k) in log
    decreases |log|
  {
    if log != [] {
      var init := log[..|log| - 1];
      LookupsMembers(init);
      assert log == init + [log[|log| - 1]];
    }
  }

  /** An item is among the appended ones exactly when the log appends it. */
  lemma {:induction false} AppendedMembers(log: seq<Effect>)
    ensures forall p :: p in Appended(log) <==> Append(p) in log
    decreases |log|
  {
    if log != [] {
      var init := log[..|log| - 1];
      AppendedMembers(init);
      assert log == init + [log[|log| - 1]];
    }
  }

  lemma {:induction false} LookupsConcat(a: seq<Effect>, b: seq<Effect>)
    ensures Lookups(a + b) == Lookups(a) + Lookups(b)
    decreases |b|
  {
    if b != [] {
      var b' := b[..|b| - 1];
      assert (a + b)[..|a + b| - 1] == a + b';
      LookupsConcat(a, b');
    } else {
      assert a + b == a;
    }
  }

  lemma {:induction false} AppendedConcat(a: seq<Effect>, b: seq<Effect>)
    ensures Appended(a + b) == Appended(a) + Appended(b)
    decreases |b|
  {
    if b != [] {
      var b' := b[..|b| - 1];
      assert (a + b)[..|a + b| - 1] == a + b';
      AppendedConcat(a, b');
    } else {
      assert a + b == a;
    }
  }

  /** The lookup and append projections of the effects of a found product
      (lookup, record, cue, append, in the order `run_model` performs them):
      only the lookup is a lookup, and only the append reaches the cart. */
  lemma AcceptBlock(key: string, p: Product)
    ensures Lookups([Lookup(key), Record(p.name, p.price), Cue, Append(p)]) == [key]
    ensures Appended([Lookup(key), Record(p.name, p.price), Cue, Append(p)]) == [p]
  {
    var b1 := [Lookup(key)];
    var b2 := b1 + [Record(p.name, p.price)];
    var b3 := b2 + [Cue];
    var b4 := b3 + [Append(p)];
    assert b1[..0] == [];
    assert Lookups(b1) == [key] && Appended(b1) == [];
    assert b2[..1] == b1;
    assert Lookups(b2) == [key] && Appended(b2) == [];
    assert b3[..2] == b2;
    assert Lookups(b3) == [key] && Appended(b3) == [];
    assert b4[..3] == b3;
    assert b4 == [Lookup(key), Record(p.name, p.price), Cue, Append(p)];
  }
}
