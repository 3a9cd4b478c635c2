/** Concrete sessions over a one-product catalog, with Python's `strip()` and
    `lower()` restricted to ASCII. They show what the loop does with a repeated
    label, a missing product, surrounding whitespace and a change of case. */
module Scenarios {
  import opened Labels
  import opened Catalog
  import opened Effects
  import opened Wrappers
  import opened Reconcile
  import opened Trolley

  const MilkRow := Product("Milk", Price("45.0"))

  /** A catalog whose only product is milk, and which never fails. */
  function MilkCatalog(n: nat, key: string): Reply {
    if key == "milk" then Row(MilkRow) else NoRow
  }

  const Shop := Env(MilkCatalog, Text(Strip, AsciiLower))

  const AllUp := Setup(true, true, true)

  lemma MilkIsStripped()
    ensures Strip("milk") == "milk"
  {
    StripKeepsStripped("milk");
  }

  lemma CapitalMilkIsStripped()
    ensures Strip("Milk") == "Milk"
  {
    StripKeepsStripped("Milk");
  }

  lemma SoapIsStripped()
    ensures Strip("soap") == "soap"
  {
    StripKeepsStripped("soap");
  }

  lemma PaddedMilkStrips()
    ensures Strip(" milk\t") == "milk"
  {
    assert " milk\t" == " " + "milk" + "\t";
    StripUnique(" ", "milk", "\t");
  }

  /** The shop's answers, one fact per label the scenarios use. */
  lemma MilkFound(n: nat)
    ensures DedupKey(Shop, "milk") == "milk"
    ensures GetProductInfo(Shop.catalog, Shop.text, n, "milk") == Some(MilkRow)
  {
    MilkIsStripped();
    assert AsciiLower("milk") == "milk";
  }

  lemma CapitalMilkFound(n: nat)
    ensures DedupKey(Shop, "Milk") == "Milk"
    ensures GetProductInfo(Shop.catalog, Shop.text, n, "Milk") == Some(MilkRow)
  {
    CapitalMilkIsStripped();
    assert AsciiLower("Milk") == "milk";
  }

  lemma SoapMissing(n: nat)
    ensures DedupKey(Shop, "soap") == "soap"
    ensures GetProductInfo(Shop.catalog, Shop.text, n, "soap") == None
  {
    SoapIsStripped();
    assert AsciiLower("soap")[0] == 's';
  }

  lemma PaddedMilkFound()
    ensures DedupKey(Shop, " milk\t") == "milk"
  {
    PaddedMilkStrips();
  }

  /** "milk" is sighted, then sighted again, then "soap", which the catalog does
      not hold: milk is looked up, recorded, cued and added once; soap is looked
      up once and leaves no trace in the cart. Stated for any environment that
      answers these two labels as the shop does. */
  lemma RepeatThenMissIn(env: Env, p: Product)
    requires DedupKey(env, "milk") == "milk" && DedupKey(env, "soap") == "soap"
    requires GetProductInfo(env.catalog, env.text, 0, "milk") == Some(p)
    requires GetProductInfo(env.catalog, env.text, 1, "soap") == None
    ensures RunFrames(env, Initial, [["milk"], ["milk"], ["soap"]])
         == Session({"milk", "soap"}, [p],
                    [Lookup("milk"), Record(p.name, p.price), Cue, Append(p), Lookup("soap")])
  {
    var s1 := Observe(env, Initial, "milk");
    ObserveFound(env, Initial, "milk", p);
    var s2 := Observe(env, s1, "soap");
    ObserveMissed(env, s1, "soap");
    RunLabelsSingle(env, Initial, "milk");
    RunLabelsSingle(env, s1, "milk");
    RunLabelsSingle(env, s1, "soap");
    assert [["milk"], ["milk"], ["soap"]][1..] == [["milk"], ["soap"]];
    assert [["milk"], ["soap"]][1..] == [["soap"]];
    assert [["soap"]][1..] == [];
  }

  lemma RepeatThenMiss()
    ensures RunFrames(Shop, Initial, [["milk"], ["milk"], ["soap"]])
         == Session({"milk", "soap"}, [MilkRow],
                    [Lookup("milk"), Record("Milk", Price("45.0")), Cue, Append(MilkRow), Lookup("soap")])
  {
    MilkFound(0);
    SoapMissing(1);
    RepeatThenMissIn(Shop, MilkRow);
  }

  /** Surrounding whitespace is stripped before the dedup check, so a padded
      label and its bare form in one frame are one key and one cart item. */
  lemma PaddedRepeatIn(env: Env, p: Product)
    requires DedupKey(env, " milk\t") == "milk" && DedupKey(env, "milk") == "milk"
    requires GetProductInfo(env.catalog, env.text, 0, "milk") == Some(p)
    ensures RunFrames(env, Initial, [[" milk\t", "milk"]]).cart == [p]
  {
    ObserveFound(env, Initial, " milk\t", p);
    RunLabelsPair(env, Initial, " milk\t", "milk");
    assert [[" milk\t", "milk"]][1..] == [];
  }

  lemma PaddedRepeat()
    ensures RunFrames(Shop, Initial, [[" milk\t", "milk"]]).cart == [MilkRow]
  {
    PaddedMilkFound();
    MilkFound(0);
    PaddedRepeatIn(Shop, MilkRow);
  }

  /** The dedup check does not fold case: "milk" and then "Milk" are two keys,
      both query the same product, and the cart ends with it twice. */
  lemma CaseChangeAddsAgainIn(env: Env, p: Product)
    requires DedupKey(env, "milk") == "milk" && DedupKey(env, "Milk") == "Milk"
    requires GetProductInfo(env.catalog, env.text, 0, "milk") == Some(p)
    requires GetProductInfo(env.catalog, env.text, 1, "Milk") == Some(p)
    ensures RunFrames(env, Initial, [["milk"], ["Milk"]]).cart == [p, p]
  {
    var s1 := Observe(env, Initial, "milk");
    ObserveFound(env, Initial, "milk", p);
    ObserveFound(env, s1, "Milk", p);
    RunLabelsSingle(env, Initial, "milk");
    RunLabelsSingle(env, s1, "Milk");
    assert [["milk"], ["Milk"]][1..] == [["Milk"]];
    assert [["Milk"]][1..] == [];
  }

  lemma CaseChangeAddsAgain()
    ensures RunFrames(Shop, Initial, [["milk"], ["Milk"]]).cart == [MilkRow, MilkRow]
  {
    MilkFound(0);
    CapitalMilkFound(1);
    CaseChangeAddsAgainIn(Shop, MilkRow);
  }

  /** A run whose database test fails never reads a frame and leaves the cart
      empty, whatever the cart held before. */
  lemma FailedStartClearsCart()
    ensures RunModel(Shop, Setup(false, true, true), [MilkRow], [["milk"]]).cart == []
  {
  }
}
