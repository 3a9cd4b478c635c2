/** `run_model` as a whole: the cart is cleared, the set-up checks may end the
    run before any frame is read, and otherwise the reconciliation loop runs over
    the frames until they run out. */
module Trolley {
  import opened Wrappers
  import opened Labels
  import opened Catalog
  import opened Effects
  import opened Seqs
  import opened Reconcile
  import opened FirstSightings

  /** The outcome of the three set-up steps that can end a run early: the
      database test, loading the detector's weights, and opening the camera. */
  datatype Setup = Setup(databaseReachable: bool, modelLoads: bool, cameraOpens: bool)

  /** Why a run ended. */
  datatype Exit = DatabaseCheckFailed | ModelLoadFailed | CameraUnavailable | FramesEnded

  /** What a run leaves behind: the shared cart, the effects it performed, and
      why it ended. */
  datatype Outcome = Outcome(cart: seq<Product>, log: seq<Effect>, exit: Exit)

  /** One call of `run_model`, with the frames the camera yields before the loop
      stops. Whatever `previousCart` held is gone: the cart is cleared before the
      database test, so even a run that never starts leaves it empty. A run that
      starts looks up each key first sighted in the frames exactly once, in
      first-sighting order, and its cart is the products found for them. */
  function RunModel(env: Env, setup: Setup, previousCart: seq<Product>, frames: seq<seq<string>>): (r: Outcome)
    ensures !setup.databaseReachable ==> r == Outcome([], [], DatabaseCheckFailed)
    ensures r.exit == FramesEnded <==> setup.databaseReachable && setup.modelLoads && setup.cameraOpens
    ensures r.exit != FramesEnded ==> r.cart == [] && r.log == []
    ensures r.exit == FramesEnded ==>
      && Lookups(r.log) == NewKeys({}, Keys(env, Flatten(frames)))
      && r.cart == Found(env, 0, NewKeys({}, Keys(env, Flatten(frames))))
  {
    if !setup.databaseReachable then Outcome([], [], DatabaseCheckFailed)
    else if !setup.modelLoads then Outcome([], [], ModelLoadFailed)
    else if !setup.cameraOpens then Outcome([], [], CameraUnavailable)
    else
      var s := RunFrames(env, Initial, frames);
      RunFramesIsRunLabels(env, Initial, frames);
      RunMatchesFirstSightings(env, Initial, Flatten(frames));
      assert Lookups(Initial.log) == [];
      Outcome(s.cart, s.log, FramesEnded)
  }

  /** The session invariant holds at the end of every started run: no key was
      looked up twice, the seen set is exactly the keys looked up, and the cart
      has no more items than there are seen keys. Each cart item belongs to one
      first sighting: the lookups are the first sightings in order, and the cart
      is what the catalog returned for them. */
  lemma SessionInvariant(env: Env, frames: seq<seq<string>>)
    ensures Wf(RunFrames(env, Initial, frames))
    ensures Lookups(RunFrames(env, Initial, frames).log) == NewKeys({}, Keys(env, Flatten(frames)))
    ensures RunFrames(env, Initial, frames).cart == Found(env, 0, NewKeys({}, Keys(env, Flatten(frames))))
  {
    InitialWf();
    RunFramesIsRunLabels(env, Initial, frames);
    RunLabelsPreservesWf(env, Initial, Flatten(frames));
    RunMatchesFirstSightings(env, Initial, Flatten(frames));
    assert Lookups(Initial.log) == [];
  }

  /** The handling of one box as written: strip the label, and if it is new,
      add it to the seen set, then look it up, then record, cue and append. */
  method HandleBox(env: Env, s: Session, detected: string) returns (r: Session)
    ensures r == Observe(env, s, detected)
  {
    var seen, cart, log := s.seen, s.cart, s.log;
    var cleanName := env.text.strip(detected);
    if cleanName !in seen {
      var n := |seen|;
      seen := seen + {cleanName};
      log := log + [Lookup(cleanName)];
      var product := GetProductInfo(env.catalog, env.text, n, cleanName);
      if product.Some? {
        log := log + [Record(product.value.name, product.value.price), Cue, Append(product.value)];
        cart := cart + [product.value];
      }
    }
    r := Session(seen, cart, log);
  }

  /** The boxes of one frame, in the order the detector reports them. */
  method HandleFrame(env: Env, s: Session, frame: seq<string>) returns (r: Session)
    ensures r == RunLabels(env, s, frame)
  {
    r := s;
    var j := 0;
    while j < |frame|
      invariant 0 <= j <= |frame|
      invariant r == RunLabels(env, s, frame[..j])
    {
      r := HandleBox(env, r, frame[j]);
      RunLabelsSnoc(env, s, frame[..j], frame[j]);
      PrefixSnoc(frame, j);
      j := j + 1;
    }
    assert frame[..|frame|] == frame;
  }

  /** The frame loop of `run_model`, run until the frames run out, from the
      empty seen set and the cleared cart: it ends with every key of the frames
      seen, each first-sighted key looked up once in first-sighting order, the
      cart holding the products found for them, and the invariant intact. */
  method DetectionLoop(env: Env, frames: seq<seq<string>>) returns (r: Session)
    ensures r.seen == (set k | k in Keys(env, Flatten(frames)))
    ensures Lookups(r.log) == NewKeys({}, Keys(env, Flatten(frames)))
    ensures r.cart == Found(env, 0, NewKeys({}, Keys(env, Flatten(frames))))
    ensures Wf(r)
  {
    r := Initial;
    var i := 0;
    while i < |frames|
      invariant 0 <= i <= |frames|
      invariant r == RunLabels(env, Initial, Flatten(frames[..i]))
    {
      r := HandleFrame(env, r, frames[i]);
      RunLabelsConcat(env, Initial, Flatten(frames[..i]), frames[i]);
      FlattenSnoc(frames[..i], frames[i]);
      PrefixSnoc(frames, i);
      i := i + 1;
    }
    assert frames[..|frames|] == frames;
    RunMatchesFirstSightings(env, Initial, Flatten(frames));
    assert Lookups(Initial.log) == [];
    InitialWf();
    RunLabelsPreservesWf(env, Initial, Flatten(frames));
  }
}
