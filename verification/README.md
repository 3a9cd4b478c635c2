# Smart trolley: the session reconciliation loop

The smart trolley watches a camera, and an object detector names the products
it sees. `run_model` turns the stream of detected labels into a shopping cart,
the shared `detected_items` list. Each label is stripped of surrounding
whitespace, and that stripped label is the session's dedup key. The first time
a key is seen, it joins `detected_labels` before anything else happens. It is
then looked up in the product catalog, with its lower-cased form as the query
key. A found product is stored by the recorder, announced by a beep and
appended to the cart. A key seen before is ignored.

This project models that loop, and proves what it guarantees:

- each key is looked up at most once per session, whatever the lookup returns;
- a miss, or a database error, which reads exactly like a miss, is never retried;
- a found product produces exactly record, cue, append, in that order;
- the cart is the products found for the keys in first-sighting order;
- every run starts from an empty cart, even a run that never gets going;
- two different labels that differ only in ASCII case strip to different dedup
  keys, and two different dedup keys sharing one query key are each looked up,
  so each can add the same product.

The modules follow the program's structure:

- `Labels`: Python's `str.strip()`, modelled concretely.
- `Catalog`: `get_product_info`.
- `Effects`: the recorder, sound and cart events, as a log.
- `Reconcile`: one detected box, a frame, and the frame loop.
- `FirstSightings`: a reference description of a whole session, independent of
  the step function.
- `Trolley`: `run_model` with its set-up checks, plus an imperative version of
  the loop.
- `Scenarios`: concrete runs over a one-product catalog.

The catalog is a parameter: a function from the session's lookup number and the
query key to a reply (a row, no row, or a database error). So a store that
changes or fails transiently between lookups is covered. `strip()` and `lower()`
are also parameters of the environment. The general lemmas hold for any pair
of them. The lemmas that need Python's own `strip()` use `Labels.Strip`.

Two facts about the code shape the model:

- Dedup is case-sensitive: `model.py:149` strips only, while the query key at
  `model.py:37` is also lower-cased.
- A key whose lookup fails stays seen: `model.py:153` adds it before the lookup
  at `model.py:155`.

## Model

| member | source | states |
|---|---|---|
| Labels.Strip | model.py:149 | `strip()` leaves no whitespace character (as `str.isspace()` defines it) at either end, and never lengthens the label |
| Labels.StripIsSlice | model.py:149 | what `strip()` returns is a contiguous slice of the label |
| Labels.StripUnique | model.py:149 | whitespace, then a stripped middle, then whitespace strips to exactly that middle |
| Labels.StripIdempotent | model.py:37 | stripping the already stripped dedup key again inside the lookup changes nothing |
| Labels.StripKeepsStripped | model.py:149 | a label with no surrounding whitespace is its own dedup key |
| Labels.CaseVariantsAreDistinctKeys | model.py:149 | two different labels with the same ASCII lower-cased form strip to different dedup keys: the dedup key does not fold case |
| Catalog.GetProductInfo | model.py:37-46 | the query uses the stripped, lower-cased key; a row yields the product; no row and a database error both yield `None` |
| Catalog.ErrorReadAsMiss | model.py:44-46 | for every lookup, the answer is the same when each database error is replaced by a missing row |
| Catalog.LookupIgnoresSurroundingSpace | model.py:37 | with Python's `strip()`, a label and its stripped form query the same key and get the same answer |
| Effects.LookupsMembers | model.py:155 | a key is among a log's lookups exactly when the log holds a lookup of it |
| Effects.AppendedMembers | model.py:159 | an item is among a log's cart appends exactly when the log appends it |
| Effects.AcceptBlock | model.py:155-159 | the lookup and append projections of the found-product block (lookup, record, cue, append) are `[key]` and `[p]` |
| Reconcile.Observe | model.py:149-161 | a box whose stripped label was already seen changes nothing; otherwise the key joins the seen set; the cart and the log only grow at the end |
| Reconcile.ObserveFound | model.py:151-159 | an unseen key whose lookup returns a product is marked seen, logged as lookup, record, cue and append, and appended to the cart; nothing else in the cart changes |
| Reconcile.ObserveMissed | model.py:151-161 | an unseen key whose lookup returns nothing is marked seen and logged as a lookup; the cart is untouched |
| Reconcile.ObserveLookups | model.py:149-155 | one box adds a lookup of its key exactly when the key was unseen |
| Reconcile.RunLabels | model.py:136-161 | handling a frame's boxes only ever extends the cart and the log at the end; nothing already in them changes |
| Reconcile.RunLabelsSeen | model.py:122-153 | the seen set only grows: after a frame's boxes it is the old set plus every box's stripped label |
| Reconcile.RunLabelsConcat | model.py:124-136 | handling two runs of boxes one after the other is handling their concatenation |
| Reconcile.RunFrames | model.py:124-169 | the frame loop only ever extends the cart and the log at the end; nothing already in them changes |
| Reconcile.RunFramesSeen | model.py:124-153 | after the frame loop, the seen set is the old set plus the stripped label of every box of every frame |
| Reconcile.RunFramesIsRunLabels | model.py:124-136 | frames are handled in order and the boxes of a frame in order, so the frame loop is one pass over all labels in sequence |
| Reconcile.InitialWf | model.py:99-122 | the session starts with an empty cart, an empty seen set and no effects, and the invariant holds |
| Reconcile.ObservePreservesWf | model.py:149-161 | one box keeps the invariant: lookups are distinct, the seen set is exactly the keys looked up, the cart is exactly what was appended, and there are no more cart items than seen keys |
| Reconcile.RunLabelsPreservesWf | model.py:136-161 | any sequence of boxes keeps that invariant |
| Reconcile.SeenKeysNotLookedUpAgain | model.py:149-155 | a key seen at any point is never looked up again in the session |
| Reconcile.SeenLabelsInert | model.py:149-151 | once a key is seen, deleting all its later sightings leaves the session's outcome unchanged |
| Reconcile.MissIsTerminal | model.py:151-161 | after a miss (including a database error read as `None`), the rest of the session runs as if that key never appeared again: it is not retried and never reaches the cart |
| Reconcile.CaseVariantsBothAppend | model.py:149 | dedup strips only while the query at line 37 also lower-cases, so two labels with different dedup keys but one query key (for instance differing only in case) are both looked up and both append the product |
| Reconcile.ErrorsReadAsMisses | model.py:44-46 | a whole session ends identically when every database error is replaced by a missing row |
| FirstSightings.NewKeys | model.py:122-153 | the keys first sighted in a sequence: each exactly once, and exactly the keys of the sequence that were not already seen |
| FirstSightings.NewKeysInOrder | model.py:124-153 | the first sightings are listed in the order of their first occurrence |
| FirstSightings.RunMatchesFirstSightings | model.py:124-161 | from any state, a run looks up exactly the newly sighted keys in first-sighting order, and its cart grows by the products found for them in that order |
| Trolley.RunModel | model.py:93-122 | the cart is cleared before the database test: a failed test leaves it empty; the loop runs exactly when the database, detector and camera are all available; a started run's lookups and cart are those of the first sightings |
| Trolley.SessionInvariant | model.py:122-161 | at the end of any started run the invariant holds (no key looked up twice, no more cart items than seen keys), the lookups are the first sightings in order, and the cart is exactly the products the catalog returned for them |
| Trolley.HandleBox | model.py:149-161 | the imperative handling of one box computes the same session as the step function |
| Trolley.HandleFrame | model.py:136-161 | the imperative loop over a frame's boxes computes the same session as the functional one |
| Trolley.DetectionLoop | model.py:122-161 | the imperative frame loop ends with seen = every key sighted, lookups = the first sightings in order, cart = the products found for them, and the invariant intact |
| Scenarios.RepeatThenMissIn | model.py:149-161 | "milk", "milk", "soap", with milk found and soap missing, give one lookup of each key and a cart of one milk |
| Scenarios.RepeatThenMiss | model.py:149-161 | that outcome for the concrete one-product catalog |
| Scenarios.PaddedRepeatIn | model.py:149-153 | a label padded with whitespace and its bare form in one frame give one cart item |
| Scenarios.PaddedRepeat | model.py:149-153 | that outcome for the concrete catalog, with Python's `strip()` |
| Scenarios.CaseChangeAddsAgainIn | model.py:149-159 | "milk" then "Milk", both answered with the same product, give a cart holding it twice |
| Scenarios.CaseChangeAddsAgain | model.py:149-159 | that outcome for the concrete catalog with ASCII lower-casing |
| Scenarios.FailedStartClearsCart | model.py:99-103 | a run whose database test fails empties a cart that held milk |

## Left out

- Camera capture, frame reads, drawing, `imshow` and `waitKey` (`model.py:112-147`, `163-172`) are camera and UI I/O. A run's frames are a finite sequence of frames. The loop ends when they run out, which stands for a failed frame read or the `q` key.
- YOLO model loading and inference (`model.py:106-110`, `130-140`) are a foreign library. This includes the 0.5 confidence threshold and the `id_N` fallback name. A frame is the sequence of labels the detector reports, and a failed load is a set-up flag.
- The MySQL connection, queries and the table checks of `test_database` (`model.py:30-36`, `38-43`, `65-90`) are database I/O. The test's result is a set-up flag, and the catalog is a reply function.
- The recorder `store_detected_item` (`model.py:49-62`) is database I/O and appears only as a `Record` effect. Its `float(price)` conversion is floating point, so prices are opaque. A price that `float` rejects would raise an exception this model does not have.
- The beep (`model.py:15-24`) is audio I/O and appears only as a `Cue` effect.
- Prints and the `detected_this_frame` counter (`model.py:131`, `142`, `163-164`) are diagnostics only.
- `str.lower()` is an uninterpreted parameter: Unicode case mapping is not modelled. The scenarios and `Labels.CaseVariantsAreDistinctKeys` use `Labels.AsciiLower`, so the general statement that case variants are distinct keys covers ASCII case only.
- Concurrency: the loop is single-threaded. The Flask app that reads the shared cart is not part of this model.
