# TriviaGame engine, modelled in Dafny

This project models the game logic of TriviaGame, a browser trivia game. A player starts
a run of five rounds over seven categories drawn from a question catalog. The first three
rounds offer a choice of two categories and the last two force one. Each category is a
batch of five questions. Three correct answers win the category, and four category wins
unlock a billiards gift card. The run is saved in local storage under a tamper hash. A
question in progress is guarded by a lock in session storage, and runs are limited to
three a day.

The model follows the four library files, one Dafny module per concern:

- `random.dfy` (module `Random`) is the seeded draws of `src/lib/random.js`. The
  `pseudoRandom` value is a parameter `draw` returning a real in [0, 1).
- `questions.dfy` (module `Questions`) is the catalog loader of `src/lib/questions.js`:
  stable question ids, question and category normalisation with its error list, and
  `fetchQuestionBank`. The fetched files are parameters.
- `storage.dfy` (module `Persistence`) is `src/lib/storage.js`: the state hash, the saved
  state with its tamper check, and the question lock. Each storage is a `Storage<T>` class
  whose item map the methods update in place. A null storage is one that is unavailable.
- `model.dfy` (module `RunState`) holds the run, session, offer, lock and purchase records
  of `src/lib/engine.js`. `Run` is a run in memory. `RawRun` is a run as stored, where a
  missing field is `None`.
- `engine.dfy` (module `Rules`) holds the top-level helpers of `src/lib/engine.js`: the
  daily play window, `sanitizeRun`, `bumpIntegrity`, `validateRun`, the offer and
  question-batch draws, the choice shuffle, and the win and locked-loss rules.
- `mutators.dfy` (module `Mutators`) holds the run mutators inside `createEngine`. They
  work on run values. Each returns `Declined` (the mutator returned `false`), `Fatal` (it
  threw), or `Accepted` with the new run and its effect on the question lock. The
  invariant `Coherent` ties the round pointer to the played categories, the remaining
  pool to the selection, and an open session to its question, answers and score. Every
  mutator keeps it.
- `store.dfy` (module `Store`) is the engine store itself. The class `Engine` holds the
  store's value (the `State` record that each `store.update` replaces), the catalog
  context and the two storages. It models `updateRun`, starting a run behind the daily
  gate, invalidation, the prize shop, `initialize` with its refresh rule, and the catalog
  load.
- `wrappers.dfy`, `seqs.dfy`, `text.dfy` and `json.dfy` are support: an `Option` type,
  sequence facts, the JavaScript string operations the source relies on (`trim`,
  `charCodeAt`, `toString(16)`, `padStart`), and JSON values with JavaScript truthiness.

The model keeps these behaviours of the code as written:

- `proceedAfterAnswer`, `confirmWheelReveal` and `chooseCategory` do not check the
  current step.
- `beginSession` leaves the current offer in place.
- A persisted run is re-sanitised when the catalog arrives.

## Model

| member | source | states |
|---|---|---|
| Random.NextRandom | src/lib/random.js:19-22 | the draw is in [0, 1) and the cursor advances by one |
| Random.RandomInt | src/lib/random.js:24-28 | no index (the throw) exactly when `max <= 0`; otherwise an index below `max` and the cursor advanced by one |
| Random.TakeRandomItems | src/lib/random.js:30-40 | `min(count, length of items)` items are picked (none for a non-positive count). They sit at distinct positions of the input, and together with the leftover pool they are a permutation of it. The cursor advances once per pick. |
| Random.PickKeepsTracked | src/lib/random.js:33-38 | splicing one item out of the pool keeps the picked items and the pool a split of the input at distinct positions |
| Random.ShuffleItems | src/lib/random.js:42-50 | the result is a permutation of the input; the cursor advances `n - 1` times for `n > 1` items |
| Random.DeterministicChoice | src/lib/random.js:53-56 | no choice (the throw) exactly for an empty list; otherwise an element of the list, with the cursor advanced by one |
| Questions.PolyHash | src/lib/questions.js:6-9 | the rolling hash stays below 2147483647 |
| Questions.StableIdShape | src/lib/questions.js:4-11 | a generated id is the category id, a dash, and the hash written in hexadecimal, which reads back as the hash |
| Questions.StableQuestionId | src/lib/questions.js:4-11 | the loop computes the specified stable id |
| Questions.Normalize | src/lib/questions.js:13-36 | a question is kept exactly when it has a non-blank prompt, 2 to 6 choices and an integer answer index within them; a kept question is well formed |
| Questions.NormalizedId | src/lib/questions.js:27-29 | a kept question keeps a truthy id, and otherwise gets exactly the stable id of its category, prompt and position, which starts with the category id and a dash; its prompt is the trimmed prompt |
| Questions.Validation.NormalizeQuestion | src/lib/questions.js:13-36 | returns the specified normalisation and appends exactly its one error message when the question is rejected |
| Questions.Validation.NormalizeQuestions | src/lib/questions.js:57-63 | the kept questions are the specified ones in order, and the errors gain exactly the problems of the rejected ones |
| Questions.Validation.NormalizeCategory | src/lib/questions.js:38-69 | one clause per branch: a missing id, a duplicate id (not recorded again), a missing name, or no questions each reports its error and returns null; otherwise the trimmed category with its kept questions, the id recorded. Its effect on the errors, the ids and the result is exactly `CategoryStep` of the ids seen before |
| Questions.Validation.LoadFile | src/lib/questions.js:114-131 | one clause per branch: a failed fetch adds the message it threw, a `null` payload the TypeError of reading `category`, a payload without a category entry the file's error, each with no category and the ids unchanged; otherwise the entry goes through `normalizeCategory` (`CategoryStep`) with the file as source label. Its effect is exactly `FileStep` |
| Questions.FileStepOutcome | src/lib/questions.js:114-131 | a file either yields a category with a new id, now reserved, normalised and with a question unless one was dropped, or yields none and adds exactly one error; ids only grow |
| Questions.LoadFiles | src/lib/questions.js:111-132 | running the callbacks in completion order from empty errors and ids leaves exactly the errors, ids and loaded categories of the fold `LoadAll` |
| Questions.LoadAllShape | src/lib/questions.js:111-132 | the loaded categories have distinct reserved ids and are normalised, with a question each unless an error was recorded; no more categories than files, and one per file when no error was recorded |
| Questions.KeptQuestionsWellFormed | src/lib/questions.js:57-63 | every kept question is well formed |
| Questions.KeptOrReported | src/lib/questions.js:57-63 | every raw question is either kept or reported, never both |
| Questions.NoProblemsIffAllAcceptable | src/lib/questions.js:57-63 | no problem is reported exactly when every question is acceptable |
| Questions.AllAcceptableAllKept | src/lib/questions.js:57-63 | when all questions are acceptable, all are kept |
| Questions.AssembledIsShaped | src/lib/questions.js:64-68 | a category with a non-blank id and name is well shaped |
| Questions.ThrownAll | src/lib/questions.js:71-94 | one problem per detail of a thrown error |
| Questions.FetchQuestionBank | src/lib/questions.js:96-148 | the manifest errors (fetch failure, null, no `files` array, fewer than 7 files) each reject with their message. Otherwise the loaded categories are those of `LoadAll` over the completions, and the problems are its errors followed by the too-few-categories error when fewer than 7 loaded. The bank is accepted exactly when there are no problems, which is exactly when no file recorded an error; it then holds every loaded category in completion order and the manifest version (default 1), and is well formed: at least 7 categories, distinct ids, each with a question |
| Text.TrimIsInfix | src/lib/questions.js:43 | a trimmed string is an infix of the original, only whitespace is cut, and it neither starts nor ends with whitespace |
| Text.TrimEmptyIffBlank | src/lib/questions.js:14 | trimming gives the empty string exactly for a blank string |
| Text.TrimIdempotent | src/lib/questions.js:29 | trimming twice is trimming once |
| Text.CodeUnits | src/lib/questions.js:8 | a string has at least as many UTF-16 code units as characters, each below 0x10000 |
| Text.CodeUnitsOfBmp | src/lib/questions.js:8 | on characters below 0x10000 the code units are the characters themselves |
| Text.ParseHexOfHex | src/lib/questions.js:10 | `toString(16)` reads back as the number it wrote |
| Text.HexInjective | src/lib/storage.js:39 | two numbers print the same hexadecimal exactly when they are equal |
| Text.Decimal | src/lib/engine.js:66 | `toString()` of a natural is a non-empty run of decimal digits |
| Text.DecimalLength | src/lib/engine.js:62-66 | a number below 10^k prints in at most k digits |
| Text.PadStart | src/lib/engine.js:66 | `padStart` gives the width (or the string, if longer), ends with the string, and fills the rest |
| Persistence.WeightedHash | src/lib/storage.js:35-38 | the weighted hash stays below 2147483647 |
| Persistence.StateHashShape | src/lib/storage.js:24-40 | the hash is empty exactly for a missing run; otherwise it is the hexadecimal of the weighted hash of the payload's JSON |
| Persistence.HashOnlyReadsHashedFields | src/lib/storage.js:26-33 | two runs that agree on the six hashed fields get the same hash |
| Persistence.ComputeStateHash | src/lib/storage.js:24-40 | the loop computes the specified hash |
| Persistence.Storage.SetItem | src/lib/storage.js:96 | the key now holds the value; no other key changes |
| Persistence.Storage.RemoveItem | src/lib/storage.js:103 | the key is gone; no other key changes |
| Persistence.LoadDefaults | src/lib/storage.js:42-85 | no saved state loads as the empty state, untampered; an unparseable one loads as the empty state, tampered |
| Persistence.TamperDecision | src/lib/storage.js:62-80 | the state is tampered exactly when a run is present whose stored hash differs from the recomputed one. A tampered run is dropped, an untampered one loads as stored, and the purchases, play log (an array or empty) and claim time (0 as none) still load |
| Persistence.SaveLoadRoundTrip | src/lib/storage.js:42-97 | saving a run stamped with its own hash and loading it back gives the same run and records, untampered |
| Persistence.SavePersistedState | src/lib/storage.js:87-97 | the state key holds the saved object; nothing else changes; nothing is written without a storage |
| Persistence.StoreQuestionLock | src/lib/storage.js:99-107 | the lock read back is the one stored (a null lock removes the key); no other key changes |
| Persistence.ClearQuestionLock | src/lib/storage.js:122-124 | no lock is read back afterwards |
| Rules.Recent | src/lib/engine.js:78-80 | the kept entries are exactly those less than a day old, with their multiplicities |
| Rules.Insert | src/lib/engine.js:81 | inserting into a sorted list keeps it sorted and adds exactly the element |
| Rules.SortAscending | src/lib/engine.js:81 | the result is sorted and a permutation of the input |
| Rules.EvaluatePlayWindow | src/lib/engine.js:76-87 | the pruned log is the entries of the last day in ascending order. The window is closed exactly when there are at least `limit` of them, until a day after the oldest |
| Rules.ClosedIffAtLimit | src/lib/engine.js:76-91 | the gate is shut now exactly when the last day holds `limit` or more plays |
| Rules.SanitizeRun | src/lib/engine.js:93-129 | a run comes out exactly when one goes in |
| Rules.SanitizedRunIsStamped | src/lib/engine.js:125-127 | a run without a hash comes out stamped with its own hash |
| Rules.SanitizeStored | src/lib/engine.js:93-129 | sanitising a stored complete run gives it back unchanged |
| Rules.BumpIntegrity | src/lib/engine.js:161-164 | one more action, the hash restamped, nothing else changed |
| Rules.DetermineRoundType | src/lib/engine.js:177-179 | the first three rounds offer a choice, later ones force a category |
| Rules.PickOffer | src/lib/engine.js:181-198 | the offer has `min(count, remaining)` categories drawn without replacement from the remaining pool; the offer and the new cursor are exactly what the seed's stream takes (`TakeFrom`) from the remaining pool at the cursor |
| Rules.PickQuestionBatch | src/lib/engine.js:200-221 | none for a category without questions. Otherwise five questions of the category: the first five of a shuffle when it has five or more, else all of them followed by repeats cycling from the start. The batch is exactly `PaddedBatch` of the seed's shuffle (`ShuffleDown`) of the questions, and the cursor is the one that shuffle leaves |
| Rules.CutOrPad | src/lib/engine.js:210-220 | the cut or padded batch of five, as above, equal to `PaddedBatch` of the shuffled questions |
| Rules.PadBatch | src/lib/engine.js:214-218 | the padding repeats the questions cyclically up to five |
| Rules.Decorate | src/lib/engine.js:224-227 | each choice is tagged with its original index |
| Rules.FindIndex | src/lib/engine.js:234-236 | the first position with the tag, or -1 exactly when there is none |
| Rules.ShuffleQuestionChoices | src/lib/engine.js:223-244 | the choices are permuted, the answer index follows the correct choice, and nothing else of the question changes; the question is exactly `ChoicesShuffled`, the choices of the seed's shuffle of the decorated choices at the cursor |
| Rules.LockedLossIsFinal | src/lib/engine.js:265-274 | once a session is a locked loss no continuation wins it |
| Rules.NotLockedCanWin | src/lib/engine.js:265-274 | a session that is not a locked loss is won by answering the rest correctly |
| Mutators.CorrectAnswers | src/lib/engine.js:378-388 | the correct count never exceeds the number of answers |
| Mutators.ScheduleNextRound | src/lib/engine.js:306-319 | after five rounds the run finishes, with the prize unlocked exactly at four wins, and the lock cleared. Before that a new offer of the round's kind and size is drawn from the remaining pool, the wheel is revealed now, and nothing else changes. The offer and the new cursor are exactly what the seed's stream takes from the remaining pool at the old cursor |
| Mutators.ScheduledKeepsCoherent | src/lib/engine.js:306-319 | scheduling keeps a run without a session coherent and offers distinct categories |
| Mutators.BeginSession | src/lib/engine.js:321-344 | a missing category or one without questions throws. Otherwise a session on the batch `pickQuestionBatch` makes, exactly `PaddedBatch` of the seed's shuffle of the category's questions (five distinct draws, or for fewer than five all of them then cyclic repeats), its questions exactly `ShuffledBatch` of that batch (each question with its choices reshuffled by the stream in turn), the first shown under a timer and the question lock; the cursor moves on by exactly the draws of the batch shuffle and of every choice shuffle; it keeps coherence |
| Mutators.ShuffleEach | src/lib/engine.js:327-329 | every question of the batch reshuffled in place of it, the draws of each shuffle following the previous one; the result is exactly `ShuffledBatch` of the batch from the cursor |
| Mutators.SessionStarted | src/lib/engine.js:326-343 | the padded shuffle of the category's questions, with its choices reshuffled by the stream and the cursor after all the draws, opens the session `beginSession` promises |
| Mutators.BatchMember | src/lib/engine.js:200-221 | every question of a batch is one of the category's questions |
| Mutators.StartedKeepsCoherent | src/lib/engine.js:330-343 | opening a five-question session on a category out of the pool keeps the run coherent |
| Mutators.RecordedKeepsPools | src/lib/engine.js:346-360 | recording a session's result keeps the round pointer and the pools consistent |
| Mutators.CompleteSession | src/lib/engine.js:346-369 | without a session nothing changes. Otherwise the result is recorded (a win counted), the category is marked played and the next round scheduled; coherence is kept |
| Mutators.HandleAnswer | src/lib/engine.js:371-411 | declined exactly outside an open question. Otherwise the answer record (question id, the choice or none when timed out, correctness, prompt, explanation) is appended, correct exactly when not timed out and the choice is the answer index, the score rises by one exactly then, the timer and lock are cleared, and the answer screen shows |
| Mutators.HandleAnswerKeepsCoherent | src/lib/engine.js:371-411 | answering keeps a coherent run coherent |
| Mutators.CorrectAnswerNeverInvalidates | src/lib/engine.js:400-409 | a correct answer never invalidates a session that was not yet lost |
| Mutators.ProceedAfterAnswer | src/lib/engine.js:413-432 | without a session the step settles (to the end once finished). After the fifth answer the session completes. Otherwise the next question is shown under a new timer and lock; past the batch it throws. It keeps coherence |
| Mutators.WithdrawnKeepsCoherent | src/lib/engine.js:556-559 | taking the chosen category out of the pool keeps coherence and removes it |
| Mutators.ConfirmWheelReveal | src/lib/engine.js:549-563 | declined without an offer. A choice offer moves to the choice step. A forced offer takes its category out of the pool and begins its session (an empty offer throws). There is no step check, and coherence is kept |
| Mutators.ChooseCategory | src/lib/engine.js:565-576 | declined unless a choice offer lists the category. Otherwise the category leaves the pool and its session begins, with coherence kept |
| Store.CategoryMap | src/lib/engine.js:508-511 | the map holds exactly the ids of the catalog, each under a category with that id |
| Store.CategoryMapFindsEach | src/lib/engine.js:508-511 | with distinct ids every category is found under its own id |
| Store.LockAppliedLoads | src/lib/engine.js:251-263 | after a mutator's lock effect the lock read back is the one set, none after a clear, or the old one; no other key changes |
| Store.ApplyLock | src/lib/engine.js:251-263 | the session storage gets the mutator's lock effect |
| Store.NewRun | src/lib/engine.js:458-485 | a fresh run: `min(7, catalog)` distinct catalog categories, exactly those the seed's stream takes from cursor 0, all remaining and unplayed, no wins, no answers or history, no action counted, the wheel revealed at `now`, and a first choice of two of them taken next by the stream, the cursor standing after both draws. It is coherent |
| Store.RunCategories | src/lib/engine.js:458-465 | the ids of the categories the seed's stream takes from cursor 0: `min(7, catalog)` of them, distinct, each a catalog category's id, and the cursor after them |
| Store.StampedRun | src/lib/engine.js:458-486 | the stamped fresh run: one action counted and the cursor at `min(7, catalog) + min(2, min(7, catalog))` |
| Store.WithoutDashes | src/lib/engine.js:664 | no dash remains and every other character keeps its count |
| Store.ClaimCodeShape | src/lib/engine.js:61-68 | a claim code is `CUE-` and six digits ending in the drawn number |
| Store.Redeem | src/lib/engine.js:689-694 | same purchases in the same order; those with the id are redeemed at the given time; the rest are unchanged |
| Store.RedeemIdempotent | src/lib/engine.js:689-694 | redeeming twice is redeeming once |
| Store.ReloadAfterSave | src/lib/engine.js:737-753 | a stamped run saved and reloaded at start-up comes back as itself, untampered |
| Store.InitialState | src/lib/engine.js:29-48 | the store starts with no run, no purchases, an empty log, on the loading screen |
| Store.RecheckedRun | src/lib/engine.js:515-524 | the catalog load keeps the sanitised run exactly when there is a run whose selected and remaining categories are all catalog ids (the map's own keys; see "## Left out" for names inherited from `Object.prototype`); a kept run is valid |
| Store.RecheckKeepsValidRun | src/lib/engine.js:515-524 | a seeded, hashed run naming only catalog categories survives the catalog load unchanged |
| Store.Engine.constructor | src/lib/engine.js:276-282 | the store starts at the initial state with no catalog |
| Store.Engine.Commit | src/lib/engine.js:288-304 | an accepted run is stamped, its lock effect applied, saved with the records and shown at its step (the end screen once finished); a declined or throwing mutator changes nothing |
| Store.Engine.CommittedLoadsBack | src/lib/engine.js:288-304 | what a commit saved loads back as the run in memory, untampered, and the lock as the mutator left it |
| Store.Engine.InvalidateRun | src/lib/engine.js:610-622 | no run, the home screen, the reason shown and kept, no run saved and no lock |
| Store.Engine.RestartRun | src/lib/engine.js:584-590 | no run, the home screen, no run saved and no lock; the rest stays |
| Store.Engine.HandleNavigationViolation | src/lib/engine.js:592-599 | during a question the run is invalidated with the navigation message; otherwise nothing changes |
| Store.Engine.HandleBackgrounding | src/lib/engine.js:601-608 | during a question the run is invalidated with the hidden-tab message; otherwise nothing changes |
| Store.Engine.ConfirmWheelReveal | src/lib/engine.js:549-563 | the reveal mutator's outcome, committed; declined without a run |
| Store.Engine.ChooseCategory | src/lib/engine.js:565-576 | the choice mutator's outcome, committed; declined without a run |
| Store.Engine.ProceedAfterAnswer | src/lib/engine.js:413-432 | the proceed mutator's outcome, committed; declined without a run |
| Store.Engine.HandleAnswer | src/lib/engine.js:371-411 | the answer committed, and the run invalidated with the game-over message when the category is lost |
| Store.Engine.CommitAnswer | src/lib/engine.js:371-411 | the answer's outcome committed, then the run invalidated exactly when the category is lost |
| Store.Engine.TimeoutQuestion | src/lib/engine.js:578-582 | only during a question: a timed-out answer; otherwise nothing changes |
| Store.Engine.StartRunFromPool | src/lib/engine.js:434-498 | without a catalog nothing happens. A closed gate saves the pruned log and says when it reopens. Otherwise a fresh run starts, is saved and logged, and the log then holds at most three plays |
| Store.Engine.CloseGate | src/lib/engine.js:440-457 | the pruned log saved with the old run, and the reopening message |
| Store.Engine.LaunchRun | src/lib/engine.js:458-497 | a fresh run from the catalog, stamped (one action counted, the cursor after the categories and the first offer), shown, saved, with the play logged |
| Store.Engine.InstallRun | src/lib/engine.js:487-497 | the stamped run shown on the wheel screen and saved with the play appended to the log, the gate open and the message cleared |
| Store.Engine.PurchasePrize | src/lib/engine.js:640-686 | only the shop's item. A locked prize, a claimed prize, or a card already generated each only set their message. Otherwise exactly one new card, with the dashless token and the claim code, is saved with the claim time |
| Store.Engine.RedeemPrize | src/lib/engine.js:688-708 | the purchases redeemed by id and saved; the rest stays |
| Store.Engine.AcknowledgeMessage | src/lib/engine.js:733-735 | the message is cleared; nothing else changes |
| Store.Engine.Initialize | src/lib/engine.js:737-762 | the saved records restored, the run sanitised, the log pruned, loading started. A surviving lock on an unfinished run invalidates it as a refresh, clearing storage and lock; otherwise nothing is written |
| Store.Engine.StartUp | src/lib/engine.js:744-761 | the same, given the loaded state and lock |
| Store.Engine.LoadQuestions | src/lib/engine.js:500-505 | the catalog is loading again; nothing else changes |
| Store.Engine.OnCatalogLoaded | src/lib/engine.js:506-535 | the catalog and its map installed (each category under its id), the run rechecked against it, and a dropped run dropped from storage |
| Store.Engine.InstallCatalog | src/lib/engine.js:506-535 | the catalog, its map and the rechecked run installed, storage written exactly when a run was dropped, the lock left alone |
| Store.Engine.OnCatalogFailed | src/lib/engine.js:536-545 | the error and its details shown on the error screen; nothing else changes |

## Left out

- `pseudoRandom` (`Math.sin` on floating point) is not modelled: every draw comes from the parameter `draw`, which only promises a value in [0, 1).
- `generateSeed`, `uuid`, `nowISO`, `Date.now` and the `Math.random` of `buildClaimCode` are parameters of the actions that use them. Every `Date.now()` within one action is taken to give the same `now`.
- `fetch`, `response.json()` and `Promise.all` are not modelled: the fetched manifest and the settled file fetches are parameters of `FetchQuestionBank`, in completion order.
- `JSON.parse` and `JSON.stringify` are not modelled. A storage slot holds a parsed value, or marks one that does not parse. The JSON text of the hashed payload is the parameter `stringify`.
- Fields of a stored run that have the wrong JSON type are not modelled beyond `None` for "missing or falsy". Purchases are assumed to be stored as written.
- `cloneRun` is implicit: runs are values.
- `questionHistory` is carried and defaulted but never read, as in the source.
- The UI side of the store is not modelled: `modal`, `openShop`, `closeModal`, `openClaim`, `viewPrizeCard`, `shareUrl` and `buildShareUrl`, `shopInventory`, and `dailyLimit`.
- The Svelte `writable` store and its `subscribe`, and the `typeof window` guards, are not modelled.
- `toLocaleTimeString` of the reopening time is the parameter `reopen`.
- The environment overrides of the daily play limit and the question time limit are not modelled: the defaults 3 and 20000 are used.
- Rules.PickQuestionBatch: on a category with no questions the source pads with `undefined` and fails later in `beginSession`. The model returns no batch, and `BeginSession` throws (`Fatal`). A loaded catalog never has such a category.
- Mutators.ConfirmWheelReveal: a forced offer with no options throws (`Fatal`), even in the case where a category is literally named "undefined".
- Rules.ValidateRun, Store.CategoryMap and Store.RecheckedRun: the category map is a Dafny map holding only the catalog ids. The source's plain object also answers for names every object inherits from `Object.prototype` (`constructor`, `toString`, `hasOwnProperty`, `valueOf` and the like). A stored run naming one of those is kept by the source's `validateRun` and fails later in `beginSession`, but is dropped here when the catalog loads.
- Store.AsciiUpper: `toUpperCase` is modelled on ASCII letters only.
- Store.Engine.StartRunFromPool: the bound of three plays is stated for a clock at or after the epoch (`now >= 0`).
