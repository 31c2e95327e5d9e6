/**
 * The top-level helpers of engine.js: the daily play window, `sanitizeRun`, the
 * integrity stamp, catalog validation of a run, and the draws that build an offer,
 * a question batch and the shuffled choices of a question. Each helper that writes
 * `run.randCursor` returns the updated run next to its result.
 */
module Rules {
  import opened Wrappers
  import opened Seqs
  import opened Json
  import opened Random
  import opened Questions
  import opened RunState
  import opened Persistence

  const DAY_MS := 24 * 60 * 60 * 1000
  const QUESTION_BATCH_SIZE := 5
  /** `Math.ceil(QUESTION_BATCH_SIZE / 2)`: correct answers needed to win a category. */
  const WIN_THRESHOLD := (QUESTION_BATCH_SIZE + 1) / 2
  /** `DAILY_PLAY_LIMIT` when not configured. */
  const DEFAULT_DAILY_PLAY_LIMIT := 3
  /** `QUESTION_TIME_LIMIT` when not configured, in milliseconds. */
  const DEFAULT_QUESTION_TIME_LIMIT := 20000
  /** Rounds in a run; the first `CHOICE_ROUNDS` of them offer a choice. */
  const ROUNDS := 5
  const CHOICE_ROUNDS := 3
  /** Categories won that unlock the prize. */
  const PRIZE_WINS := 4

  // ---------------------------------------------------------------------------
  // evaluatePlayWindow / isClosed

  /** The play-log entries less than a day old, in their order. */
  function Recent(log: seq<int>, now: int): (r: seq<int>)
    ensures forall x :: multiset(r)[x] == if now - x < DAY_MS then multiset(log)[x] else 0
  {
    if log == [] then []
    else
      assert log == [log[0]] + log[1..];
      (if now - log[0] < DAY_MS then [log[0]] else []) + Recent(log[1..], now)
  }

  /** Inserts `x` into an ascending sequence. */
  function Insert(x: int, s: seq<int>): (r: seq<int>)
    requires Sorted(s)
    ensures Sorted(r) && multiset(r) == multiset(s) + multiset{x}
  {
    if s == [] || x <= s[0] then
      SortedCons(x, s);
      [x] + s
    else
      var rest := Insert(x, s[1..]);
      assert s == [s[0]] + s[1..];
      assert rest[0] in multiset(s[1..]) + multiset{x};
      assert rest[0] != x ==> rest[0] in s[1..];
      SortedCons(s[0], rest);
      [s[0]] + rest
  }

  /** A head no larger than the first element of a sorted tail keeps it sorted. */
  lemma SortedCons(h: int, t: seq<int>)
    requires Sorted(t) && (t == [] || h <= t[0])
    ensures Sorted([h] + t)
  {
    var r := [h] + t;
    forall i, j | 0 <= i < j < |r|
      ensures r[i] <= r[j]
    {
      if i == 0 {
        assert r[j] == t[j - 1] && t[0] <= t[j - 1];
      } else {
        assert r[i] == t[i - 1] && r[j] == t[j - 1];
      }
    }
  }

  /** `filtered.sort((a, b) => a - b)`: ascending, the same entries. */
  function SortAscending(s: seq<int>): (r: seq<int>)
    ensures Sorted(r) && multiset(r) == multiset(s)
  {
    if s == [] then []
    else
      assert s == [s[0]] + s[1..];
      Insert(s[0], SortAscending(s[1..]))
  }

  datatype PlayWindow = PlayWindow(pruned: seq<int>, closedUntil: Option<int>)

  /** `evaluatePlayWindow(log)` at time `now` with daily limit `limit`: the pruned log holds
      exactly the entries less than a day old, in ascending order, and the window is
      closed until a day after the oldest of them exactly when there are `limit` or more. */
  function EvaluatePlayWindow(log: seq<int>, now: int, limit: int): (w: PlayWindow)
    requires limit >= 1
    ensures Sorted(w.pruned) && multiset(w.pruned) == multiset(Recent(log, now))
    ensures forall k :: 0 <= k < |w.pruned| ==> now - w.pruned[k] < DAY_MS
    ensures w.closedUntil.Some? <==> |w.pruned| >= limit
    ensures w.closedUntil.Some? ==>
      && w.closedUntil.value == w.pruned[0] + DAY_MS
      && forall k :: 0 <= k < |w.pruned| ==> w.closedUntil.value <= w.pruned[k] + DAY_MS
  {
    var pruned := SortAscending(Recent(log, now));
    AllRecent(pruned, log, now);
    PlayWindow(pruned, if |pruned| >= limit then Some(pruned[0] + DAY_MS) else None)
  }

  /** Any rearrangement of the recent entries holds only entries less than a day old. */
  lemma AllRecent(pruned: seq<int>, log: seq<int>, now: int)
    requires multiset(pruned) == multiset(Recent(log, now))
    ensures forall k :: 0 <= k < |pruned| ==> now - pruned[k] < DAY_MS
  {
    forall k | 0 <= k < |pruned|
      ensures now - pruned[k] < DAY_MS
    {
      assert pruned[k] in multiset(pruned);
    }
  }

  /** `isClosed(closedUntil)` at time `now`: a (non-zero) reopening time still ahead. */
  predicate IsClosed(closedUntil: Option<int>, now: int) {
    closedUntil.Some? && closedUntil.value != 0 && closedUntil.value > now
  }

  /** The gate is shut exactly when `limit` or more plays happened in the last day. */
  lemma ClosedIffAtLimit(log: seq<int>, now: int, limit: int)
    requires now >= 0 && limit >= 1
    ensures IsClosed(EvaluatePlayWindow(log, now, limit).closedUntil, now) <==> |Recent(log, now)| >= limit
  {
    var w := EvaluatePlayWindow(log, now, limit);
    assert |w.pruned| == |multiset(w.pruned)| == |Recent(log, now)|;
  }

  // ---------------------------------------------------------------------------
  // sanitizeRun / bumpIntegrity / validateRun

  /** `Object.fromEntries(ids.map((id) => [id, 'unplayed']))` */
  function UnplayedResults(ids: seq<string>): map<string, CategoryResult> {
    map id | id in ids :: Unplayed
  }

  /** `sanitizeRun(raw)`, with `freshSeed` the value `generateSeed()` would give. Every
      field the stored run lacks gets its default; a missing `stateHash` becomes the
      hash of the run so completed. */
  function SanitizeRun(stringify: Stringify, raw: Option<RawRun>, freshSeed: int): (r: Option<Run>)
    ensures r.None? <==> raw.None?
  {
    match raw
    case None => None
    case Some(s) =>
      var selected := s.selectedCategoryIds.GetOr([]);
      var run := Run(
        s.runId,
        if s.randSeed.None? || s.randSeed == Some(0) then freshSeed else s.randSeed.value,
        s.randCursor.GetOr(0),
        selected,
        s.remainingCategoryIds.GetOr(selected),
        s.categoriesPlayed.GetOr([]),
        s.categoryResults.GetOr(UnplayedResults(selected)),
        s.questionHistory.GetOr(map[]),
        s.winsCount.GetOr(0),
        s.finished,
        s.prizeUnlocked,
        s.currentStep.GetOr(Wheel),
        s.currentOffer,
        s.roundPointer.GetOr(0),
        s.lastResult,
        s.currentSession,
        s.currentQuestion,
        s.questionTimer,
        s.actionCounter.GetOr(0),
        NonZero(s.wheelRevealAt),
        "");
      Some(run.(stateHash := if s.stateHash.None? || s.stateHash == Some("") then RunHash(stringify, run) else s.stateHash.value))
  }

  /** A run that lacks `stateHash` comes out of `sanitizeRun` stamped with its own hash. */
  lemma SanitizedRunIsStamped(stringify: Stringify, raw: RawRun, freshSeed: int)
    requires raw.stateHash.None? || raw.stateHash == Some("")
    ensures var r := SanitizeRun(stringify, Some(raw), freshSeed).value;
      r.stateHash == RunHash(stringify, r)
  {
    var r := SanitizeRun(stringify, Some(raw), freshSeed).value;
    HashOnlyReadsHashedFields(stringify, r, r.(stateHash := ""));
  }

  /** Sanitising a stored run that already has a seed, a hash and no zero reveal time gives
      the run back: `sanitizeRun` changes nothing the engine itself wrote. */
  lemma SanitizeStored(stringify: Stringify, run: Run, freshSeed: int)
    requires run.randSeed != 0 && run.stateHash != "" && run.wheelRevealAt != Some(0)
    ensures SanitizeRun(stringify, Some(Stored(run)), freshSeed) == Some(run)
  {
  }

  /** `bumpIntegrity(run)`: one more action, and the hash restamped; nothing else changes.
      The new hash is the hash of the new run. */
  function BumpIntegrity(stringify: Stringify, run: Run): (r: Run)
    ensures r.actionCounter == run.actionCounter + 1
    ensures r.stateHash == RunHash(stringify, r)
    ensures r == run.(actionCounter := r.actionCounter, stateHash := r.stateHash)
  {
    var bumped := run.(actionCounter := run.actionCounter + 1);
    HashOnlyReadsHashedFields(stringify, bumped, bumped.(stateHash := RunHash(stringify, bumped)));
    bumped.(stateHash := RunHash(stringify, bumped))
  }

  /** `validateRun(run, categoryMap)`: no run, or one whose selected and remaining
      category ids all name a loaded category. The lookup is on the map's own keys;
      names a plain object inherits are not keys here. */
  predicate ValidateRun(run: Option<Run>, categoryMap: map<string, Category>) {
    run.None? ||
    ((forall id :: id in run.value.selectedCategoryIds ==> id in categoryMap) &&
     (forall id :: id in run.value.remainingCategoryIds ==> id in categoryMap))
  }

  /** `determineRoundType(pointer)` */
  function DetermineRoundType(pointer: int): (kind: OfferKind)
    ensures kind == ChoiceOffer <==> pointer < CHOICE_ROUNDS
  {
    if pointer < CHOICE_ROUNDS then ChoiceOffer else ForcedOffer
  }

  // ---------------------------------------------------------------------------
  // pickOffer

  /** `pickOffer(run, count)` on the run's seed and cursor: `min(count, |remaining|)`
      category ids drawn without replacement from `remaining` (so no id is offered more
      often than it is listed), one draw each; `next` is the new cursor. The prefix
      fallback of the source is never taken, since the draw always yields `amount` ids. */
  method PickOffer(draw: Draw, remaining: seq<string>, count: nat, seed: int, cursor: int)
    returns (options: seq<string>, next: int)
    ensures (options, next) == TakeFrom(draw, seed, remaining, [], Amount(count, |remaining|), cursor)
    ensures |options| == Amount(count, |remaining|)
    ensures multiset(options) <= multiset(remaining)
    ensures next == cursor + |options|
  {
    var available := remaining;
    var amount := if count < |available| then count else |available|;
    if amount == 0 {
      return [], cursor;
    }
    var items, updated, positions, leftover := TakeRandomItems(draw, available, amount, seed, cursor);
    next := updated;
    if |items| == amount {
      return items, next;
    }
    assert false;
  }

  // ---------------------------------------------------------------------------
  // pickQuestionBatch

  /** `pickQuestionBatch(run, category)` on the run's seed and cursor: the category's
      questions shuffled and cut to five, or, when there are fewer, all of them padded
      to five by cycling through the questions in their original order. A category
      without questions has nothing to pad with (None): the source pads with
      `undefined`, which makes the session start throw. */
  method PickQuestionBatch(draw: Draw, questions: seq<Question>, seed: int, cursor: int)
    returns (batch: Option<seq<Question>>, next: int)
    ensures batch.None? <==> |questions| == 0
    ensures batch.Some? ==> |batch.value| == QUESTION_BATCH_SIZE
    ensures batch.Some? ==> forall k :: 0 <= k < |batch.value| ==> batch.value[k] in questions
    ensures batch.Some? && |questions| >= QUESTION_BATCH_SIZE ==>
      multiset(batch.value) <= multiset(questions)
    ensures batch.Some? && |questions| < QUESTION_BATCH_SIZE ==>
      && multiset(batch.value[..|questions|]) == multiset(questions)
      && forall k :: |questions| <= k < QUESTION_BATCH_SIZE ==> batch.value[k] == questions[k % |questions|]
    ensures next == cursor + if |questions| > 1 then |questions| - 1 else 0
    ensures var (shuffled, after) := ShuffleDown(draw, seed, questions, |questions| - 1, cursor);
      next == after && (batch.Some? ==> batch.value == PaddedBatch(shuffled, questions))
  {
    var items;
    items, next := ShuffleItems(draw, questions, seed, cursor);
    if |questions| == 0 {
      return None, next;
    }
    var extended := CutOrPad(items, questions);
    batch := Some(extended);
  }

  /** The five questions of a batch made from the shuffled `items`: position `k` holds
      the `k`-th shuffled item while there is one, and `questions[k % n]` after that. */
  function PaddedBatch<T>(items: seq<T>, questions: seq<T>): seq<T>
    requires |questions| > 0
  {
    seq(QUESTION_BATCH_SIZE, k requires 0 <= k < QUESTION_BATCH_SIZE =>
      if k < |items| then items[k] else questions[k % |questions|])
  }

  /** The batch `pickQuestionBatch` makes of the shuffled questions `items`: their first
      five, or all of them padded to five from `questions` in order. */
  method CutOrPad<T>(items: seq<T>, questions: seq<T>) returns (batch: seq<T>)
    requires multiset(items) == multiset(questions) && |questions| > 0
    ensures |items| == |questions|
    ensures batch == PaddedBatch(items, questions)
    ensures |batch| == QUESTION_BATCH_SIZE
    ensures forall k :: 0 <= k < |batch| ==> batch[k] in questions
    ensures |questions| >= QUESTION_BATCH_SIZE ==> batch == items[..QUESTION_BATCH_SIZE] && multiset(batch) <= multiset(questions)
    ensures |questions| < QUESTION_BATCH_SIZE ==>
      && batch[..|questions|] == items
      && forall k :: |questions| <= k < QUESTION_BATCH_SIZE ==> batch[k] == questions[k % |questions|]
  {
    assert |items| == |multiset(items)| == |questions|;
    var cut := items[..if |items| < QUESTION_BATCH_SIZE then |items| else QUESTION_BATCH_SIZE];
    PrefixOfPermutation(items, questions, |cut|);
    batch := PadBatch(cut, questions);
    if |questions| >= QUESTION_BATCH_SIZE {
      assert batch == batch[..|cut|] == cut;
    } else {
      assert batch[..|questions|] == cut == items;
      forall k | |questions| <= k < QUESTION_BATCH_SIZE
        ensures batch[k] in questions
      {
        assert 0 <= k % |questions| < |questions|;
      }
    }
  }

  /** The padding loop of `pickQuestionBatch`: appends `questions[length % n]` until there
      are five; a batch already of five is returned as it is. */
  method PadBatch<T>(batch: seq<T>, questions: seq<T>) returns (extended: seq<T>)
    requires |questions| > 0 && |batch| <= QUESTION_BATCH_SIZE
    ensures |extended| == QUESTION_BATCH_SIZE && extended[..|batch|] == batch
    ensures forall k :: |batch| <= k < QUESTION_BATCH_SIZE ==> extended[k] == questions[k % |questions|]
  {
    extended := batch;
    while |extended| < QUESTION_BATCH_SIZE
      invariant |batch| <= |extended| <= QUESTION_BATCH_SIZE && extended[..|batch|] == batch
      invariant forall k :: |batch| <= k < |extended| ==> extended[k] == questions[k % |questions|]
    {
      extended := extended + [questions[|extended| % |questions|]];
    }
  }

  // ---------------------------------------------------------------------------
  // shuffleQuestionChoices

  /** A choice together with its original position. */
  datatype Tagged = Tagged(choice: Json, index: int)

  function Decorate(choices: seq<Json>): (r: seq<Tagged>)
    ensures |r| == |choices|
    ensures forall k :: 0 <= k < |r| ==> r[k] == Tagged(choices[k], k)
  {
    seq(|choices|, k requires 0 <= k < |choices| => Tagged(choices[k], k))
  }

  /** `items.findIndex((entry) => entry.index === target)` */
  function FindIndex(s: seq<Tagged>, target: int): (i: int)
    ensures -1 <= i < |s|
    ensures i == -1 <==> forall k :: 0 <= k < |s| ==> s[k].index != target
    ensures i >= 0 ==> s[i].index == target && forall k :: 0 <= k < i ==> s[k].index != target
  {
    if s == [] then -1
    else if s[0].index == target then 0
    else
      var i := FindIndex(s[1..], target);
      if i == -1 then -1 else i + 1
  }

  /** The choice of a tagged entry, `entry.choice`. */
  function ChoiceOf(entry: Tagged): Json {
    entry.choice
  }

  /** The question with its choices in the order the stream `ShuffleDown` gives the
      tagged choices at this seed and cursor, and its answer index where the tagged
      correct choice landed (0 when it is absent). */
  function ChoicesShuffled(draw: Draw, question: Question, seed: int, cursor: int): Question {
    var decorated := Decorate(question.choices);
    var items := ShuffleDown(draw, seed, decorated, |decorated| - 1, cursor).0;
    var answerIndex := FindIndex(items, question.answerIndex);
    question.(choices := Map(ChoiceOf, items), answerIndex := if answerIndex == -1 then 0 else answerIndex)
  }

  /** `shuffleQuestionChoices(run, question)` on the run's seed and cursor: the choices
      shuffled, with the answer index following the correct choice. The choices are a
      permutation of the old ones, the choice at the new answer index is the one at the
      old, and every other field of the question stays. */
  method ShuffleQuestionChoices(draw: Draw, question: Question, seed: int, cursor: int)
    returns (shuffled: Question, next: int)
    ensures |shuffled.choices| == |question.choices|
    ensures multiset(shuffled.choices) == multiset(question.choices)
    ensures question.answerIndex < |question.choices| ==>
      shuffled.answerIndex < |shuffled.choices| && shuffled.choices[shuffled.answerIndex] == question.choices[question.answerIndex]
    ensures shuffled == question.(choices := shuffled.choices, answerIndex := shuffled.answerIndex)
    ensures next == cursor + if |question.choices| > 1 then |question.choices| - 1 else 0
    ensures shuffled == ChoicesShuffled(draw, question, seed, cursor)
  {
    var decorated := Decorate(question.choices);
    var items;
    items, next := ShuffleItems(draw, decorated, seed, cursor);
    var choices := Map(ChoiceOf, items);
    MapPermutation(ChoiceOf, items, decorated);
    assert Map(ChoiceOf, decorated) == question.choices;
    var answerIndex := FindIndex(items, question.answerIndex);
    if question.answerIndex < |question.choices| {
      assert decorated[question.answerIndex] in multiset(items);
      assert items[answerIndex] in multiset(decorated);
    }
    shuffled := question.(choices := choices, answerIndex := if answerIndex == -1 then 0 else answerIndex);
  }

  // ---------------------------------------------------------------------------
  // determineCategoryWin / determineCategoryLockedLoss

  /** `determineCategoryWin(session)`: at least three correct answers. */
  predicate DetermineCategoryWin(session: Session) {
    session.correctCount >= WIN_THRESHOLD
  }

  /** `determineCategoryLockedLoss(session)`: even answering every remaining question of
      the five correctly cannot reach three. */
  predicate DetermineCategoryLockedLoss(session: Session) {
    session.correctCount + (QUESTION_BATCH_SIZE - |session.answers|) < WIN_THRESHOLD
  }

  /** A session in a locked loss cannot be won by any continuation: answering more of the
      five questions adds at most one correct answer each. */
  lemma LockedLossIsFinal(s: Session, later: Session)
    requires DetermineCategoryLockedLoss(s)
    requires |s.answers| <= |later.answers| <= QUESTION_BATCH_SIZE
    requires later.correctCount <= s.correctCount + (|later.answers| - |s.answers|)
    ensures !DetermineCategoryWin(later)
  {
  }

  /** A session not yet lost can still be won: answering the rest correctly reaches three. */
  lemma NotLockedCanWin(s: Session, later: Session)
    requires !DetermineCategoryLockedLoss(s)
    requires |later.answers| == QUESTION_BATCH_SIZE
    requires later.correctCount == s.correctCount + (QUESTION_BATCH_SIZE - |s.answers|)
    ensures DetermineCategoryWin(later)
  {
  }
}
