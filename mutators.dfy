/**
 * The run mutators inside `createEngine` in engine.js: scheduling the next round,
 * starting and completing a category session, answering, moving on after an answer,
 * revealing the wheel and choosing a category. Each works on the run `updateRun`
 * cloned, here a value, and ends in one of three ways: the mutator returns false and
 * nothing is committed (`Declined`), it returns normally with the new run and its net
 * effect on the question lock (`Accepted`), or it throws (`Fatal`).
 *
 * `Coherent` is what every accepted mutator keeps true of a run: the round pointer
 * counts the categories played, no more categories are won than played, a prize
 * needs four wins, a category once played never comes back into the pool, and the
 * open session agrees with the current question and its answers.
 */
module Mutators {
  import opened Wrappers
  import opened Seqs
  import opened Json
  import opened Random
  import opened Questions
  import opened RunState
  import opened Persistence
  import opened Rules

  /** The net effect of a mutator on the question lock in session storage. */
  datatype LockAction = KeepLock | ClearLock | SetLock(lock: Lock)

  datatype Outcome =
    | Declined
    | Accepted(run: Run, lock: LockAction)
    | Fatal(message: string)

  /** The message `beginSession` throws for a category the catalog lacks. */
  function MissingCategory(categoryId: string): string {
    "Missing category data for " + categoryId
  }

  /** The message of the TypeError thrown by reading a property of `undefined`. */
  function UndefinedAccess(property: string): string {
    "Cannot read properties of undefined (reading '" + property + "')"
  }

  /** `buildQuestionTimer()` at time `now`. */
  function QuestionTimer(now: int): Timer {
    Timer(now + DEFAULT_QUESTION_TIME_LIMIT, DEFAULT_QUESTION_TIME_LIMIT)
  }

  /** The lock `setQuestionLock(run)` stores at time `now`. */
  function QuestionLock(run: Run, now: int): Lock {
    Lock(
      run.runId,
      match run.currentSession case None => None case Some(s) => Some(s.categoryId),
      match run.currentQuestion case None => None case Some(q) => Some(q.id),
      now,
      match run.questionTimer case None => None case Some(t) => Some(t.deadline))
  }

  // ---------------------------------------------------------------------------
  // What the mutators keep true

  /** The number of correct answers among `answers`. */
  function CorrectAnswers(answers: seq<Answer>): (n: nat)
    ensures n <= |answers|
  {
    if answers == [] then 0
    else CorrectAnswers(answers[..|answers| - 1]) + if answers[|answers| - 1].correct then 1 else 0
  }

  /** The round bookkeeping: one round per category played, wins among them, and the
      end and the prize only where the rules allow them. */
  ghost predicate Progress(run: Run) {
    && run.roundPointer == |run.categoriesPlayed|
    && 0 <= run.winsCount <= |run.categoriesPlayed|
    && (run.finished ==> run.roundPointer >= ROUNDS)
    && (run.prizeUnlocked ==> run.winsCount >= PRIZE_WINS)
  }

  /** The category pools: the remaining ids are distinct selected ids, and a played
      category is out of the pool with its result recorded. */
  ghost predicate Pools(run: Run) {
    && NoRepeats(run.remainingCategoryIds)
    && (forall id :: id in run.remainingCategoryIds ==> id in run.selectedCategoryIds)
    && (forall id :: id in run.categoriesPlayed ==>
          id !in run.remainingCategoryIds && id in run.categoryResults && run.categoryResults[id] != Unplayed)
  }

  /** The open session: five questions, the current one on screen, at most one answer
      per question reached, the correct count matching the answers, and its category
      out of the pool. A question step always has a session and a timer. */
  ghost predicate SessionState(run: Run) {
    && (run.currentStep == QuestionStep ==> run.currentSession.Some? && run.questionTimer.Some?)
    && match run.currentSession
       case None => true
       case Some(s) =>
         && |s.questions| == QUESTION_BATCH_SIZE
         && 0 <= s.index < QUESTION_BATCH_SIZE
         && run.currentQuestion == Some(s.questions[s.index])
         && |s.answers| <= s.index + 1
         && (run.currentStep == QuestionStep ==> |s.answers| <= s.index)
         && s.correctCount == CorrectAnswers(s.answers)
         && s.categoryId !in run.remainingCategoryIds
  }

  ghost predicate Coherent(run: Run) {
    Progress(run) && Pools(run) && SessionState(run)
  }

  // ---------------------------------------------------------------------------
  // scheduleNextRound

  /** What `scheduleNextRound` leaves: after five rounds the run is finished, with the
      prize unlocked exactly when four categories were won, and the lock cleared;
      before that a new offer of the round's kind (two categories in the first three
      rounds, one after), drawn without replacement from the remaining pool, one draw
      per category, with the wheel revealed now. The offer is the one the stream
      `TakeFrom` draws from the pool at the run's seed and cursor. */
  ghost predicate Scheduled(draw: Draw, run: Run, r: Run, lock: LockAction, now: int) {
    if run.roundPointer >= ROUNDS then
      && r == run.(finished := true, prizeUnlocked := run.winsCount >= PRIZE_WINS, currentStep := End)
      && lock == ClearLock
    else
      && lock == KeepLock
      && r.currentOffer.Some?
      && r.currentOffer.value.kind == DetermineRoundType(run.roundPointer)
      && |r.currentOffer.value.options| == Amount(if run.roundPointer < CHOICE_ROUNDS then 2 else 1, |run.remainingCategoryIds|)
      && multiset(r.currentOffer.value.options) <= multiset(run.remainingCategoryIds)
      && (r.currentOffer.value.options, r.randCursor) ==
           TakeFrom(draw, run.randSeed, run.remainingCategoryIds, [],
                    Amount(if run.roundPointer < CHOICE_ROUNDS then 2 else 1, |run.remainingCategoryIds|), run.randCursor)
      && r == run.(
           randCursor := run.randCursor + |r.currentOffer.value.options|,
           currentOffer := r.currentOffer,
           currentStep := Wheel,
           wheelRevealAt := Some(now))
  }

  /** `scheduleNextRound(run)` at time `now`. */
  method ScheduleNextRound(draw: Draw, run: Run, now: int) returns (r: Run, lock: LockAction)
    ensures Scheduled(draw, run, r, lock, now)
  {
    if run.roundPointer >= ROUNDS {
      r := run.(finished := true, prizeUnlocked := run.winsCount >= PRIZE_WINS, currentStep := End);
      lock := ClearLock;
      return;
    }
    var kind := DetermineRoundType(run.roundPointer);
    var options, next := PickOffer(draw, run.remainingCategoryIds, if kind == ChoiceOffer then 2 else 1, run.randSeed, run.randCursor);
    r := run.(randCursor := next, currentOffer := Some(Offer(kind, options)), currentStep := Wheel, wheelRevealAt := Some(now));
    lock := KeepLock;
  }

  /** Scheduling a round keeps a run without a session coherent, and offers distinct
      categories from a pool without repeats. */
  lemma ScheduledKeepsCoherent(draw: Draw, run: Run, r: Run, lock: LockAction, now: int)
    requires Scheduled(draw, run, r, lock, now)
    ensures run.roundPointer < ROUNDS && NoRepeats(run.remainingCategoryIds) ==> NoRepeats(r.currentOffer.value.options)
    ensures Progress(run) && Pools(run) && run.currentSession.None? ==> Coherent(r)
  {
    if run.roundPointer < ROUNDS && NoRepeats(run.remainingCategoryIds) {
      var options := r.currentOffer.value.options;
      forall x
        ensures multiset(options)[x] <= 1
      {
        assert multiset(options)[x] <= multiset(run.remainingCategoryIds)[x];
      }
    }
  }

  // ---------------------------------------------------------------------------
  // beginSession

  /** `p` is `q` with its choices shuffled and its answer index following the correct
      choice; every other field is the same. */
  ghost predicate Reshuffled(q: Question, p: Question) {
    && multiset(p.choices) == multiset(q.choices)
    && (q.answerIndex < |q.choices| ==>
          p.answerIndex < |p.choices| && p.choices[p.answerIndex] == q.choices[q.answerIndex])
    && p == q.(choices := p.choices, answerIndex := p.answerIndex)
  }

  /** The draws a Fisher–Yates shuffle of `n` items takes: one per position from the
      last down to the second. */
  function ShuffleDraws(n: nat): nat {
    if n > 1 then n - 1 else 0
  }

  /** The draws that shuffling the choices of each question of `qs` takes. */
  function ChoiceDraws(qs: seq<Question>): nat {
    if qs == [] then 0 else ChoiceDraws(qs[..|qs| - 1]) + ShuffleDraws(|qs[|qs| - 1].choices|)
  }

  /** A batch `pickQuestionBatch` can make of a category's questions: five of them, taken
      without repetition when there are at least five; otherwise all of them once, in
      some order, followed by repeats cycling through the questions in their own order. */
  ghost predicate BatchOf(questions: seq<Question>, batch: seq<Question>) {
    && |questions| > 0
    && |batch| == QUESTION_BATCH_SIZE
    && (|questions| >= QUESTION_BATCH_SIZE ==> multiset(batch) <= multiset(questions))
    && (|questions| < QUESTION_BATCH_SIZE ==>
          && multiset(batch[..|questions|]) == multiset(questions)
          && forall k :: |questions| <= k < QUESTION_BATCH_SIZE ==> batch[k] == questions[k % |questions|])
  }

  /** What `beginSession(run, categoryId)` leaves: a throw for a category the catalog
      lacks, or one without questions (its padded batch holds `undefined`); otherwise a
      fresh session of five questions of the category, each with its choices shuffled,
      the first of them on screen with a new timer, and the lock set for it. The batch
      is the one the stream `ShuffleDown` gives at the run's seed and cursor, and each
      question's choices are shuffled by the stream from where the previous one stopped. */
  ghost predicate SessionBegun(draw: Draw, run: Run, categoryMap: map<string, Category>, categoryId: string, now: int, o: Outcome) {
    if categoryId !in categoryMap then
      o == Fatal(MissingCategory(categoryId))
    else if |categoryMap[categoryId].questions| == 0 then
      o == Fatal(UndefinedAccess("id"))
    else
      && o.Accepted?
      && o.run.currentSession.Some?
      && var s := o.run.currentSession.value;
      && s.categoryId == categoryId && s.index == 0 && s.answers == [] && s.correctCount == 0
      && |s.questions| == QUESTION_BATCH_SIZE
      && (forall k :: 0 <= k < |s.questions| ==>
            exists q :: q in categoryMap[categoryId].questions && Reshuffled(q, s.questions[k]))
      && var questions := categoryMap[categoryId].questions;
      && var (shuffled, after) := ShuffleDown(draw, run.randSeed, questions, |questions| - 1, run.randCursor);
      && var batch := PaddedBatch(shuffled, questions);
      && BatchOf(questions, batch)
      && s.questions == ShuffledBatch(draw, run.randSeed, batch, after)
      && (forall k :: 0 <= k < QUESTION_BATCH_SIZE ==> Reshuffled(batch[k], s.questions[k]))
      && after == run.randCursor + ShuffleDraws(|questions|)
      && o.run.randCursor == after + ChoiceDraws(batch)
      && o.run == run.(
           randCursor := o.run.randCursor,
           currentSession := o.run.currentSession,
           currentQuestion := Some(s.questions[0]),
           questionTimer := Some(QuestionTimer(now)),
           currentStep := QuestionStep)
      && o.lock == SetLock(QuestionLock(o.run, now))
  }

  /** The questions of `batch` with their choices shuffled in turn, each shuffle drawing
      on from where the previous one stopped. */
  function ShuffledBatch(draw: Draw, seed: int, batch: seq<Question>, cursor: int): seq<Question>
    decreases |batch|
  {
    if batch == [] then []
    else
      [ChoicesShuffled(draw, batch[0], seed, cursor)]
        + ShuffledBatch(draw, seed, batch[1..], cursor + ShuffleDraws(|batch[0].choices|))
  }

  /** The `map` of `beginSession` that shuffles the choices of each question of the batch
      in turn, each shuffle drawing on from where the previous one stopped. */
  method ShuffleEach(draw: Draw, batch: seq<Question>, seed: int, cursor: int)
    returns (prepared: seq<Question>, next: int)
    ensures |prepared| == |batch|
    ensures forall k :: 0 <= k < |batch| ==> Reshuffled(batch[k], prepared[k])
    ensures next == cursor + ChoiceDraws(batch)
    ensures prepared == ShuffledBatch(draw, seed, batch, cursor)
  {
    prepared, next := [], cursor;
    assert batch[..0] == [] && batch[0..] == batch;
    for i := 0 to |batch|
      invariant ShuffledSoFar(draw, seed, batch, cursor, i, prepared, next)
    {
      var q, after := ShuffleQuestionChoices(draw, batch[i], seed, next);
      ShuffledOneMore(draw, seed, batch, cursor, i, prepared, next, q, after);
      prepared := prepared + [q];
      next := after;
    }
    assert batch[..|batch|] == batch && batch[|batch|..] == [];
  }

  /** After the first `i` questions of the `map` of `beginSession`: each of them shuffled,
      and the stream followed as below. */
  ghost predicate ShuffledSoFar(draw: Draw, seed: int, batch: seq<Question>, cursor: int, i: nat,
                                prepared: seq<Question>, next: int) {
    && StreamSoFar(draw, seed, batch, cursor, i, prepared, next)
    && |prepared| == i
    && (forall k :: 0 <= k < i ==> Reshuffled(batch[k], prepared[k]))
  }

  lemma ShuffledOneMore(draw: Draw, seed: int, batch: seq<Question>, cursor: int, i: nat,
                        prepared: seq<Question>, next: int, q: Question, after: int)
    requires ShuffledSoFar(draw, seed, batch, cursor, i, prepared, next) && i < |batch|
    requires Reshuffled(batch[i], q) && q == ChoicesShuffled(draw, batch[i], seed, next)
    requires after == next + ShuffleDraws(|batch[i].choices|)
    ensures ShuffledSoFar(draw, seed, batch, cursor, i + 1, prepared + [q], after)
  {
    StreamOneMore(draw, seed, batch, cursor, i, prepared, next, q, after);
    ghost var prepared' := prepared + [q];
    forall k | 0 <= k < i + 1
      ensures Reshuffled(batch[k], prepared'[k])
    {
      if k < i {
        assert prepared'[k] == prepared[k];
      }
    }
  }

  /** After the first `i` questions of the `map` of `beginSession`: the cursor has moved
      on by their draws, and the shuffled questions so far followed by the rest shuffled
      from here make the whole shuffled batch. */
  ghost predicate StreamSoFar(draw: Draw, seed: int, batch: seq<Question>, cursor: int, i: nat,
                              prepared: seq<Question>, next: int) {
    && i <= |batch|
    && next == cursor + ChoiceDraws(batch[..i])
    && prepared + ShuffledBatch(draw, seed, batch[i..], next) == ShuffledBatch(draw, seed, batch, cursor)
  }

  lemma StreamOneMore(draw: Draw, seed: int, batch: seq<Question>, cursor: int, i: nat,
                      prepared: seq<Question>, next: int, q: Question, after: int)
    requires StreamSoFar(draw, seed, batch, cursor, i, prepared, next) && i < |batch|
    requires q == ChoicesShuffled(draw, batch[i], seed, next)
    requires after == next + ShuffleDraws(|batch[i].choices|)
    ensures StreamSoFar(draw, seed, batch, cursor, i + 1, prepared + [q], after)
  {
    ChoiceDrawsStep(batch, i);
    ShuffledBatchStep(draw, seed, batch, i, next);
    Regroup(prepared, q, ShuffledBatch(draw, seed, batch[i + 1..], after),
            ShuffledBatch(draw, seed, batch[i..], next), ShuffledBatch(draw, seed, batch, cursor));
  }

  lemma ChoiceDrawsStep(batch: seq<Question>, i: nat)
    requires i < |batch|
    ensures ChoiceDraws(batch[..i + 1]) == ChoiceDraws(batch[..i]) + ShuffleDraws(|batch[i].choices|)
  {
    assert batch[..i + 1][..i] == batch[..i];
  }

  /** Moving one element from the front of the rest to the end of the prefix keeps the whole. */
  lemma Regroup<T>(prefix: seq<T>, x: T, rest: seq<T>, tail: seq<T>, whole: seq<T>)
    requires [x] + rest == tail && prefix + tail == whole
    ensures (prefix + [x]) + rest == whole
  {
    assert (prefix + [x]) + rest == prefix + ([x] + rest);
  }


  /** The shuffled rest of a batch from position `i` starts with question `i`, shuffled at
      the current cursor. */
  lemma ShuffledBatchStep(draw: Draw, seed: int, batch: seq<Question>, i: nat, cursor: int)
    requires i < |batch|
    ensures ShuffledBatch(draw, seed, batch[i..], cursor) ==
      [ChoicesShuffled(draw, batch[i], seed, cursor)]
        + ShuffledBatch(draw, seed, batch[i + 1..], cursor + ShuffleDraws(|batch[i].choices|))
  {
    assert batch[i..][0] == batch[i] && batch[i..][1..] == batch[i + 1..];
  }

  /** `beginSession(run, categoryId)` at time `now`. */
  method BeginSession(draw: Draw, run: Run, categoryMap: map<string, Category>, categoryId: string, now: int)
    returns (o: Outcome)
    ensures SessionBegun(draw, run, categoryMap, categoryId, now, o)
    ensures Coherent(run) && categoryId !in run.remainingCategoryIds && o.Accepted? ==> Coherent(o.run)
  {
    if categoryId !in categoryMap {
      return Fatal(MissingCategory(categoryId));
    }
    var questions := categoryMap[categoryId].questions;
    var batch, cursor := PickQuestionBatch(draw, questions, run.randSeed, run.randCursor);
    if batch.None? {
      return Fatal(UndefinedAccess("id"));
    }
    var picked := batch.value;
    var prepared: seq<Question>;
    assert BatchOf(questions, picked);
    ghost var after := cursor;
    prepared, cursor := ShuffleEach(draw, picked, run.randSeed, cursor);
    var r := Started(run, categoryId, prepared, cursor, now);
    o := Accepted(r, SetLock(QuestionLock(r, now)));
    SessionStarted(draw, run, categoryMap, categoryId, now, picked, prepared, after, cursor);
    if Coherent(run) && categoryId !in run.remainingCategoryIds {
      StartedKeepsCoherent(run, categoryId, prepared, cursor, now);
    }
  }

  /** The run with the session on `prepared` open: its first question on screen, a new
      timer, the question step, and the cursor where the draws left it. */
  function Started(run: Run, categoryId: string, prepared: seq<Question>, cursor: int, now: int): Run
    requires |prepared| > 0
  {
    run.(
      randCursor := cursor,
      currentSession := Some(Session(categoryId, prepared, 0, [], 0)),
      currentQuestion := Some(prepared[0]),
      questionTimer := Some(QuestionTimer(now)),
      currentStep := QuestionStep)
  }

  /** Opening a five-question session on a category out of the pool keeps a run coherent. */
  lemma StartedKeepsCoherent(run: Run, categoryId: string, prepared: seq<Question>, cursor: int, now: int)
    requires Coherent(run) && categoryId !in run.remainingCategoryIds
    requires |prepared| == QUESTION_BATCH_SIZE
    ensures Coherent(Started(run, categoryId, prepared, cursor, now))
  {
  }

  /** A batch of the category with its choices shuffled, and the cursor after all the
      draws, make the session `beginSession` promises. */
  lemma SessionStarted(draw: Draw, run: Run, categoryMap: map<string, Category>, categoryId: string, now: int,
                       picked: seq<Question>, prepared: seq<Question>, after: int, cursor: int)
    requires categoryId in categoryMap && BatchOf(categoryMap[categoryId].questions, picked)
    requires var questions := categoryMap[categoryId].questions;
      && (ShuffleDown(draw, run.randSeed, questions, |questions| - 1, run.randCursor).1 == after)
      && picked == PaddedBatch(ShuffleDown(draw, run.randSeed, questions, |questions| - 1, run.randCursor).0, questions)
      && after == run.randCursor + ShuffleDraws(|questions|)
    requires prepared == ShuffledBatch(draw, run.randSeed, picked, after)
    requires |prepared| == |picked| && forall k :: 0 <= k < |picked| ==> Reshuffled(picked[k], prepared[k])
    requires cursor == after + ChoiceDraws(picked)
    ensures var r := Started(run, categoryId, prepared, cursor, now);
      SessionBegun(draw, run, categoryMap, categoryId, now, Accepted(r, SetLock(QuestionLock(r, now))))
  {
    var questions := categoryMap[categoryId].questions;
    forall k | 0 <= k < |prepared|
      ensures exists q :: q in questions && Reshuffled(q, prepared[k])
    {
      BatchMember(questions, picked, k);
    }
  }

  /** Every question of a batch is one of the category's. */
  lemma BatchMember(questions: seq<Question>, batch: seq<Question>, k: nat)
    requires BatchOf(questions, batch) && k < |batch|
    ensures batch[k] in questions
  {
    if |questions| >= QUESTION_BATCH_SIZE {
      assert batch[k] in multiset(batch);
    } else if k < |questions| {
      assert batch[k] in multiset(batch[..|questions|]) by {
        assert batch[..|questions|][k] == batch[k];
      }
    }
  }

  // ---------------------------------------------------------------------------
  // completeSession

  /** The run `completeSession` hands to `scheduleNextRound`: the session's result
      recorded, a win counted, the category played and out of the pool, the session,
      question and timer gone, the category summary shown, and the round advanced. */
  function Recorded(run: Run, s: Session): Run {
    var won := DetermineCategoryWin(s);
    run.(
      categoryResults := run.categoryResults[s.categoryId := if won then Won else Lost],
      winsCount := run.winsCount + if won then 1 else 0,
      categoriesPlayed := run.categoriesPlayed + [s.categoryId],
      remainingCategoryIds := Without(run.remainingCategoryIds, s.categoryId),
      currentSession := None,
      currentQuestion := None,
      questionTimer := None,
      lastResult := Some(CategoryOutcome(s.categoryId, s.correctCount, QUESTION_BATCH_SIZE, won)),
      roundPointer := run.roundPointer + 1)
  }

  /** Recording a session keeps the round bookkeeping and the pools: the pointer and the
      played list grow together, a win is counted only with its play, and the played
      category leaves the pool with its result. */
  lemma RecordedKeepsPools(run: Run, s: Session)
    requires Progress(run) && Pools(run)
    ensures Progress(Recorded(run, s)) && Pools(Recorded(run, s))
  {
    var r := Recorded(run, s);
    forall id | id in r.categoriesPlayed
      ensures id !in r.remainingCategoryIds && id in r.categoryResults && r.categoryResults[id] != Unplayed
    {
      if id != s.categoryId {
        assert id in run.categoriesPlayed;
      }
    }
    forall x
      ensures multiset(r.remainingCategoryIds)[x] <= 1
    {
      if x == s.categoryId {
        assert x !in r.remainingCategoryIds;
      }
    }
  }

  /** `completeSession(run)` at time `now`: nothing without a session; otherwise the
      session recorded and the next round scheduled. */
  method CompleteSession(draw: Draw, run: Run, now: int) returns (r: Run, lock: LockAction)
    ensures run.currentSession.None? ==> r == run && lock == KeepLock
    ensures run.currentSession.Some? ==> Scheduled(draw, Recorded(run, run.currentSession.value), r, lock, now)
    ensures Coherent(run) ==> Coherent(r)
  {
    if run.currentSession.None? {
      return run, KeepLock;
    }
    var recorded := Recorded(run, run.currentSession.value);
    if Coherent(run) {
      RecordedKeepsPools(run, run.currentSession.value);
    }
    r, lock := ScheduleNextRound(draw, recorded, now);
    ScheduledKeepsCoherent(draw, recorded, r, lock, now);
  }

  // ---------------------------------------------------------------------------
  // handleAnswer

  /** The mutator of `handleAnswer(choiceIndex, timedOut)`; `choiceIndex` is None for the
      `null` a timeout passes. Only a question step with a session and a question takes
      an answer. The answer is correct exactly when it did not time out and picked the
      answer index; it is appended to the session (a timeout records no selection), the
      correct count goes up by one exactly for a correct answer, the answer summary is
      shown, the timer stops and the lock is cleared. Nothing else changes. */
  function HandleAnswer(run: Run, choiceIndex: Option<int>, timedOut: bool): (o: Outcome)
    ensures o.Declined? <==> run.currentSession.None? || run.currentQuestion.None? || run.currentStep != QuestionStep
    ensures !o.Fatal?
    ensures o.Accepted? ==>
      var s := run.currentSession.value;
      var q := run.currentQuestion.value;
      var correct := !timedOut && choiceIndex == Some(q.answerIndex);
      && o.lock == ClearLock
      && o.run.currentSession.Some?
      && var s' := o.run.currentSession.value;
      && |s'.answers| == |s.answers| + 1 && s'.answers[..|s.answers|] == s.answers
      && s'.answers[|s.answers|] == Answer(q.id, if timedOut then None else choiceIndex, correct, q.prompt, q.explanation)
      && s'.correctCount == s.correctCount + (if correct then 1 else 0)
      && s' == s.(answers := s'.answers, correctCount := s'.correctCount)
      && o.run.lastResult == Some(AnswerOutcome(correct, q.prompt, q.explanation, |s'.answers|, QUESTION_BATCH_SIZE, timedOut))
      && o.run == run.(currentSession := o.run.currentSession, lastResult := o.run.lastResult, currentStep := AnswerStep, questionTimer := None)
  {
    if run.currentSession.None? || run.currentQuestion.None? || run.currentStep != QuestionStep then
      Declined
    else
      var s := run.currentSession.value;
      var q := run.currentQuestion.value;
      var correct := !timedOut && choiceIndex == Some(q.answerIndex);
      var answer := Answer(q.id, if timedOut then None else choiceIndex, correct, q.prompt, q.explanation);
      var answered := s.(
        correctCount := s.correctCount + (if correct then 1 else 0),
        answers := s.answers + [answer]);
      assert answered.answers[..|s.answers|] == s.answers;
      Accepted(
        run.(
          currentSession := Some(answered),
          lastResult := Some(AnswerOutcome(correct, q.prompt, q.explanation, |answered.answers|, QUESTION_BATCH_SIZE, timedOut)),
          currentStep := AnswerStep,
          questionTimer := None),
        ClearLock)
  }

  /** `shouldInvalidate` after the answer: the session can no longer reach three correct. */
  predicate ShouldInvalidate(o: Outcome) {
    o.Accepted? && o.run.currentSession.Some? && DetermineCategoryLockedLoss(o.run.currentSession.value)
  }

  /** Answering keeps a run coherent. */
  lemma {:induction false} HandleAnswerKeepsCoherent(run: Run, choiceIndex: Option<int>, timedOut: bool)
    requires Coherent(run)
    ensures HandleAnswer(run, choiceIndex, timedOut).Accepted? ==> Coherent(HandleAnswer(run, choiceIndex, timedOut).run)
  {
    var o := HandleAnswer(run, choiceIndex, timedOut);
    if o.Accepted? {
      var s := run.currentSession.value;
      var s' := o.run.currentSession.value;
      assert s'.answers[..|s'.answers| - 1] == s.answers;
    }
  }

  /** A correct answer never ends the run: the session was not lost before (the run is
      still going), and a correct answer adds one to the count and takes one question
      from what remains. Only a wrong answer or a timeout can lose a category. */
  lemma CorrectAnswerNeverInvalidates(run: Run, choiceIndex: Option<int>)
    requires run.currentSession.Some? && !DetermineCategoryLockedLoss(run.currentSession.value)
    requires run.currentQuestion.Some? && choiceIndex == Some(run.currentQuestion.value.answerIndex)
    ensures !ShouldInvalidate(HandleAnswer(run, choiceIndex, false))
  {
  }

  // ---------------------------------------------------------------------------
  // proceedAfterAnswer

  /** What `proceedAfterAnswer()` leaves at time `now`. Without a session only the step
      is settled (to the end when the run is finished). After five answers the session
      completes. Otherwise the next question comes up with a new timer and lock; past
      the last question the source reads a property of `undefined` and throws. There is
      no step check: proceeding while a question is open skips it. */
  ghost predicate Proceeded(draw: Draw, run: Run, now: int, o: Outcome) {
    match run.currentSession
    case None =>
      o == Accepted(run.(currentStep := if run.finished then End else run.currentStep), KeepLock)
    case Some(s) =>
      if |s.answers| >= QUESTION_BATCH_SIZE then
        o.Accepted? && Scheduled(draw, Recorded(run, s), o.run, o.lock, now)
      else if 0 <= s.index + 1 < |s.questions| then
        && o.Accepted?
        && o.run == run.(
             currentSession := Some(s.(index := s.index + 1)),
             currentQuestion := Some(s.questions[s.index + 1]),
             questionTimer := Some(QuestionTimer(now)),
             currentStep := QuestionStep)
        && o.lock == SetLock(QuestionLock(o.run, now))
      else
        o == Fatal(UndefinedAccess("id"))
  }

  /** The mutator of `proceedAfterAnswer()` at time `now`. */
  method ProceedAfterAnswer(draw: Draw, run: Run, now: int) returns (o: Outcome)
    ensures Proceeded(draw, run, now, o)
    ensures Coherent(run) && o.Accepted? ==> Coherent(o.run)
  {
    if run.currentSession.None? {
      return Accepted(run.(currentStep := if run.finished then End else run.currentStep), KeepLock);
    }
    var s := run.currentSession.value;
    if |s.answers| >= QUESTION_BATCH_SIZE {
      var r, lock := CompleteSession(draw, run, now);
      return Accepted(r, lock);
    }
    var index := s.index + 1;
    if index < 0 || index >= |s.questions| {
      return Fatal(UndefinedAccess("id"));
    }
    var r := run.(
      currentSession := Some(s.(index := index)),
      currentQuestion := Some(s.questions[index]),
      questionTimer := Some(QuestionTimer(now)),
      currentStep := QuestionStep);
    o := Accepted(r, SetLock(QuestionLock(r, now)));
  }

  // ---------------------------------------------------------------------------
  // confirmWheelReveal / chooseCategory

  /** The pool without `categoryId`, as both handlers filter it before a session. */
  function Withdrawn(run: Run, categoryId: string): Run {
    run.(remainingCategoryIds := Without(run.remainingCategoryIds, categoryId))
  }

  /** Taking a category out of the pool keeps a run coherent. */
  lemma WithdrawnKeepsCoherent(run: Run, categoryId: string)
    requires Coherent(run)
    ensures Coherent(Withdrawn(run, categoryId)) && categoryId !in Withdrawn(run, categoryId).remainingCategoryIds
  {
    var r := Withdrawn(run, categoryId);
    forall x
      ensures multiset(r.remainingCategoryIds)[x] <= 1
    {
      if x == categoryId {
        assert x !in r.remainingCategoryIds;
      }
    }
  }

  /** What `confirmWheelReveal()` leaves at time `now`: nothing without an offer; a
      choice offer moves to the choice step; a forced offer starts a session on its
      only category, taken out of the pool. There is no step check. */
  ghost predicate Revealed(draw: Draw, run: Run, categoryMap: map<string, Category>, now: int, o: Outcome) {
    match run.currentOffer
    case None => o == Declined
    case Some(offer) =>
      if offer.kind == ChoiceOffer then
        o == Accepted(run.(currentStep := RoundChoice), KeepLock)
      else if |offer.options| == 0 then
        o == Fatal(MissingCategory("undefined"))
      else
        SessionBegun(draw, Withdrawn(run, offer.options[0]), categoryMap, offer.options[0], now, o)
  }

  /** The mutator of `confirmWheelReveal()` at time `now`. */
  method ConfirmWheelReveal(draw: Draw, run: Run, categoryMap: map<string, Category>, now: int) returns (o: Outcome)
    ensures Revealed(draw, run, categoryMap, now, o)
    ensures Coherent(run) && o.Accepted? ==> Coherent(o.run)
  {
    if run.currentOffer.None? {
      return Declined;
    }
    var offer := run.currentOffer.value;
    if offer.kind == ChoiceOffer {
      return Accepted(run.(currentStep := RoundChoice), KeepLock);
    }
    if |offer.options| == 0 {
      return Fatal(MissingCategory("undefined"));
    }
    var categoryId := offer.options[0];
    if Coherent(run) {
      WithdrawnKeepsCoherent(run, categoryId);
    }
    o := BeginSession(draw, Withdrawn(run, categoryId), categoryMap, categoryId, now);
  }

  /** What `chooseCategory(categoryId)` leaves at time `now`: only a choice offer that
      lists the category is taken; the category leaves the pool and its session starts.
      There is no step check. */
  ghost predicate Chosen(draw: Draw, run: Run, categoryMap: map<string, Category>, categoryId: string, now: int, o: Outcome) {
    if run.currentOffer.None? || run.currentOffer.value.kind != ChoiceOffer || categoryId !in run.currentOffer.value.options then
      o == Declined
    else
      SessionBegun(draw, Withdrawn(run, categoryId), categoryMap, categoryId, now, o)
  }

  /** The mutator of `chooseCategory(categoryId)` at time `now`. */
  method ChooseCategory(draw: Draw, run: Run, categoryMap: map<string, Category>, categoryId: string, now: int)
    returns (o: Outcome)
    ensures Chosen(draw, run, categoryMap, categoryId, now, o)
    ensures Coherent(run) && o.Accepted? ==> Coherent(o.run)
  {
    if run.currentOffer.None? || run.currentOffer.value.kind != ChoiceOffer || categoryId !in run.currentOffer.value.options {
      return Declined;
    }
    if Coherent(run) {
      WithdrawnKeepsCoherent(run, categoryId);
    }
    o := BeginSession(draw, Withdrawn(run, categoryId), categoryMap, categoryId, now);
  }
}
