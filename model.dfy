/**
 * The records engine.js keeps in its store: the run of seven categories with its
 * offer, session, question, timer and last result; the question lock kept while a
 * question is on screen; and the gift-card purchase. A run in memory has every field
 * filled in; a run read back from storage (`RawRun`) may lack the fields that
 * `sanitizeRun` fills in with defaults.
 */
module RunState {
  import opened Wrappers
  import opened Json
  import opened Questions

  /** `run.currentStep`: "wheel", "roundChoice", "question", "answer" or "end". */
  datatype Step = Wheel | RoundChoice | QuestionStep | AnswerStep | End

  /** The offer type: "choice" (pick one of two categories) or "forced" (one category). */
  datatype OfferKind = ChoiceOffer | ForcedOffer

  datatype Offer = Offer(kind: OfferKind, options: seq<string>)

  /** One entry of `session.answers`; `selectedIndex` is null (None) for a timeout. */
  datatype Answer = Answer(
    questionId: Json,
    selectedIndex: Option<int>,
    correct: bool,
    prompt: string,
    explanation: Json)

  /** The five questions of one category being played. */
  datatype Session = Session(
    categoryId: string,
    questions: seq<Question>,
    index: int,
    answers: seq<Answer>,
    correctCount: int)

  datatype Timer = Timer(deadline: int, duration: int)

  /** `run.lastResult`: the summary of a finished category, or of the last answer. */
  datatype LastResult =
    | CategoryOutcome(categoryId: string, correctCount: int, total: int, won: bool)
    | AnswerOutcome(correct: bool, prompt: string, explanation: Json, questionNumber: int, totalInCategory: int, timedOut: bool)

  /** A value of `run.categoryResults`: "unplayed", "won" or "lost". */
  datatype CategoryResult = Unplayed | Won | Lost

  datatype Run = Run(
    runId: string,
    randSeed: int,
    randCursor: int,
    selectedCategoryIds: seq<string>,
    remainingCategoryIds: seq<string>,
    categoriesPlayed: seq<string>,
    categoryResults: map<string, CategoryResult>,
    questionHistory: map<string, seq<Json>>,
    winsCount: int,
    finished: bool,
    prizeUnlocked: bool,
    currentStep: Step,
    currentOffer: Option<Offer>,
    roundPointer: int,
    lastResult: Option<LastResult>,
    currentSession: Option<Session>,
    currentQuestion: Option<Question>,
    questionTimer: Option<Timer>,
    actionCounter: int,
    wheelRevealAt: Option<int>,
    stateHash: string)

  /** A run as stored, holding each field's JSON value as written; None stands for a
      field that is missing. The hash reads these values as they are, and only
      `sanitizeRun` applies its `||` defaults to them, so a stored `winsCount` of 0 is
      Some(0) here and hashes as a present 0. */
  datatype RawRun = RawRun(
    runId: string,
    randSeed: Option<int>,
    randCursor: Option<int>,
    selectedCategoryIds: Option<seq<string>>,
    remainingCategoryIds: Option<seq<string>>,
    categoriesPlayed: Option<seq<string>>,
    categoryResults: Option<map<string, CategoryResult>>,
    questionHistory: Option<map<string, seq<Json>>>,
    winsCount: Option<int>,
    finished: bool,
    prizeUnlocked: bool,
    currentStep: Option<Step>,
    currentOffer: Option<Offer>,
    roundPointer: Option<int>,
    lastResult: Option<LastResult>,
    currentSession: Option<Session>,
    currentQuestion: Option<Question>,
    questionTimer: Option<Timer>,
    actionCounter: Option<int>,
    wheelRevealAt: Option<int>,
    stateHash: Option<string>)

  /** The run as `JSON.stringify` writes it and `JSON.parse` reads it back: every field present. */
  function Stored(run: Run): RawRun {
    RawRun(
      run.runId, Some(run.randSeed), Some(run.randCursor),
      Some(run.selectedCategoryIds), Some(run.remainingCategoryIds), Some(run.categoriesPlayed),
      Some(run.categoryResults), Some(run.questionHistory), Some(run.winsCount),
      run.finished, run.prizeUnlocked, Some(run.currentStep), run.currentOffer,
      Some(run.roundPointer), run.lastResult, run.currentSession, run.currentQuestion,
      run.questionTimer, Some(run.actionCounter), run.wheelRevealAt, Some(run.stateHash))
  }

  /** The question lock kept in session storage while a question is on screen. */
  datatype Lock = Lock(
    runId: string,
    categoryId: Option<string>,
    questionId: Option<Json>,
    presentedAt: int,
    deadline: Option<int>)

  datatype PurchaseStatus = Unredeemed | Redeemed

  /** A generated gift card. */
  datatype Purchase = Purchase(
    purchaseId: string,
    prizeId: string,
    prizeName: string,
    description: string,
    status: PurchaseStatus,
    createdAt: string,
    claimToken: string,
    claimCode: string,
    redeemedAt: Option<string>)
}
