/**
 * The engine store of engine.js (`createEngine`): the state the screens read, the
 * `updateRun` protocol that stamps, persists and shows every accepted run change,
 * starting a run behind the daily play gate, invalidating a run, the gift-card
 * purchase and redemption, start-up with its refresh rule, and the catalog load.
 *
 * The clock (`Date.now()`), the entropy sources (`uuid()`, `generateSeed()`,
 * `Math.random()` in `buildClaimCode`, `nowISO()`) and the time formatting of the
 * closed-gate message are parameters of the actions that use them.
 */
module Store {
  import opened Wrappers
  import opened Seqs
  import opened Text
  import opened Json
  import opened Random
  import opened Questions
  import opened RunState
  import opened Persistence
  import opened Rules
  import opened Mutators

  /** `state.screen`: "loading", "home", "error", or the step of the run ("end" once it
      is finished). */
  datatype Screen = LoadingScreen | HomeScreen | ErrorScreen | StepScreen(step: Step)

  /** `state.questionStatus`: "loading", "ready" or "error". */
  datatype QuestionStatus = QuestionsLoading | QuestionsReady | QuestionsFailed

  datatype QuestionError = QuestionError(message: string, details: seq<Problem>)

  /** The one item of the shop. */
  const SHOP_ITEM_ID := "billiards-card"
  const SHOP_ITEM_NAME := "Billiards Night Gift Card"
  const SHOP_ITEM_DESCRIPTION := "Redeem for a free game of billiards for you and a friend."
  const CODE_PREFIX := "CUE"

  /** Categories a run draws from the catalog. */
  const RUN_CATEGORIES := 7

  const LOCKED_LOSS := "Game over. You needed at least 3 correct answers in the category."
  const NAVIGATION_VIOLATION := "Navigation detected during a question. Run invalidated."
  const BACKGROUNDED := "Question interrupted while the tab was hidden. Run invalidated."
  const REFRESHED := "Refresh detected during a question. Run invalidated."
  const PRIZE_LOCKED := "Win 4 categories to unlock the gift card."
  const PRIZE_CLAIMED := "The billiards gift card has already been claimed."
  const PRIZE_GENERATED_BEFORE := "You already generated the gift card."
  const PRIZE_GENERATED := "Gift card generated! Share it to redeem."

  function DailyLimitMessage(reopen: string): string {
    "Daily limit reached. Come back after " + reopen + "."
  }

  // ---------------------------------------------------------------------------
  // The category map and the question lock

  /** The map `loadQuestions` builds with `map[category.id] = category` over the
      categories in order (a later category with the same id replaces an earlier one). */
  function CategoryMap(categories: seq<Category>): (m: map<string, Category>)
    ensures forall id :: id in m <==> exists k :: 0 <= k < |categories| && categories[k].id == id
    ensures forall id :: id in m ==> m[id] in categories && m[id].id == id
  {
    if categories == [] then map[]
    else
      var last := categories[|categories| - 1];
      var m := CategoryMap(categories[..|categories| - 1]);
      forall id | id in m
        ensures exists k :: 0 <= k < |categories| && categories[k].id == id
      {
        var k :| 0 <= k < |categories| - 1 && categories[..|categories| - 1][k].id == id;
        assert categories[k].id == id;
      }
      m[last.id := last]
  }

  /** With distinct ids every category is found under its own id. */
  lemma {:induction false} CategoryMapFindsEach(categories: seq<Category>)
    requires DistinctIds(categories)
    ensures forall k :: 0 <= k < |categories| ==> CategoryMap(categories)[categories[k].id] == categories[k]
  {
    if categories != [] {
      var n := |categories| - 1;
      var init := categories[..n];
      assert DistinctIds(init) by {
        forall i, j | 0 <= i < j < |init| ensures init[i].id != init[j].id {
          assert init[i] == categories[i] && init[j] == categories[j];
        }
      }
      CategoryMapFindsEach(init);
      forall k | 0 <= k < |categories|
        ensures CategoryMap(categories)[categories[k].id] == categories[k]
      {
        if k < n {
          assert init[k] == categories[k];
          assert categories[k].id != categories[n].id;
        }
      }
    }
  }

  /** The session storage items after a mutator's lock effect. */
  function LockApplied(items: map<string, Item<Lock>>, lock: LockAction): map<string, Item<Lock>> {
    match lock
    case KeepLock => items
    case ClearLock => items - {LOCK_KEY}
    case SetLock(l) => items[LOCK_KEY := Parsed(l)]
  }

  /** After the effect the lock that loads is the one set, none after a clear, and the
      old one when the mutator left the lock alone; no other key changes. */
  lemma LockAppliedLoads(items: map<string, Item<Lock>>, lock: LockAction)
    ensures LockFrom(LockApplied(items, lock)) ==
      match lock
      case KeepLock => LockFrom(items)
      case ClearLock => None
      case SetLock(l) => Some(l)
    ensures forall key :: key != LOCK_KEY ==> ItemAt(LockApplied(items, lock), key) == ItemAt(items, key)
  {
  }

  /** The lock calls a mutator makes (`setQuestionLock` or `clearLocks`), by their net effect. */
  method ApplyLock(session: Storage?<Lock>, lock: LockAction)
    modifies session
    ensures session != null ==> session.items == LockApplied(old(session.items), lock)
  {
    match lock
    case KeepLock =>
    case ClearLock => ClearQuestionLock(session);
    case SetLock(l) => StoreQuestionLock(session, Some(l));
  }

  // ---------------------------------------------------------------------------
  // A fresh run

  /** What a run `startRunFromPool` creates satisfies before its first stamp: seven
      distinct catalog categories (fewer only if the catalog has fewer), all of them
      remaining and unplayed, no wins, the first round offering a choice of two of them,
      and everything the mutators keep true. The categories are the ones the stream of
      `seed` picks from cursor 0, and the offer the ones it picks next; the cursor stands
      after both, nothing has been answered or counted yet, and the wheel was revealed at
      `now`. */
  ghost predicate Fresh(draw: Draw, run: Run, runId: string, seed: int, categories: seq<Category>, now: int) {
    && run.runId == runId
    && run.randSeed == seed
    && var (picked, cursor) := TakeFrom(draw, seed, categories, [], RUN_CATEGORIES, 0);
    && run.selectedCategoryIds == Map((c: Category) => c.id, picked)
    && run.currentOffer.Some?
    && (run.currentOffer.value.options, run.randCursor) ==
         TakeFrom(draw, seed, run.selectedCategoryIds, [], Amount(2, |run.selectedCategoryIds|), cursor)
    && cursor == Amount(RUN_CATEGORIES, |categories|)
    && run.randCursor == Amount(RUN_CATEGORIES, |categories|) + |run.currentOffer.value.options|
    && run.actionCounter == 0
    && run.wheelRevealAt == Some(now)
    && run.lastResult.None?
    && run.questionHistory == map[]
    && |run.selectedCategoryIds| == Amount(RUN_CATEGORIES, |categories|)
    && NoRepeats(run.selectedCategoryIds)
    && (forall id :: id in run.selectedCategoryIds ==> exists c :: c in categories && c.id == id)
    && run.remainingCategoryIds == run.selectedCategoryIds
    && run.categoriesPlayed == []
    && run.categoryResults == UnplayedResults(run.selectedCategoryIds)
    && run.winsCount == 0 && run.roundPointer == 0
    && !run.finished && !run.prizeUnlocked
    && run.currentStep == Wheel
    && run.currentOffer.value.kind == ChoiceOffer
    && |run.currentOffer.value.options| == Amount(2, |run.selectedCategoryIds|)
    && NoRepeats(run.currentOffer.value.options)
    && multiset(run.currentOffer.value.options) <= multiset(run.selectedCategoryIds)
    && run.currentSession.None? && run.currentQuestion.None? && run.questionTimer.None?
    && Coherent(run)
  }

  /** The ids of the seven categories (`takeRandomItems(categories, 7, seed, 0)`) a new
      run plays: the catalog categories the stream of `seed` picks from cursor 0, distinct,
      and the cursor after them. */
  method RunCategories(draw: Draw, bank: Bank, seed: int) returns (ids: seq<string>, cursor: int)
    requires WellFormedBank(bank)
    ensures var (picked, after) := TakeFrom(draw, seed, bank.categories, [], RUN_CATEGORIES, 0);
      ids == Map((c: Category) => c.id, picked) && cursor == after
    ensures |ids| == cursor == Amount(RUN_CATEGORIES, |bank.categories|)
    ensures NoRepeats(ids)
    ensures forall id :: id in ids ==> exists c :: c in bank.categories && c.id == id
  {
    var selected;
    ghost var positions, leftover;
    selected, cursor, positions, leftover := TakeRandomItems(draw, bank.categories, RUN_CATEGORIES, seed, 0);
    ids := Map((c: Category) => c.id, selected);
    assert Distinct(ids) by {
      forall i, j | 0 <= i < j < |ids|
        ensures ids[i] != ids[j]
      {
        assert bank.categories[positions[i]].id != bank.categories[positions[j]].id;
      }
    }
    DistinctHasNoRepeats(ids);
    forall id | id in ids
      ensures exists c :: c in bank.categories && c.id == id
    {
      var k :| 0 <= k < |ids| && ids[k] == id;
      assert bank.categories[positions[k]] == selected[k];
    }
  }

  /** The run `startRunFromPool` builds at time `now` from `runId` (`uuid()`) and `seed`
      (`generateSeed()`), before `bumpIntegrity`: seven categories drawn from the catalog
      from cursor 0, the run sanitised, and its first round scheduled. */
  method NewRun(stringify: Stringify, draw: Draw, bank: Bank, runId: string, seed: int, now: int) returns (run: Run)
    requires WellFormedBank(bank)
    ensures Fresh(draw, run, runId, seed, bank.categories, now)
  {
    var ids, cursor := RunCategories(draw, bank, seed);
    var raw := RawRun(
      runId, Some(seed), Some(cursor), Some(ids), Some(ids), Some([]), Some(UnplayedResults(ids)),
      Some(map[]), Some(0), false, false, Some(Wheel), None, Some(0), None, None, None, None,
      None, None, None);
    var sanitized := SanitizeRun(stringify, Some(raw), seed).value;
    var lock;
    run, lock := ScheduleNextRound(draw, sanitized, now);
    ScheduledKeepsCoherent(draw, sanitized, run, lock, now);
  }

  /** A fresh run stamped by `bumpIntegrity`: one action counted, and the cursor after
      the run's categories and the first offer. */
  ghost predicate Stamped(stringify: Stringify, draw: Draw, run: Run, runId: string, seed: int, categories: seq<Category>, now: int) {
    && (exists started :: Fresh(draw, started, runId, seed, categories, now) && run == BumpIntegrity(stringify, started))
    && run.currentStep == Wheel && run.actionCounter == 1
    && var picked := Amount(RUN_CATEGORIES, |categories|);
    && run.randCursor == picked + Amount(2, picked)
  }

  /** `bumpIntegrity` applied to the run `startRunFromPool` builds. */
  method StampedRun(stringify: Stringify, draw: Draw, bank: Bank, runId: string, seed: int, now: int) returns (run: Run)
    requires WellFormedBank(bank)
    ensures Stamped(stringify, draw, run, runId, seed, bank.categories, now)
  {
    var started := NewRun(stringify, draw, bank, runId, seed, now);
    run := BumpIntegrity(stringify, started);
  }

  // ---------------------------------------------------------------------------
  // The gift card

  /** `s.replace(/-/g, '')` */
  function WithoutDashes(s: string): (r: string)
    ensures '-' !in r
    ensures forall c :: c != '-' ==> multiset(r)[c] == multiset(s)[c]
  {
    if s == [] then ""
    else
      assert s == [s[0]] + s[1..];
      (if s[0] == '-' then "" else [s[0]]) + WithoutDashes(s[1..])
  }

  /** `toUpperCase()` on ASCII letters. */
  function AsciiUpper(s: string): (r: string)
    ensures |r| == |s|
  {
    seq(|s|, k requires 0 <= k < |s| => if 'a' <= s[k] <= 'z' then (s[k] as int - 32) as char else s[k])
  }

  /** `buildClaimCode(prefix)` with `chunk` the value of `Math.floor(Math.random() * 999999)`:
      the prefix upper-cased and cut to four characters, a dash, and the chunk padded
      with zeros to six digits. */
  function BuildClaimCode(prefix: string, chunk: nat): string {
    var upper := AsciiUpper(prefix);
    upper[..if |upper| < 4 then |upper| else 4] + "-" + PadStart(Decimal(chunk), 6, '0')
  }

  /** The shop's prefix is already upper case. */
  lemma PrefixIsUpper()
    ensures AsciiUpper(CODE_PREFIX) == CODE_PREFIX
  {
    var upper := AsciiUpper(CODE_PREFIX);
    assert upper[0] == 'C' && upper[1] == 'U' && upper[2] == 'E';
  }

  /** A chunk below 999999 pads to six digits ending in its own. */
  lemma PaddedChunk(chunk: nat)
    requires chunk < 999999
    ensures var padded := PadStart(Decimal(chunk), 6, '0');
      && |padded| == 6
      && (forall k :: 0 <= k < 6 ==> '0' <= padded[k] <= '9')
      && padded[6 - |Decimal(chunk)|..] == Decimal(chunk)
  {
    assert Power10(6) == 1000000 by {
      assert Power10(1) == 10;
      assert Power10(3) == 1000;
    }
    DecimalLength(chunk, 6);
    var digits := Decimal(chunk);
    var padded := PadStart(digits, 6, '0');
    forall k | 0 <= k < 6
      ensures '0' <= padded[k] <= '9'
    {
      if k >= 6 - |digits| {
        assert padded[k] == padded[6 - |digits|..][k - (6 - |digits|)];
      }
    }
  }

  /** With the shop's prefix a claim code is `CUE-` followed by the padded chunk. */
  lemma ClaimCodeIsPrefixed(chunk: nat)
    ensures BuildClaimCode(CODE_PREFIX, chunk) == "CUE-" + PadStart(Decimal(chunk), 6, '0')
  {
    PrefixIsUpper();
  }

  /** The shop's claim codes read `CUE-` and then six digits ending in the chunk. */
  lemma ClaimCodeShape(chunk: nat)
    requires chunk < 999999
    ensures var code := BuildClaimCode(CODE_PREFIX, chunk);
      && |code| == 10
      && code[..4] == "CUE-"
      && (forall k :: 4 <= k < 10 ==> '0' <= code[k] <= '9')
      && code[10 - |Decimal(chunk)|..] == Decimal(chunk)
  {
    PaddedChunk(chunk);
    ClaimCodeIsPrefixed(chunk);
    AppendShape("CUE-", PadStart(Decimal(chunk), 6, '0'), 6 - |Decimal(chunk)|);
  }

  /** `purchases.map(...)` in `redeemPrize(purchaseId)`, at time `at` (`nowISO()`): every
      purchase with that id is marked redeemed at `at`; the others stay as they are. */
  function Redeem(purchases: seq<Purchase>, purchaseId: string, at: string): (r: seq<Purchase>)
    ensures |r| == |purchases|
    ensures forall k :: 0 <= k < |r| ==> r[k].purchaseId == purchases[k].purchaseId
    ensures forall k :: 0 <= k < |r| && purchases[k].purchaseId == purchaseId ==>
      r[k].status == Redeemed && r[k].redeemedAt == Some(at)
    ensures forall k :: 0 <= k < |r| && purchases[k].purchaseId != purchaseId ==> r[k] == purchases[k]
    ensures forall k :: 0 <= k < |r| ==> r[k] == purchases[k].(status := r[k].status, redeemedAt := r[k].redeemedAt)
  {
    seq(|purchases|, k requires 0 <= k < |purchases| =>
      if purchases[k].purchaseId == purchaseId then purchases[k].(status := Redeemed, redeemedAt := Some(at))
      else purchases[k])
  }

  /** Redeeming the same card again at the same time changes nothing. */
  lemma RedeemIdempotent(purchases: seq<Purchase>, purchaseId: string, at: string)
    ensures Redeem(Redeem(purchases, purchaseId, at), purchaseId, at) == Redeem(purchases, purchaseId, at)
  {
  }

  // ---------------------------------------------------------------------------
  // Start-up

  /** Reading back what an accepted action saved, and sanitising it as `initialize`
      does, gives the very run that was saved, not tampered with. */
  lemma ReloadAfterSave(stringify: Stringify, run: Run, purchases: seq<Purchase>, playLog: seq<int>, prizeClaimedAt: Option<int>, freshSeed: int)
    requires run.stateHash == RunHash(stringify, run)
    requires run.randSeed != 0 && run.wheelRevealAt != Some(0)
    ensures var loaded := LoadedFrom(stringify, Some(Parsed(Saved(Some(run), purchases, playLog, prizeClaimedAt))));
      && !loaded.tampered
      && SanitizeRun(stringify, loaded.run, freshSeed) == Some(run)
  {
    SaveLoadRoundTrip(stringify, run, purchases, playLog, prizeClaimedAt);
    StateHashShape(stringify, Some(Stored(run)));
    SanitizeStored(stringify, run, freshSeed);
  }

  // ---------------------------------------------------------------------------
  // The engine

  /** The object the engine store holds (`createInitialState()` and every
      `store.update`): each action replaces it with an updated copy. */
  datatype State = State(
    questionStatus: QuestionStatus,
    questionError: Option<QuestionError>,
    screen: Screen,
    categories: seq<Category>,
    categoryMap: map<string, Category>,
    run: Option<Run>,
    purchases: seq<Purchase>,
    prizeClaimedAt: Option<int>,
    message: string,
    tamperDetected: bool,
    lastInvalidation: Option<string>,
    playLog: seq<int>,
    closedUntil: Option<int>)

  /** `createInitialState()` */
  function InitialState(): (s: State)
    ensures s.run.None? && s.purchases == [] && s.playLog == [] && s.screen == LoadingScreen
  {
    State(QuestionsLoading, None, LoadingScreen, [], map[], None, [], None, "", false, None, [], None)
  }

  /** `screen: run ? run.currentStep : "home"` */
  function ScreenOf(run: Option<Run>): Screen {
    if run.Some? then StepScreen(run.value.currentStep) else HomeScreen
  }

  /** The state `initialize` builds from the saved state `loaded`, its sanitised run and
      the play window `w` of its log, with the catalog load started. */
  function Restored(s: State, loaded: LoadedState, run: Option<Run>, w: PlayWindow): State {
    s.(run := run, purchases := loaded.purchases, prizeClaimedAt := loaded.prizeClaimedAt,
       playLog := w.pruned, closedUntil := w.closedUntil, tamperDetected := loaded.tampered,
       screen := ScreenOf(run), questionStatus := QuestionsLoading, questionError := None)
  }

  /** The run the catalog load keeps: the run in memory sanitised again, and dropped
      exactly when it names a selected or remaining category the catalog does not have.
      A kept run is its sanitised self, which is the run itself when it already has a
      seed, a hash and no zero reveal time. */
  function RecheckedRun(stringify: Stringify, run: Option<Run>, categoryMap: map<string, Category>, freshSeed: int): (r: Option<Run>)
    ensures r.Some? ==> run.Some? && ValidateRun(r, categoryMap)
    ensures r.Some? <==> run.Some? && ValidateRun(run, categoryMap)
    ensures r.Some? ==> r == SanitizeRun(stringify, Some(Stored(run.value)), freshSeed)
  {
    var sanitized := match run case None => None case Some(current) => SanitizeRun(stringify, Some(Stored(current)), freshSeed);
    if ValidateRun(sanitized, categoryMap) then sanitized else None
  }

  /** A run the engine wrote itself (seeded, hashed, no zero reveal time) that names only
      catalog categories survives the catalog load unchanged. */
  lemma RecheckKeepsValidRun(stringify: Stringify, run: Run, categoryMap: map<string, Category>, freshSeed: int)
    requires run.randSeed != 0 && run.stateHash != "" && run.wheelRevealAt != Some(0)
    requires ValidateRun(Some(run), categoryMap)
    ensures RecheckedRun(stringify, Some(run), categoryMap, freshSeed) == Some(run)
  {
    SanitizeStored(stringify, run, freshSeed);
  }

  class Engine {
    /** `JSON.stringify` of the hashed payload, and the `pseudoRandom` oracle. */
    const stringify: Stringify
    const draw: Draw
    /** `localStorage` and `sessionStorage`; null where they are unavailable. */
    const local: Storage?<PersistedData>
    const session: Storage?<Lock>

    /** The store's current value. */
    var state: State
    /** `context.questionBank` and `context.categoryMap`. */
    var questionBank: Option<Bank>
    var categoryMap: map<string, Category>

    /** A loaded catalog is one `fetchQuestionBank` accepted, and the category map is
        built from it. */
    ghost predicate Valid()
      reads this
    {
      questionBank.Some? ==>
        WellFormedBank(questionBank.value) && categoryMap == CategoryMap(questionBank.value.categories)
    }

    /** `createEngine()` up to its call of `initialize()`. */
    constructor (stringify: Stringify, draw: Draw, local: Storage?<PersistedData>, session: Storage?<Lock>)
      ensures Valid()
      ensures this.stringify == stringify && this.draw == draw && this.local == local && this.session == session
      ensures state == InitialState() && questionBank == None && categoryMap == map[]
    {
      this.stringify, this.draw, this.local, this.session := stringify, draw, local, session;
      state, questionBank, categoryMap := InitialState(), None, map[];
    }

    /** The catalog context stays as it was. */
    twostate predicate ContextKept()
      reads this
    {
      questionBank == old(questionBank) && categoryMap == old(categoryMap)
    }

    /** Nothing was written to local storage. */
    twostate predicate Unsaved()
      reads this, local
    {
      local != null ==> local.items == old(local.items)
    }

    /** `persist(...)` of the run, purchases, play log and claim time now in the state. */
    twostate predicate Persisted()
      reads this, local
    {
      local != null ==>
        local.items == old(local.items)[STORAGE_KEY := Parsed(Saved(state.run, state.purchases, state.playLog, state.prizeClaimedAt))]
    }

    /** The question lock was left alone. */
    twostate predicate LockKept()
      reads this, session
    {
      session != null ==> session.items == old(session.items)
    }

    /** The question lock was removed (`clearLocks()`). */
    twostate predicate LockCleared()
      reads this, session
    {
      session != null ==> session.items == old(session.items) - {LOCK_KEY}
    }

    /** Nothing changed, in the store, the context or either storage. */
    twostate predicate Untouched()
      reads this, local, session
    {
      ContextKept() && state == old(state) && Unsaved() && LockKept()
    }

    /** Only the message changed, to `text`. */
    twostate predicate Noticed(text: string)
      reads this, local, session
    {
      ContextKept() && state == old(state).(message := text) && Unsaved() && LockKept()
    }

    /** What `updateRun` makes of a mutator's outcome: an accepted run is stamped by
        `bumpIntegrity`, its lock effect applied, the state persisted with it, and its
        step shown; a declined or throwing mutator leaves everything as it was. */
    twostate predicate Committed(o: Outcome)
      reads this, local, session
    {
      if o.Accepted? then
        && ContextKept()
        && state == old(state).(
             run := Some(BumpIntegrity(stringify, o.run)),
             screen := StepScreen(if o.run.finished then End else o.run.currentStep))
        && Persisted()
        && (session != null ==> session.items == LockApplied(old(session.items), o.lock))
      else
        Untouched()
    }

    /** `invalidateRun(reason)`'s effect: no run, the home screen, the reason shown and
        kept, no run in storage and no question lock. */
    twostate predicate Invalidated(reason: string)
      reads this, local, session
    {
      && ContextKept()
      && state == old(state).(run := None, screen := HomeScreen, lastInvalidation := Some(reason), message := reason)
      && Persisted() && LockCleared()
    }

    /** The tail of `updateRun(mutator)` once the mutator has run on the current run. */
    method Commit(o: Outcome)
      modifies this, local, session
      ensures Committed(o)
    {
      if !o.Accepted? {
        return;
      }
      ApplyLock(session, o.lock);
      var bumped := BumpIntegrity(stringify, o.run);
      SavePersistedState(local, Some(bumped), state.purchases, state.playLog, state.prizeClaimedAt);
      state := state.(run := Some(bumped), screen := StepScreen(if bumped.finished then End else bumped.currentStep));
    }

    /** After an accepted action the saved state loads back as the run in memory, not
        tampered with; the question lock loads as the action left it. */
    lemma CommittedLoadsBack(o: Outcome, lockBefore: map<string, Item<Lock>>)
      requires o.Accepted? && state.run == Some(BumpIntegrity(stringify, o.run))
      requires local != null ==>
        STORAGE_KEY in local.items && local.items[STORAGE_KEY] == Parsed(Saved(state.run, state.purchases, state.playLog, state.prizeClaimedAt))
      requires session != null ==> session.items == LockApplied(lockBefore, o.lock)
      ensures local != null ==>
        LoadPersistedState(stringify, local) ==
          LoadedState(Some(Stored(state.run.value)), state.purchases, false, state.playLog, NonZero(state.prizeClaimedAt))
      ensures session != null ==>
        LoadQuestionLock(session) == match o.lock
          case KeepLock => LockFrom(lockBefore)
          case ClearLock => None
          case SetLock(l) => Some(l)
    {
      if local != null {
        SaveLoadRoundTrip(stringify, state.run.value, state.purchases, state.playLog, state.prizeClaimedAt);
      }
      LockAppliedLoads(lockBefore, o.lock);
    }

    /** `invalidateRun(reason)` */
    method InvalidateRun(reason: string)
      modifies this, local, session
      ensures Invalidated(reason)
    {
      ClearQuestionLock(session);
      SavePersistedState(local, None, state.purchases, state.playLog, state.prizeClaimedAt);
      state := state.(run := None, screen := HomeScreen, lastInvalidation := Some(reason), message := reason);
    }

    /** `restartRun()`: no run, the home screen, no run in storage and no question lock;
        the message and the last invalidation stay. */
    method RestartRun()
      modifies this, local, session
      ensures ContextKept() && state == old(state).(run := None, screen := HomeScreen)
      ensures Persisted() && LockCleared()
    {
      ClearQuestionLock(session);
      SavePersistedState(local, None, state.purchases, state.playLog, state.prizeClaimedAt);
      state := state.(run := None, screen := HomeScreen);
    }

    /** `handleNavigationViolation()`: leaving a question invalidates the run. */
    method HandleNavigationViolation()
      modifies this, local, session
      ensures old(state.run).Some? && old(state.run).value.currentStep == QuestionStep ==> Invalidated(NAVIGATION_VIOLATION)
      ensures !(old(state.run).Some? && old(state.run).value.currentStep == QuestionStep) ==> Untouched()
    {
      if state.run.Some? && state.run.value.currentStep == QuestionStep {
        InvalidateRun(NAVIGATION_VIOLATION);
      }
    }

    /** `handleBackgrounding()`: hiding the tab during a question invalidates the run. */
    method HandleBackgrounding()
      modifies this, local, session
      ensures old(state.run).Some? && old(state.run).value.currentStep == QuestionStep ==> Invalidated(BACKGROUNDED)
      ensures !(old(state.run).Some? && old(state.run).value.currentStep == QuestionStep) ==> Untouched()
    {
      if state.run.Some? && state.run.value.currentStep == QuestionStep {
        InvalidateRun(BACKGROUNDED);
      }
    }

    /** `confirmWheelReveal()` at time `now`; a throw is returned as `Fatal`. */
    method ConfirmWheelReveal(now: int) returns (o: Outcome)
      modifies this, local, session
      ensures Committed(o)
      ensures old(state.run).None? ==> o == Declined
      ensures old(state.run).Some? ==> Revealed(draw, old(state.run).value, categoryMap, now, o)
    {
      if state.run.None? {
        return Declined;
      }
      o := Mutators.ConfirmWheelReveal(draw, state.run.value, categoryMap, now);
      Commit(o);
    }

    /** `chooseCategory(categoryId)` at time `now`. */
    method ChooseCategory(categoryId: string, now: int) returns (o: Outcome)
      modifies this, local, session
      ensures Committed(o)
      ensures old(state.run).None? ==> o == Declined
      ensures old(state.run).Some? ==> Chosen(draw, old(state.run).value, categoryMap, categoryId, now, o)
    {
      if state.run.None? {
        return Declined;
      }
      o := Mutators.ChooseCategory(draw, state.run.value, categoryMap, categoryId, now);
      Commit(o);
    }

    /** `continueAfterAnswer()` (`proceedAfterAnswer`) at time `now`. */
    method ProceedAfterAnswer(now: int) returns (o: Outcome)
      modifies this, local, session
      ensures Committed(o)
      ensures old(state.run).None? ==> o == Declined
      ensures old(state.run).Some? ==> Proceeded(draw, old(state.run).value, now, o)
    {
      if state.run.None? {
        return Declined;
      }
      o := Mutators.ProceedAfterAnswer(draw, state.run.value, now);
      Commit(o);
    }

    /** `handleAnswer(choiceIndex, timedOut)` (`submitAnswer(index)` with `timedOut`
        false): the answer committed, and the run invalidated when the category can no
        longer be won. */
    method HandleAnswer(choiceIndex: Option<int>, timedOut: bool) returns (o: Outcome)
      modifies this, local, session
      ensures o == if old(state.run).None? then Declined else Mutators.HandleAnswer(old(state.run).value, choiceIndex, timedOut)
      ensures !ShouldInvalidate(o) ==> Committed(o)
      ensures ShouldInvalidate(o) ==> Invalidated(LOCKED_LOSS)
    {
      if state.run.None? {
        return Declined;
      }
      o := Mutators.HandleAnswer(state.run.value, choiceIndex, timedOut);
      CommitAnswer(o);
    }

    /** The tail of `handleAnswer`: the outcome committed, then the run invalidated when
        the category can no longer be won. */
    method CommitAnswer(o: Outcome)
      modifies this, local, session
      ensures !ShouldInvalidate(o) ==> Committed(o)
      ensures ShouldInvalidate(o) ==> Invalidated(LOCKED_LOSS)
    {
      Commit(o);
      if ShouldInvalidate(o) {
        InvalidateRun(LOCKED_LOSS);
      }
    }

    /** `timeoutQuestion()`: a timed-out answer, only while a question is open. */
    method TimeoutQuestion() returns (o: Outcome)
      modifies this, local, session
      ensures !(old(state.run).Some? && old(state.run).value.currentStep == QuestionStep) ==> o == Declined && Untouched()
      ensures old(state.run).Some? && old(state.run).value.currentStep == QuestionStep ==>
        && o == Mutators.HandleAnswer(old(state.run).value, None, true)
        && (!ShouldInvalidate(o) ==> Committed(o))
        && (ShouldInvalidate(o) ==> Invalidated(LOCKED_LOSS))
    {
      if state.run.None? || state.run.value.currentStep != QuestionStep {
        return Declined;
      }
      o := HandleAnswer(None, true);
    }

    /** The closed-gate branch of `startRunFromPool`: the pruned log saved with the run as
        it was, and the message saying when the gate reopens. */
    twostate predicate GateClosed(w: PlayWindow, reopen: int -> string)
      reads this, local, session
    {
      && w.closedUntil.Some? && ContextKept()
      && state == old(state).(playLog := w.pruned, closedUntil := w.closedUntil, message := DailyLimitMessage(reopen(w.closedUntil.value)))
      && Persisted() && LockKept()
    }

    /** The open-gate branch of `startRunFromPool`: a fresh run from the catalog, stamped,
        shown and saved, with the play logged. */
    twostate predicate RunStarted(runId: string, seed: int, now: int, w: PlayWindow)
      reads this, local, session
    {
      && ContextKept() && questionBank.Some? && state.run.Some?
      && Stamped(stringify, draw, state.run.value, runId, seed, questionBank.value.categories, now)
      && state == old(state).(run := state.run, screen := StepScreen(Wheel), playLog := w.pruned + [now], closedUntil := None, message := "")
      && Persisted() && LockKept()
    }

    /** `startRunFromPool()` (`startNewRun`) at time `now`, with `runId` from `uuid()`,
        `seed` from `generateSeed()` and `reopen` formatting the reopening time for the
        message. Without a catalog nothing happens. With `DAILY_PLAY_LIMIT` plays in the
        last day the gate is closed. Otherwise a fresh run starts, and the log then holds
        at most `DAILY_PLAY_LIMIT` plays. */
    method StartRunFromPool(runId: string, seed: int, now: int, reopen: int -> string)
      requires Valid()
      modifies this, local, session
      ensures old(questionBank).None? ==> Untouched()
      ensures old(questionBank).Some? ==>
        var w := EvaluatePlayWindow(old(state.playLog), now, DEFAULT_DAILY_PLAY_LIMIT);
        && (IsClosed(w.closedUntil, now) ==> GateClosed(w, reopen))
        && (!IsClosed(w.closedUntil, now) ==> RunStarted(runId, seed, now, w))
        && (!IsClosed(w.closedUntil, now) && now >= 0 ==> |state.playLog| <= DEFAULT_DAILY_PLAY_LIMIT)
    {
      if questionBank.None? {
        return;
      }
      var w := EvaluatePlayWindow(state.playLog, now, DEFAULT_DAILY_PLAY_LIMIT);
      if IsClosed(w.closedUntil, now) {
        CloseGate(w, reopen);
      } else {
        if now >= 0 {
          ClosedIffAtLimit(state.playLog, now, DEFAULT_DAILY_PLAY_LIMIT);
          assert |w.pruned| == |multiset(w.pruned)| == |Recent(state.playLog, now)|;
        }
        LaunchRun(runId, seed, now, w);
      }
    }

    /** The closed-gate branch of `startRunFromPool`. */
    method CloseGate(w: PlayWindow, reopen: int -> string)
      requires w.closedUntil.Some?
      modifies this, local
      ensures GateClosed(w, reopen)
    {
      SavePersistedState(local, state.run, state.purchases, w.pruned, state.prizeClaimedAt);
      state := state.(playLog := w.pruned, closedUntil := w.closedUntil, message := DailyLimitMessage(reopen(w.closedUntil.value)));
    }

    /** The open-gate branch of `startRunFromPool`. */
    method LaunchRun(runId: string, seed: int, now: int, w: PlayWindow)
      requires Valid() && questionBank.Some?
      modifies this, local
      ensures RunStarted(runId, seed, now, w)
    {
      var bumped := StampedRun(stringify, draw, questionBank.value, runId, seed, now);
      InstallRun(bumped, w, now);
    }

    /** Shows the stamped run and saves it with the play logged. */
    method InstallRun(bumped: Run, w: PlayWindow, now: int)
      requires bumped.currentStep == Wheel
      modifies this, local
      ensures ContextKept() && state.run == Some(bumped)
      ensures state == old(state).(run := state.run, screen := StepScreen(Wheel), playLog := w.pruned + [now], closedUntil := None, message := "")
      ensures Persisted() && LockKept()
    {
      SavePersistedState(local, Some(bumped), state.purchases, w.pruned + [now], state.prizeClaimedAt);
      state := state.(run := Some(bumped), screen := StepScreen(bumped.currentStep), playLog := w.pruned + [now], closedUntil := None, message := "");
    }

    /** `purchasePrize(prizeId)` at time `now`, with `purchaseId` and `claimId` from
        `uuid()`, `createdAt` from `nowISO()` and `chunk` the claim-code draw. Only the
        shop's item can be bought, only with the prize unlocked, only while no prize
        was claimed and no card generated; then exactly one card is generated, the claim
        time recorded and everything saved. */
    method PurchasePrize(prizeId: string, purchaseId: string, claimId: string, createdAt: string, chunk: nat, now: int)
      modifies this, local, session
      ensures prizeId != SHOP_ITEM_ID ==> Untouched()
      ensures prizeId == SHOP_ITEM_ID && (old(state.run).None? || !old(state.run).value.prizeUnlocked) ==> Noticed(PRIZE_LOCKED)
      ensures prizeId == SHOP_ITEM_ID && old(state.run).Some? && old(state.run).value.prizeUnlocked ==>
        if old(state.prizeClaimedAt).Some? && old(state.prizeClaimedAt).value != 0 then Noticed(PRIZE_CLAIMED)
        else if |old(state.purchases)| > 0 then Noticed(PRIZE_GENERATED_BEFORE)
        else
          && ContextKept()
          && state == old(state).(
               purchases := [Purchase(
                 purchaseId, SHOP_ITEM_ID, SHOP_ITEM_NAME, SHOP_ITEM_DESCRIPTION, Unredeemed, createdAt,
                 WithoutDashes(claimId), BuildClaimCode(CODE_PREFIX, chunk), None)],
               prizeClaimedAt := Some(now),
               message := PRIZE_GENERATED)
          && Persisted() && LockKept()
    {
      if prizeId != SHOP_ITEM_ID {
        return;
      }
      if state.run.None? || !state.run.value.prizeUnlocked {
        state := state.(message := PRIZE_LOCKED);
      } else if state.prizeClaimedAt.Some? && state.prizeClaimedAt.value != 0 {
        state := state.(message := PRIZE_CLAIMED);
      } else if |state.purchases| > 0 {
        state := state.(message := PRIZE_GENERATED_BEFORE);
      } else {
        var purchase := Purchase(
          purchaseId, SHOP_ITEM_ID, SHOP_ITEM_NAME, SHOP_ITEM_DESCRIPTION, Unredeemed, createdAt,
          WithoutDashes(claimId), BuildClaimCode(CODE_PREFIX, chunk), None);
        SavePersistedState(local, state.run, [purchase], state.playLog, Some(now));
        state := state.(purchases := [purchase], prizeClaimedAt := Some(now), message := PRIZE_GENERATED);
      }
    }

    /** `redeemPrize(purchaseId)` at time `at` (`nowISO()`): the card with that id is
        marked redeemed and the purchases saved. */
    method RedeemPrize(purchaseId: string, at: string)
      modifies this, local, session
      ensures ContextKept() && state == old(state).(purchases := Redeem(old(state.purchases), purchaseId, at))
      ensures Persisted() && LockKept()
    {
      var redeemed := Redeem(state.purchases, purchaseId, at);
      SavePersistedState(local, state.run, redeemed, state.playLog, state.prizeClaimedAt);
      state := state.(purchases := redeemed);
    }

    /** `acknowledgeMessage()` */
    method AcknowledgeMessage()
      modifies this
      ensures ContextKept() && state == old(state).(message := "")
    {
      state := state.(message := "");
    }

    /** What `initialize` leaves, given the saved state `loaded` and the question lock
        `lock` found at start-up: the records restored, the run sanitised, the play log
        pruned, and, when a lock survives from an unfinished run, that run invalidated as
        a refresh during a question. */
    twostate predicate StartedUp(loaded: LoadedState, lock: Option<Lock>, freshSeed: int, now: int)
      reads this, local, session
    {
      var sanitized := SanitizeRun(stringify, loaded.run, freshSeed);
      var restored := Restored(old(state), loaded, sanitized, EvaluatePlayWindow(loaded.playLog, now, DEFAULT_DAILY_PLAY_LIMIT));
      && ContextKept()
      && if lock.Some? && sanitized.Some? && !sanitized.value.finished then
           && state == restored.(run := None, screen := HomeScreen, lastInvalidation := Some(REFRESHED), message := REFRESHED)
           && Persisted() && LockCleared()
         else
           state == restored && Unsaved() && LockKept()
    }

    /** `initialize()` at time `now`, with `freshSeed` the seed `sanitizeRun` would draw;
        the catalog load then starts. */
    method Initialize(freshSeed: int, now: int)
      modifies this, local, session
      ensures StartedUp(old(LoadPersistedState(stringify, local)), old(LoadQuestionLock(session)), freshSeed, now)
    {
      var loaded := LoadPersistedState(stringify, local);
      var lock := LoadQuestionLock(session);
      StartUp(loaded, lock, freshSeed, now);
    }

    method StartUp(loaded: LoadedState, lock: Option<Lock>, freshSeed: int, now: int)
      modifies this, local, session
      ensures StartedUp(loaded, lock, freshSeed, now)
    {
      var sanitized := SanitizeRun(stringify, loaded.run, freshSeed);
      var w := EvaluatePlayWindow(loaded.playLog, now, DEFAULT_DAILY_PLAY_LIMIT);
      state := Restored(state, loaded, sanitized, w);
      if lock.Some? && sanitized.Some? && !sanitized.value.finished {
        InvalidateRun(REFRESHED);
        ClearQuestionLock(session);
      }
    }

    /** `loadQuestions()` (`retryLoad`) up to the fetch: the catalog is loading again. */
    method LoadQuestions()
      modifies this
      ensures ContextKept() && state == old(state).(questionStatus := QuestionsLoading, questionError := None)
    {
      state := state.(questionStatus := QuestionsLoading, questionError := None);
    }

    /** The `.then` of `loadQuestions()` on the accepted catalog `bank`, with `freshSeed`
        the seed `sanitizeRun` would draw: the catalog and its category map installed,
        every category found under its id, and the run rechecked against it, a dropped
        run also dropped from storage. */
    method OnCatalogLoaded(bank: Bank, freshSeed: int)
      requires WellFormedBank(bank)
      modifies this, local, session
      ensures Valid()
      ensures questionBank == Some(bank) && categoryMap == CategoryMap(bank.categories)
      ensures forall k :: 0 <= k < |bank.categories| ==> categoryMap[bank.categories[k].id] == bank.categories[k]
      ensures
        var r := RecheckedRun(stringify, old(state.run), categoryMap, freshSeed);
        && state == old(state).(
             questionStatus := QuestionsReady, questionError := None, categories := bank.categories,
             categoryMap := categoryMap, run := r, screen := ScreenOf(r))
        && (old(state.run).Some? && r.None? ==> Persisted())
        && (!(old(state.run).Some? && r.None?) ==> Unsaved())
        && LockKept()
    {
      var m := CategoryMap(bank.categories);
      CategoryMapFindsEach(bank.categories);
      var r := RecheckedRun(stringify, state.run, m, freshSeed);
      InstallCatalog(bank, m, r);
    }

    /** Installs the catalog `bank`, its category map `m` and the rechecked run `r`,
        removing a run that was dropped from storage. */
    method InstallCatalog(bank: Bank, m: map<string, Category>, r: Option<Run>)
      modifies this, local, session
      ensures questionBank == Some(bank) && categoryMap == m
      ensures state == old(state).(
        questionStatus := QuestionsReady, questionError := None, categories := bank.categories,
        categoryMap := m, run := r, screen := ScreenOf(r))
      ensures old(state.run).Some? && r.None? ==> Persisted()
      ensures !(old(state.run).Some? && r.None?) ==> Unsaved()
      ensures LockKept()
    {
      questionBank, categoryMap := Some(bank), m;
      if state.run.Some? && r.None? {
        SavePersistedState(local, None, state.purchases, state.playLog, state.prizeClaimedAt);
      }
      state := state.(
        questionStatus := QuestionsReady, questionError := None, categories := bank.categories,
        categoryMap := m, run := r, screen := ScreenOf(r));
    }

    /** The `.catch` of `loadQuestions()`: the error shown on the error screen. */
    method OnCatalogFailed(errorMessage: string, details: seq<Problem>)
      modifies this
      ensures ContextKept()
      ensures state == old(state).(
        questionStatus := QuestionsFailed, questionError := Some(QuestionError(errorMessage, details)), screen := ErrorScreen)
    {
      state := state.(questionStatus := QuestionsFailed, questionError := Some(QuestionError(errorMessage, details)), screen := ErrorScreen);
    }
  }
}
