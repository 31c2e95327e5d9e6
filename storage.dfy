/**
 * storage.js: the integrity hash of a run, the persisted state in local storage with
 * its tamper decision, and the question lock in session storage. The two storages are
 * key/value maps; a storage the platform does not provide is `null`. What a key holds
 * is the value `JSON.stringify` wrote, read back as `JSON.parse` gives it (`Parsed`),
 * or text that is empty (`Blank`) or does not parse (`Unparseable`). `JSON.stringify`
 * of the hashed fields is a parameter.
 */
module Persistence {
  import opened Wrappers
  import opened Text
  import opened RunState

  const STORAGE_KEY := "triviaGame.state.v2"
  const LOCK_KEY := "triviaGame.lock.v1"

  /** The modulus of the state hash, 2^31 - 1. */
  const HASH_MODULUS := 2147483647

  // ---------------------------------------------------------------------------
  // computeStateHash

  /** The payload `computeStateHash` serialises; None is a field that is absent, which
      `JSON.stringify` leaves out. `actionCounter` is defaulted to 0 when absent. */
  datatype HashedFields = HashedFields(
    runId: string,
    selectedCategoryIds: Option<seq<string>>,
    categoriesPlayed: Option<seq<string>>,
    winsCount: Option<int>,
    categoryResults: Option<map<string, CategoryResult>>,
    actionCounter: int)

  /** `JSON.stringify` of the payload. */
  type Stringify = HashedFields -> string

  /** The payload of a stored run. */
  function RawFields(run: RawRun): HashedFields {
    HashedFields(
      run.runId, run.selectedCategoryIds, run.categoriesPlayed, run.winsCount,
      run.categoryResults, run.actionCounter.GetOr(0))
  }

  /** The weighted sum of the code units, each multiplied by its 1-based position, taken
      modulo 2^31 - 1 after every step. */
  function WeightedHash(units: seq<int>): (h: nat)
    ensures h < HASH_MODULUS
  {
    if units == [] then 0
    else (WeightedHash(units[..|units| - 1]) + units[|units| - 1] * |units|) % HASH_MODULUS
  }

  /** `computeStateHash(run)`: '' for no run, otherwise the hash in lower-case hexadecimal. */
  function StateHash(stringify: Stringify, run: Option<RawRun>): string {
    match run
    case None => ""
    case Some(r) => Hex(WeightedHash(CodeUnits(stringify(RawFields(r)))))
  }

  /** The hash of a run in memory, as `bumpIntegrity` stamps it. */
  function RunHash(stringify: Stringify, run: Run): string {
    StateHash(stringify, Some(Stored(run)))
  }

  /** A run's hash is a non-empty string of hexadecimal digits that reads back as a number
      below 2^31 - 1; no run hashes to ''. */
  lemma StateHashShape(stringify: Stringify, run: Option<RawRun>)
    ensures StateHash(stringify, run) == "" <==> run.None?
    ensures run.Some? ==>
      var h := StateHash(stringify, run);
      && (forall k :: 0 <= k < |h| ==> IsHexDigit(h[k]))
      && ParseHex(h) == WeightedHash(CodeUnits(stringify(RawFields(run.value))))
      && ParseHex(h) < HASH_MODULUS
  {
    if run.Some? {
      ParseHexOfHex(WeightedHash(CodeUnits(stringify(RawFields(run.value)))));
    }
  }

  /** Only `runId`, `selectedCategoryIds`, `categoriesPlayed`, `winsCount`,
      `categoryResults` and `actionCounter` enter the hash: a run that differs in
      its step, pointer, cursor, offer, session or any other field hashes the same. */
  lemma HashOnlyReadsHashedFields(stringify: Stringify, a: Run, b: Run)
    requires a.runId == b.runId && a.selectedCategoryIds == b.selectedCategoryIds
    requires a.categoriesPlayed == b.categoriesPlayed && a.winsCount == b.winsCount
    requires a.categoryResults == b.categoryResults && a.actionCounter == b.actionCounter
    ensures RunHash(stringify, a) == RunHash(stringify, b)
  {
    assert RawFields(Stored(a)) == RawFields(Stored(b));
  }

  /** `computeStateHash`: the loop over the code units of the serialised payload keeps
      the running hash in [0, 2^31 - 1) and ends with the hash `StateHash` is made of. */
  method ComputeStateHash(stringify: Stringify, run: Option<RawRun>) returns (hash: string)
    ensures hash == StateHash(stringify, run)
  {
    if run.None? {
      return "";
    }
    var json := CodeUnits(stringify(RawFields(run.value)));
    var h := 0;
    for i := 0 to |json|
      invariant h == WeightedHash(json[..i])
    {
      WeightedHashStep(json, i);
      h := (h + json[i] * (i + 1)) % HASH_MODULUS;
    }
    assert json[..|json|] == json;
    hash := Hex(h);
  }

  /** One more code unit adds its value times its position to the running hash. */
  lemma WeightedHashStep(units: seq<int>, i: nat)
    requires i < |units|
    ensures WeightedHash(units[..i + 1]) == (WeightedHash(units[..i]) + units[i] * (i + 1)) % HASH_MODULUS
  {
    assert units[..i + 1][..i] == units[..i];
  }

  // ---------------------------------------------------------------------------
  // The two storages

  /** What one key of a storage holds. */
  datatype Item<T> = Blank | Parsed(value: T) | Unparseable

  /** `localStorage` or `sessionStorage`. */
  class Storage<T> {
    var items: map<string, Item<T>>

    constructor (items: map<string, Item<T>>)
      ensures this.items == items
    {
      this.items := items;
    }

    /** `setItem(key, JSON.stringify(value))` */
    method SetItem(key: string, value: T)
      modifies this
      ensures items == old(items)[key := Parsed(value)]
    {
      items := items[key := Parsed(value)];
    }

    /** `removeItem(key)` */
    method RemoveItem(key: string)
      modifies this
      ensures items == old(items) - {key}
    {
      items := items - {key};
    }
  }

  // ---------------------------------------------------------------------------
  // loadPersistedState / savePersistedState

  /** The object `savePersistedState` stores, as read back: None is a field that is
      missing, or for `playLog` not an array, or for `run` and `prizeClaimedAt` falsy. */
  datatype PersistedData = PersistedData(
    run: Option<RawRun>,
    purchases: Option<seq<Purchase>>,
    playLog: Option<seq<int>>,
    prizeClaimedAt: Option<int>)

  /** What `loadPersistedState` returns. */
  datatype LoadedState = LoadedState(
    run: Option<RawRun>,
    purchases: seq<Purchase>,
    tampered: bool,
    playLog: seq<int>,
    prizeClaimedAt: Option<int>)

  function EmptyState(tampered: bool): LoadedState {
    LoadedState(None, [], tampered, [], None)
  }

  /** `x || null` for a timestamp: 0 is falsy. */
  function NonZero(x: Option<int>): Option<int> {
    if x == Some(0) then None else x
  }

  /** The tamper decision: a run is present and its stored `stateHash` is not the hash
      recomputed from its fields (a missing `stateHash` never matches). */
  predicate Tampered(stringify: Stringify, run: Option<RawRun>) {
    run.Some? && Some(StateHash(stringify, run)) != run.value.stateHash
  }

  /** The `try` block of `loadPersistedState` on the item found under the state key. */
  function LoadedFrom(stringify: Stringify, item: Option<Item<PersistedData>>): LoadedState {
    match item
    case None => EmptyState(false)
    case Some(Blank) => EmptyState(false)
    case Some(Unparseable) => EmptyState(true)
    case Some(Parsed(data)) =>
      var tampered := Tampered(stringify, data.run);
      LoadedState(
        if tampered then None else data.run,
        data.purchases.GetOr([]),
        tampered,
        data.playLog.GetOr([]),
        NonZero(data.prizeClaimedAt))
  }

  function ItemAt<T>(items: map<string, Item<T>>, key: string): Option<Item<T>> {
    if key in items then Some(items[key]) else None
  }

  /** `loadPersistedState()` */
  function LoadPersistedState(stringify: Stringify, storage: Storage?<PersistedData>): LoadedState
    reads storage
  {
    if storage == null then EmptyState(false) else LoadedFrom(stringify, ItemAt(storage.items, STORAGE_KEY))
  }

  /** Without a storage or without a saved state there is nothing to load and nothing was
      tampered with; a saved state that does not parse counts as tampered. Either way the
      result is the empty state. */
  lemma LoadDefaults(stringify: Stringify, items: map<string, Item<PersistedData>>)
    ensures STORAGE_KEY !in items ==> LoadedFrom(stringify, ItemAt(items, STORAGE_KEY)) == EmptyState(false)
    ensures ItemAt(items, STORAGE_KEY) == Some(Unparseable) ==>
      LoadedFrom(stringify, ItemAt(items, STORAGE_KEY)) == EmptyState(true)
  {
  }

  /** A run whose stored hash does not match is dropped and reported as tampered, while
      the purchases, the play log (an array, or else empty) and the claim time still load;
      a run whose hash matches loads unchanged. */
  lemma TamperDecision(stringify: Stringify, data: PersistedData)
    ensures var s := LoadedFrom(stringify, Some(Parsed(data)));
      && (s.tampered <==> data.run.Some? && data.run.value.stateHash != Some(StateHash(stringify, data.run)))
      && (s.tampered ==> s.run.None?)
      && (!s.tampered ==> s.run == data.run)
      && s.purchases == data.purchases.GetOr([])
      && s.playLog == (if data.playLog.Some? then data.playLog.value else [])
      && s.prizeClaimedAt == NonZero(data.prizeClaimedAt)
  {
  }

  /** The object `savePersistedState` writes. */
  function Saved(run: Option<Run>, purchases: seq<Purchase>, playLog: seq<int>, prizeClaimedAt: Option<int>): PersistedData {
    PersistedData(
      match run case None => None case Some(r) => Some(Stored(r)),
      Some(purchases), Some(playLog), prizeClaimedAt)
  }

  /** Saving a run stamped with its own hash and loading it back gives the same run,
      not tampered, with the same purchases, play log and claim time. */
  lemma SaveLoadRoundTrip(stringify: Stringify, run: Run, purchases: seq<Purchase>, playLog: seq<int>, prizeClaimedAt: Option<int>)
    requires run.stateHash == RunHash(stringify, run)
    ensures LoadedFrom(stringify, Some(Parsed(Saved(Some(run), purchases, playLog, prizeClaimedAt))))
         == LoadedState(Some(Stored(run)), purchases, false, playLog, NonZero(prizeClaimedAt))
  {
  }

  /** `savePersistedState({ run, purchases, playLog, prizeClaimedAt })`: writes the state
      key and nothing else; without a storage it does nothing. */
  method SavePersistedState(storage: Storage?<PersistedData>, run: Option<Run>, purchases: seq<Purchase>, playLog: seq<int>, prizeClaimedAt: Option<int>)
    modifies storage
    ensures storage != null ==> storage.items == old(storage.items)[STORAGE_KEY := Parsed(Saved(run, purchases, playLog, prizeClaimedAt))]
  {
    if storage == null {
      return;
    }
    storage.SetItem(STORAGE_KEY, Saved(run, purchases, playLog, prizeClaimedAt));
  }

  // ---------------------------------------------------------------------------
  // The question lock

  /** `loadQuestionLock` on the items of an available session storage. */
  function LockFrom(items: map<string, Item<Lock>>): Option<Lock> {
    match ItemAt(items, LOCK_KEY)
    case Some(Parsed(lock)) => Some(lock)
    case _ => None
  }

  /** `loadQuestionLock()`: the stored lock, or null when there is no session storage, no
      lock, or one that does not parse. */
  function LoadQuestionLock(session: Storage?<Lock>): Option<Lock>
    reads session
  {
    if session == null then None else LockFrom(session.items)
  }

  /** `storeQuestionLock(lock)`: a null lock removes the key, any other is written. Either
      way the lock read back is the one given, and no other key changes. */
  method StoreQuestionLock(session: Storage?<Lock>, lock: Option<Lock>)
    modifies session
    ensures session != null ==> LoadQuestionLock(session) == lock
    ensures session != null ==>
      session.items == if lock.None? then old(session.items) - {LOCK_KEY} else old(session.items)[LOCK_KEY := Parsed(lock.value)]
  {
    if session == null {
      return;
    }
    if lock.None? {
      session.RemoveItem(LOCK_KEY);
      return;
    }
    session.SetItem(LOCK_KEY, lock.value);
  }

  /** `clearQuestionLock()`: afterwards no lock loads. */
  method ClearQuestionLock(session: Storage?<Lock>)
    modifies session
    ensures LoadQuestionLock(session) == None
    ensures session != null ==> session.items == old(session.items) - {LOCK_KEY}
  {
    StoreQuestionLock(session, None);
  }
}
