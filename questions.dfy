/**
 * The catalog validator of questions.js: question ids, normalisation of one
 * question and one category into the `errors` list and `ids` set they share,
 * and the acceptance rule of `fetchQuestionBank`. The network fetches are
 * inputs: the manifest as fetched, and one completion per manifest file in
 * the order the fetches completed.
 */
module Questions {
  import opened Wrappers
  import opened Seqs
  import opened Text
  import opened Json

  /** MIN_CATEGORIES: fewer manifest files or loaded categories than this fail the bank. */
  const MIN_CATEGORIES := 7

  /** The modulus of the question-id hash, 2^31 - 1. */
  const ID_HASH_MODULUS := 2147483647

  datatype Question = Question(
    id: Json,
    prompt: string,
    choices: seq<Json>,
    answerIndex: nat,
    explanation: Json,
    difficulty: Json,
    tags: seq<Json>)

  datatype Category = Category(id: string, name: string, questions: seq<Question>)

  datatype Bank = Bank(version: Json, categories: seq<Category>)

  /** What `fetchJson` produced: the parsed body, or the error it threw with its message and details. */
  datatype Fetched = Received(value: Json) | FetchError(message: string, details: seq<string>)

  /** One settled fetch of a manifest file: the file name as written in the manifest, and its outcome. */
  datatype Completion = Completion(file: string, response: Fetched)

  /** One entry of the `errors` list. */
  datatype Problem =
    | MissingPrompt(categoryId: string, questionNumber: nat)
    | BadChoiceCount(prompt: string)
    | BadAnswerIndex(prompt: string)
    | MissingCategoryId(source: string)
    | DuplicateCategoryId(id: string)
    | MissingCategoryName(id: string, source: string)
    | NoQuestions(id: string)
    | FilesNotArray
    | TooFewFiles
    | NoCategoryEntry(file: string)
    | Thrown(message: string)
    | TooFewCategories(loaded: nat)

  /** The text pushed for each problem. */
  function Message(p: Problem): string {
    match p
    case MissingPrompt(c, n) => "Category " + c + " question " + Decimal(n) + " is missing a prompt"
    case BadChoiceCount(prompt) => "Question \"" + prompt + "\" must have 2-6 choices"
    case BadAnswerIndex(prompt) => "Question \"" + prompt + "\" has invalid answerIndex"
    case MissingCategoryId(source) => "Category from " + source + " is missing an id"
    case DuplicateCategoryId(id) => "Duplicate category id: " + id
    case MissingCategoryName(id, source) => "Category " + id + " (" + source + ") is missing a name"
    case NoQuestions(id) => "Category " + id + " must include at least one question"
    case FilesNotArray => "\"files\" must be an array inside manifest.json."
    case TooFewFiles => "Manifest must list at least " + Decimal(MIN_CATEGORIES) + " files."
    case NoCategoryEntry(file) => "File " + file + " does not include a \"category\" entry."
    case Thrown(message) => message
    case TooFewCategories(n) =>
      "Only " + Decimal(n) + " categories loaded; " + Decimal(MIN_CATEGORIES) + " required."
  }

  /** The message of the TypeError thrown by reading a property of `null`. */
  function NullAccess(property: string): string {
    "Cannot read properties of null (reading '" + property + "')"
  }

  datatype BankResult = Loaded(bank: Bank) | Rejected(message: string, details: seq<Problem>)

  // ---------------------------------------------------------------------------
  // stableQuestionId

  /** The text `stableQuestionId` hashes: category id, prompt and index joined by dashes. */
  function QuestionKey(categoryId: string, prompt: string, index: nat): string {
    categoryId + "-" + prompt + "-" + Decimal(index)
  }

  /** The running hash after the given code units: h := (h * 31 + unit) mod (2^31 - 1), from 0. */
  function PolyHash(units: seq<int>): (h: nat)
    ensures h < ID_HASH_MODULUS
  {
    if units == [] then 0
    else (PolyHash(units[..|units| - 1]) * 31 + units[|units| - 1]) % ID_HASH_MODULUS
  }

  /** The id `stableQuestionId` gives a question that has none. */
  function StableId(categoryId: string, prompt: string, index: nat): string {
    categoryId + "-" + Hex(PolyHash(CodeUnits(QuestionKey(categoryId, prompt, index))))
  }

  /** A generated id is the category id, a dash, and lower-case hexadecimal digits that read
      back as the hash of the key, which lies in [0, 2^31 - 1). */
  lemma StableIdShape(categoryId: string, prompt: string, index: nat)
    ensures var id := StableId(categoryId, prompt, index);
      var digits := id[|categoryId| + 1..];
      && |id| > |categoryId| + 1
      && id[..|categoryId| + 1] == categoryId + "-"
      && (forall k :: 0 <= k < |digits| ==> IsHexDigit(digits[k]))
      && ParseHex(digits) == PolyHash(CodeUnits(QuestionKey(categoryId, prompt, index)))
      && ParseHex(digits) < ID_HASH_MODULUS
  {
    var h := PolyHash(CodeUnits(QuestionKey(categoryId, prompt, index)));
    var id := StableId(categoryId, prompt, index);
    assert id[|categoryId| + 1..] == Hex(h);
    ParseHexOfHex(h);
  }

  /** `stableQuestionId`: the loop over the code units of the key keeps the running hash
      in [0, 2^31 - 1) and ends with the hash `StableId` is made of. */
  method StableQuestionId(categoryId: string, prompt: string, index: nat) returns (id: string)
    ensures id == StableId(categoryId, prompt, index)
  {
    var base := CodeUnits(QuestionKey(categoryId, prompt, index));
    var hash := 0;
    for i := 0 to |base|
      invariant 0 <= hash < ID_HASH_MODULUS
      invariant hash == PolyHash(base[..i])
    {
      assert base[..i + 1][..i] == base[..i];
      hash := (hash * 31 + base[i]) % ID_HASH_MODULUS;
    }
    assert base[..|base|] == base;
    id := categoryId + "-" + Hex(hash);
  }

  // ---------------------------------------------------------------------------
  // normalizeQuestion

  /** The prompt check: the question is truthy and its prompt a string that is not blank. */
  predicate HasPrompt(q: Json) {
    Truthy(Some(q)) && IsString(Get(q, "prompt")) && Trim(Get(q, "prompt").value.s) != ""
  }

  /** The choices check: an array of 2 to 6 entries. */
  predicate HasChoices(q: Json) {
    IsArray(Get(q, "choices")) && 2 <= |Get(q, "choices").value.items| <= 6
  }

  /** The answer check: an integer index into the choices. */
  predicate HasAnswerIndex(q: Json)
    requires HasChoices(q)
  {
    IsInteger(Get(q, "answerIndex"))
    && 0 <= Get(q, "answerIndex").value.n.Floor < |Get(q, "choices").value.items|
  }

  predicate Acceptable(q: Json) {
    HasPrompt(q) && HasChoices(q) && HasAnswerIndex(q)
  }

  /** The one problem a rejected question adds: that of the first check it fails. */
  function QuestionProblem(categoryId: string, q: Json, index: nat): Problem
    requires !Acceptable(q)
  {
    if !HasPrompt(q) then MissingPrompt(categoryId, index + 1)
    else if !HasChoices(q) then BadChoiceCount(Get(q, "prompt").value.s)
    else BadAnswerIndex(Get(q, "prompt").value.s)
  }

  /** The record `normalizeQuestion` builds from a question that passes the three checks:
      its own truthy id or a generated one, the trimmed prompt, the choices as given, the
      integer answer index, `explanation` defaulted to '', `difficulty` to 'normal', and
      `tags` always an array. A question that fails a check yields nothing. */
  function Normalize(categoryId: string, question: Json, index: nat): (r: Option<Question>)
    ensures r.Some? <==> Acceptable(question)
    ensures r.Some? ==> WellFormedQuestion(r.value)
  {
    if !Acceptable(question) then None
    else
      var prompt := Get(question, "prompt").value.s;
      var id := Get(question, "id");
      TrimIdempotent(prompt);
      Some(Question(
        if Truthy(id) then id.value else JStr(StableId(categoryId, prompt, index)),
        Trim(prompt),
        Get(question, "choices").value.items,
        Get(question, "answerIndex").value.n.Floor,
        OrElse(Get(question, "explanation"), JStr("")),
        OrElse(Get(question, "difficulty"), JStr("normal")),
        if IsArray(Get(question, "tags")) then Get(question, "tags").value.items else []))
  }

  /** A question without a truthy id gets the generated one, which is prefixed by its
      category id; a question with one keeps it. The prompt is kept trimmed. */
  lemma NormalizedId(categoryId: string, question: Json, index: nat)
    requires Acceptable(question)
    ensures var q := Normalize(categoryId, question, index).value;
      && (Truthy(Get(question, "id")) ==> q.id == Get(question, "id").value)
      && (!Truthy(Get(question, "id")) ==>
            && q.id == JStr(StableId(categoryId, Get(question, "prompt").value.s, index))
            && |q.id.s| > |categoryId| + 1 && q.id.s[..|categoryId| + 1] == categoryId + "-")
      && q.prompt == Trim(Get(question, "prompt").value.s)
  {
    StableIdShape(categoryId, Get(question, "prompt").value.s, index);
  }

  /** What every question of a loaded catalog satisfies. */
  predicate WellFormedQuestion(q: Question) {
    && 2 <= |q.choices| <= 6
    && q.answerIndex < |q.choices|
    && q.prompt != "" && Trim(q.prompt) == q.prompt
  }

  // ---------------------------------------------------------------------------
  // normalizeCategory

  /** The id check: the category is truthy and its id a string that is not blank. */
  predicate HasId(c: Json) {
    Truthy(Some(c)) && IsString(Get(c, "id")) && Trim(Get(c, "id").value.s) != ""
  }

  function CategoryId(c: Json): string
    requires HasId(c)
  {
    Trim(Get(c, "id").value.s)
  }

  predicate HasName(c: Json) {
    IsString(Get(c, "name")) && Trim(Get(c, "name").value.s) != ""
  }

  predicate HasQuestions(c: Json) {
    IsArray(Get(c, "questions")) && |Get(c, "questions").value.items| > 0
  }

  /** A normalised category: trimmed non-blank id and name, well-formed questions. */
  predicate Shaped(c: Category) {
    && c.id != "" && Trim(c.id) == c.id
    && c.name != "" && Trim(c.name) == c.name
    && forall k :: 0 <= k < |c.questions| ==> WellFormedQuestion(c.questions[k])
  }

  /** What every category of a loaded catalog satisfies: normalised, with a question. */
  predicate WellFormedCategory(c: Category) {
    Shaped(c) && |c.questions| >= 1
  }

  predicate DistinctIds(cs: seq<Category>) {
    forall i, j :: 0 <= i < j < |cs| ==> cs[i].id != cs[j].id
  }

  /** What `fetchQuestionBank` promises its caller: at least seven well-formed categories
      with distinct ids. */
  predicate WellFormedBank(b: Bank) {
    && |b.categories| >= MIN_CATEGORIES
    && DistinctIds(b.categories)
    && forall k :: 0 <= k < |b.categories| ==> WellFormedCategory(b.categories[k])
  }

  /** The `errors` list and the `ids` set that the normalisers of one `fetchQuestionBank`
      call share and append to. */
  class Validation {
    var errors: seq<Problem>
    var ids: set<string>

    constructor ()
      ensures errors == [] && ids == {}
    {
      errors := [];
      ids := {};
    }

    /** `errors.push(p)` */
    method Report(p: Problem)
      modifies this
      ensures errors == old(errors) + [p] && ids == old(ids)
    {
      errors := errors + [p];
    }

    /** `normalizeQuestion`: the result is the normalised question exactly when it passes
        the checks; otherwise exactly one error is added, that of the first failed check. */
    method NormalizeQuestion(categoryId: string, question: Json, index: nat) returns (q: Option<Question>)
      modifies this
      ensures ids == old(ids)
      ensures q == Normalize(categoryId, question, index)
      ensures errors == old(errors) + Rejection(categoryId, question, index)
    {
      if !HasPrompt(question) {
        Report(MissingPrompt(categoryId, index + 1));
        return None;
      }
      var prompt := Get(question, "prompt").value.s;
      if !HasChoices(question) {
        Report(BadChoiceCount(prompt));
        return None;
      }
      var choices := Get(question, "choices").value.items;
      if !HasAnswerIndex(question) {
        Report(BadAnswerIndex(prompt));
        return None;
      }
      var answerIndex := Get(question, "answerIndex").value.n.Floor;
      var id;
      if Truthy(Get(question, "id")) {
        id := Get(question, "id").value;
      } else {
        var generated := StableQuestionId(categoryId, prompt, index);
        id := JStr(generated);
      }
      q := Some(Question(
        id,
        Trim(prompt),
        choices,
        answerIndex,
        OrElse(Get(question, "explanation"), JStr("")),
        OrElse(Get(question, "difficulty"), JStr("normal")),
        if IsArray(Get(question, "tags")) then Get(question, "tags").value.items else []));
    }

    /** The `forEach` of `normalizeCategory` over the raw questions of category `id`. */
    method NormalizeQuestions(id: string, raw: seq<Json>) returns (normalized: seq<Question>)
      modifies this
      ensures ids == old(ids)
      ensures normalized == KeptQuestions(id, raw)
      ensures errors == old(errors) + QuestionProblems(id, raw)
    {
      normalized := [];
      for index := 0 to |raw|
        invariant ids == old(ids)
        invariant normalized == KeptQuestions(id, raw[..index])
        invariant errors == old(errors) + QuestionProblems(id, raw[..index])
      {
        assert raw[..index + 1][..index] == raw[..index];
        var q := NormalizeQuestion(id, raw[index], index);
        if q.Some? {
          normalized := normalized + [q.value];
        }
      }
      assert raw[..|raw|] == raw;
    }

    /** `normalizeCategory`. A category without an id, or with an id already seen, is
        rejected with one error and leaves `ids` alone; any other category reserves its
        trimmed id in `ids` before the name and question checks, so it keeps it even when
        those reject it. A kept category holds the trimmed id and name and the questions
        that pass validation, and each dropped question adds its error. */
    method NormalizeCategory(category: Json, sourceLabel: string) returns (c: Option<Category>)
      modifies this
      ensures !HasId(category) ==>
        c.None? && errors == old(errors) + [MissingCategoryId(sourceLabel)] && ids == old(ids)
      ensures HasId(category) && CategoryId(category) in old(ids) ==>
        c.None? && errors == old(errors) + [DuplicateCategoryId(CategoryId(category))] && ids == old(ids)
      ensures HasId(category) && CategoryId(category) !in old(ids) ==>
        ids == old(ids) + {CategoryId(category)}
      ensures HasId(category) && CategoryId(category) !in old(ids) && !HasName(category) ==>
        c.None? && errors == old(errors) + [MissingCategoryName(CategoryId(category), sourceLabel)]
      ensures HasId(category) && CategoryId(category) !in old(ids) && HasName(category) && !HasQuestions(category) ==>
        c.None? && errors == old(errors) + [NoQuestions(CategoryId(category))]
      ensures c.Some? <==> HasId(category) && CategoryId(category) !in old(ids) && HasName(category) && HasQuestions(category)
      ensures c.Some? ==>
        var raw := Get(category, "questions").value.items;
        && c.value == Category(CategoryId(category), Trim(Get(category, "name").value.s), KeptQuestions(c.value.id, raw))
        && errors == old(errors) + QuestionProblems(c.value.id, raw)
      ensures |errors| >= |old(errors)| && errors[..|old(errors)|] == old(errors)
      ensures c.Some? ==> Shaped(c.value) && (|c.value.questions| >= 1 || |errors| > |old(errors)|)
      ensures var st := CategoryStep(category, sourceLabel, old(ids));
        c == st.category && ids == st.ids && errors == old(errors) + st.added
    {
      if !HasId(category) {
        Report(MissingCategoryId(sourceLabel));
        return None;
      }
      var id := CategoryId(category);
      if id in ids {
        Report(DuplicateCategoryId(id));
        return None;
      }
      ids := ids + {id};
      if !HasName(category) {
        Report(MissingCategoryName(id, sourceLabel));
        return None;
      }
      if !HasQuestions(category) {
        Report(NoQuestions(id));
        return None;
      }
      var raw := Get(category, "questions").value.items;
      var normalized := NormalizeQuestions(id, raw);
      var name := Get(category, "name").value.s;
      c := Some(Category(id, Trim(name), normalized));
      AssembledIsShaped(Get(category, "id").value.s, name, raw);
      KeptOrReported(id, raw);
    }

    /** One settled fetch of a manifest file, as the `Promise.all` callback handles it:
        a failed fetch adds the message it threw, a `null` payload the TypeError of
        reading its `category`, and a payload without a category entry names the file;
        otherwise the entry is normalised against the ids seen so far. */
    method LoadFile(completion: Completion) returns (c: Option<Category>)
      modifies this
      ensures completion.response.FetchError? ==>
        c.None? && errors == old(errors) + [Thrown(completion.response.message)] && ids == old(ids)
      ensures completion.response == Received(JNull) ==>
        c.None? && errors == old(errors) + [Thrown(NullAccess("category"))] && ids == old(ids)
      ensures completion.response.Received? && completion.response.value != JNull
              && !Truthy(CategoryEntry(completion.response.value)) ==>
        c.None? && errors == old(errors) + [NoCategoryEntry(completion.file)] && ids == old(ids)
      ensures completion.response.Received? && completion.response.value != JNull
              && Truthy(CategoryEntry(completion.response.value)) ==>
        var st := CategoryStep(CategoryEntry(completion.response.value).value, completion.file, old(ids));
        c == st.category && ids == st.ids && errors == old(errors) + st.added
      ensures var st := FileStep(completion, old(ids));
        c == st.category && ids == st.ids && errors == old(errors) + st.added
    {
      c := None;
      match completion.response {
        case FetchError(message, _) =>
          Report(Thrown(message));
        case Received(payload) =>
          if payload == JNull {
            Report(Thrown(NullAccess("category")));
          } else {
            var entry := CategoryEntry(payload);
            if !Truthy(entry) {
              Report(NoCategoryEntry(completion.file));
            } else {
              c := NormalizeCategory(entry.value, completion.file);
            }
          }
      }
    }
  }

  /** The `Promise.all` over the manifest files, its callbacks run in the order the
      fetches settled, starting from empty `errors` and `ids`. */
  method LoadFiles(v: Validation, completions: seq<Completion>) returns (loaded: seq<Category>)
    requires v.errors == [] && v.ids == {}
    modifies v
    ensures v.errors == LoadAll(completions).problems && v.ids == LoadAll(completions).ids
    ensures loaded == LoadAll(completions).loaded
  {
    loaded := [];
    for k := 0 to |completions|
      invariant v.errors == LoadAll(completions[..k]).problems
      invariant v.ids == LoadAll(completions[..k]).ids
      invariant loaded == LoadAll(completions[..k]).loaded
    {
      assert completions[..k + 1][..k] == completions[..k];
      var c := v.LoadFile(completions[k]);
      if c.Some? {
        loaded := loaded + [c.value];
      }
    }
    assert completions[..|completions|] == completions;
  }

  /** What normalising one category or handling one file does to the state the
      normalisers share: the errors it adds, the `ids` set afterwards, and the category
      it yields. */
  datatype Effect = Effect(added: seq<Problem>, ids: set<string>, category: Option<Category>)

  /** `normalizeCategory` given the ids seen before it. The id is reserved as soon as it
      passes the id and duplicate checks, before the name and question checks. */
  function CategoryStep(category: Json, sourceLabel: string, ids: set<string>): Effect {
    if !HasId(category) then Effect([MissingCategoryId(sourceLabel)], ids, None)
    else
      var id := CategoryId(category);
      if id in ids then Effect([DuplicateCategoryId(id)], ids, None)
      else if !HasName(category) then Effect([MissingCategoryName(id, sourceLabel)], ids + {id}, None)
      else if !HasQuestions(category) then Effect([NoQuestions(id)], ids + {id}, None)
      else
        var raw := Get(category, "questions").value.items;
        Effect(QuestionProblems(id, raw), ids + {id},
             Some(Category(id, Trim(Get(category, "name").value.s), KeptQuestions(id, raw))))
  }

  /** The `Promise.all` callback for one settled file fetch, given the ids seen before it. */
  function FileStep(completion: Completion, ids: set<string>): Effect {
    match completion.response
    case FetchError(message, _) => Effect([Thrown(message)], ids, None)
    case Received(payload) =>
      if payload == JNull then Effect([Thrown(NullAccess("category"))], ids, None)
      else
        var entry := CategoryEntry(payload);
        if !Truthy(entry) then Effect([NoCategoryEntry(completion.file)], ids, None)
        else CategoryStep(entry.value, completion.file, ids)
  }

  /** A file either yields a category, whose id is new and now reserved and whose only
      errors are those of its dropped questions, or yields nothing and adds exactly one
      error. A yielded category is normalised and has a question unless one was dropped. */
  lemma FileStepOutcome(completion: Completion, ids: set<string>)
    ensures var st := FileStep(completion, ids);
      && ids <= st.ids
      && (st.category.None? ==> |st.added| == 1)
      && (st.category.Some? ==>
            && st.category.value.id !in ids && st.category.value.id in st.ids
            && Shaped(st.category.value)
            && (|st.category.value.questions| >= 1 || st.added != []))
  {
    var st := FileStep(completion, ids);
    if st.category.Some? {
      var entry := CategoryEntry(completion.response.value).value;
      var raw := Get(entry, "questions").value.items;
      AssembledIsShaped(Get(entry, "id").value.s, Get(entry, "name").value.s, raw);
      KeptOrReported(CategoryId(entry), raw);
    }
  }

  /** The error `normalizeQuestion` adds for a question: none when it passes. */
  function Rejection(categoryId: string, question: Json, index: nat): seq<Problem> {
    if Acceptable(question) then [] else [QuestionProblem(categoryId, question, index)]
  }

  /** The questions `normalizeCategory` keeps from `raw`: the normalised forms of those that
      pass, in their original order (each question normalised with its own position). */
  function KeptQuestions(id: string, raw: seq<Json>): seq<Question> {
    if raw == [] then []
    else
      var n := |raw| - 1;
      KeptQuestions(id, raw[..n]) + match Normalize(id, raw[n], n) { case None => [] case Some(q) => [q] }
  }

  /** The errors the questions of `raw` add, in order. */
  function QuestionProblems(id: string, raw: seq<Json>): seq<Problem> {
    if raw == [] then []
    else
      var n := |raw| - 1;
      QuestionProblems(id, raw[..n]) + Rejection(id, raw[n], n)
  }

  /** Every kept question is well formed. */
  lemma {:induction false} KeptQuestionsWellFormed(id: string, raw: seq<Json>)
    ensures forall k :: 0 <= k < |KeptQuestions(id, raw)| ==> WellFormedQuestion(KeptQuestions(id, raw)[k])
  {
    if raw != [] {
      KeptQuestionsWellFormed(id, raw[..|raw| - 1]);
    }
  }

  /** Every raw question is either kept or reported, never both and never neither. */
  lemma {:induction false} KeptOrReported(id: string, raw: seq<Json>)
    ensures |KeptQuestions(id, raw)| + |QuestionProblems(id, raw)| == |raw|
  {
    if raw != [] {
      KeptOrReported(id, raw[..|raw| - 1]);
    }
  }

  /** No error is reported exactly when every question passes. */
  lemma {:induction false} NoProblemsIffAllAcceptable(id: string, raw: seq<Json>)
    ensures QuestionProblems(id, raw) == [] <==> forall j :: 0 <= j < |raw| ==> Acceptable(raw[j])
  {
    if raw != [] {
      var n := |raw| - 1;
      NoProblemsIffAllAcceptable(id, raw[..n]);
      assert forall j :: 0 <= j < n ==> raw[..n][j] == raw[j];
      assert QuestionProblems(id, raw) == QuestionProblems(id, raw[..n]) + Rejection(id, raw[n], n);
    }
  }

  /** When every question passes, every question is kept. */
  lemma AllAcceptableAllKept(id: string, raw: seq<Json>)
    requires forall j :: 0 <= j < |raw| ==> Acceptable(raw[j])
    ensures |KeptQuestions(id, raw)| == |raw|
  {
    NoProblemsIffAllAcceptable(id, raw);
    KeptOrReported(id, raw);
  }

  /** A category assembled from a non-blank id and name and the kept questions is normalised. */
  lemma AssembledIsShaped(rawId: string, rawName: string, raw: seq<Json>)
    requires Trim(rawId) != "" && Trim(rawName) != ""
    ensures Shaped(Category(Trim(rawId), Trim(rawName), KeptQuestions(Trim(rawId), raw)))
  {
    TrimIdempotent(rawId);
    TrimIdempotent(rawName);
    KeptQuestionsWellFormed(Trim(rawId), raw);
  }

  // ---------------------------------------------------------------------------
  // fetchQuestionBank

  /** The number of files a fetched manifest lists, when `files` is an array. */
  function FileCount(manifest: Fetched): Option<nat> {
    if manifest.Received? && IsArray(Get(manifest.value, "files"))
    then Some(|Get(manifest.value, "files").value.items|)
    else None
  }

  /** `Promise.all` settles one fetch per manifest file before the bank is judged. */
  predicate OnePerFile(manifest: Fetched, completions: seq<Completion>) {
    FileCount(manifest).Some? && FileCount(manifest).value >= MIN_CATEGORIES ==>
      |completions| == FileCount(manifest).value
  }

  function ThrownAll(details: seq<string>): (r: seq<Problem>)
    ensures |r| == |details|
  {
    seq(|details|, k requires 0 <= k < |details| => Thrown(details[k]))
  }

  /** `payload.category || (Array.isArray(payload.categories) ? payload.categories[0] : null)` */
  function CategoryEntry(payload: Json): Option<Json> {
    if Truthy(Get(payload, "category")) then Get(payload, "category")
    else if IsArray(Get(payload, "categories")) then
      var all := Get(payload, "categories").value.items;
      if |all| > 0 then Some(all[0]) else None
    else Some(JNull)
  }

  /** The errors, reserved ids and loaded categories after the files' callbacks ran in
      the order of `completions`, from an empty `errors` list and `ids` set. */
  datatype Loading = Loading(problems: seq<Problem>, ids: set<string>, loaded: seq<Category>)

  function LoadAll(completions: seq<Completion>): Loading {
    if completions == [] then Loading([], {}, [])
    else
      var prior := LoadAll(completions[..|completions| - 1]);
      var st := FileStep(completions[|completions| - 1], prior.ids);
      Loading(prior.problems + st.added, st.ids,
              prior.loaded + match st.category { case None => [] case Some(c) => [c] })
  }

  /** The loaded categories have distinct reserved ids and are normalised, with a question
      each unless an error was recorded; there are no more of them than files, and when no
      error was recorded every file yielded one. */
  lemma {:induction false} LoadAllShape(completions: seq<Completion>)
    ensures var l := LoadAll(completions);
      && |l.loaded| <= |completions|
      && (l.problems == [] ==> |l.loaded| == |completions|)
      && DistinctIds(l.loaded)
      && (forall i :: 0 <= i < |l.loaded| ==> l.loaded[i].id in l.ids && Shaped(l.loaded[i]))
      && (forall i :: 0 <= i < |l.loaded| ==> |l.loaded[i].questions| >= 1 || l.problems != [])
  {
    if completions != [] {
      var n := |completions| - 1;
      var prior := LoadAll(completions[..n]);
      LoadAllShape(completions[..n]);
      FileStepOutcome(completions[n], prior.ids);
    }
  }

  /** `fetchQuestionBank`, given the fetched manifest and the settled file fetches in
      completion order. A manifest that could not be fetched, is `null`, has no `files`
      array or lists fewer than seven files is rejected before any file is read. After the
      files, the bank is accepted exactly when no problem was recorded (`problems` is the
      final `errors` list, which only ever grows); fewer than seven loaded categories is
      itself a problem. An accepted bank holds every loaded category, in completion order,
      and is well formed. */
  method FetchQuestionBank(manifest: Fetched, completions: seq<Completion>)
    returns (r: BankResult, ghost problems: seq<Problem>, ghost loaded: seq<Category>)
    requires OnePerFile(manifest, completions)
    ensures manifest.FetchError? ==> r == Rejected(manifest.message, ThrownAll(manifest.details))
    ensures manifest == Received(JNull) ==> r == Rejected(NullAccess("files"), [])
    ensures manifest.Received? && manifest.value != JNull && FileCount(manifest).None? ==>
      r == Rejected("Question manifest failed validation.", [FilesNotArray])
    ensures FileCount(manifest).Some? && FileCount(manifest).value < MIN_CATEGORIES ==>
      r == Rejected("Question manifest failed validation.", [TooFewFiles])
    ensures FileCount(manifest).Some? && FileCount(manifest).value >= MIN_CATEGORIES ==>
      && loaded == LoadAll(completions).loaded
      && problems == LoadAll(completions).problems +
           (if |loaded| < MIN_CATEGORIES then [TooFewCategories(|loaded|)] else [])
      && (r.Loaded? <==> problems == [])
      && (r.Loaded? <==> LoadAll(completions).problems == [])
      && (r.Rejected? ==> r == Rejected("Question data failed validation.", problems))
      && (r.Loaded? ==> r.bank.categories == loaded
                        && r.bank.version == OrElse(Get(manifest.value, "version"), JNum(1.0)))
    ensures r.Loaded? ==> WellFormedBank(r.bank)
  {
    problems, loaded := [], [];
    var loadedCategories: seq<Category>;
    if manifest.FetchError? {
      return Rejected(manifest.message, ThrownAll(manifest.details)), problems, loaded;
    }
    var data := manifest.value;
    if data == JNull {
      return Rejected(NullAccess("files"), []), problems, loaded;
    }
    var v := new Validation();
    if !IsArray(Get(data, "files")) {
      v.Report(FilesNotArray);
    } else if |Get(data, "files").value.items| < MIN_CATEGORIES {
      v.Report(TooFewFiles);
    }
    if |v.errors| > 0 {
      return Rejected("Question manifest failed validation.", v.errors), v.errors, loaded;
    }
    loadedCategories := LoadFiles(v, completions);
    LoadAllShape(completions);
    if |loadedCategories| < MIN_CATEGORIES {
      v.Report(TooFewCategories(|loadedCategories|));
    }
    problems, loaded := v.errors, loadedCategories;
    if |v.errors| > 0 {
      return Rejected("Question data failed validation.", v.errors), problems, loaded;
    }
    r := Loaded(Bank(OrElse(Get(data, "version"), JNum(1.0)), loadedCategories));
  }
}
