/**
 * The Open Trivia Database client: categories, per-category question counts,
 * the question request URL, and the fetch of one quiz's questions with its
 * error mapping, answer shuffling and 429 fallback cache.
 *
 * `fetch` is a function parameter from request URL to response, so every
 * result is stated in terms of the URL actually requested. HTML entity
 * decoding is the parameter `decode`, and the shuffle's random choice is a
 * nondeterministic pick of the swap index.
 */
module QuestionSource {
  import opened Wrappers
  import opened Records
  import opened Text

  const BaseApiUrl: string := "https://opentdb.com/api.php"
  const CategoriesUrl: string := "https://opentdb.com/api_category.php"
  const CategoryCountUrl: string := "https://opentdb.com/api_count.php"

  /** One entry of `DIFFICULTY_LEVELS`. */
  datatype DifficultyLevel = DifficultyLevel(id: string, name: string, description: string)

  const DifficultyLevels: seq<DifficultyLevel> := [
    DifficultyLevel("any", "Any Difficulty", "Mix of all difficulties"),
    DifficultyLevel("easy", "Easy", "Perfect for beginners"),
    DifficultyLevel("medium", "Medium", "A balanced challenge"),
    DifficultyLevel("hard", "Hard", "For quiz masters only")
  ]

  /** A trivia category; ids are kept in their decimal text form. */
  datatype Category = Category(id: string, name: string)

  const AnyCategory: Category := Category("any", "Any Category")

  /** `response.ok` of the Fetch API: a 2xx status. */
  predicate IsOk(status: int) {
    200 <= status < 300
  }

  datatype CategoriesResponse =
    | CategoriesNetworkError(message: string)
    | CategoriesReply(status: int, categories: seq<Category>)

  /** The count endpoint's reply: the total and the per-difficulty counts by key. */
  datatype CountResponse =
    | CountNetworkError
    | CountReply(status: int, total: int, counts: map<string, int>)

  /** A question exactly as the API returns it, HTML entities still encoded. */
  datatype RawQuestion = RawQuestion(
    question: string,
    correctAnswer: string,
    incorrectAnswers: seq<string>,
    category: string,
    difficulty: string)

  datatype QuestionsResponse =
    | QuestionsNetworkError(message: string)
    | QuestionsReply(status: int, responseCode: int, results: seq<RawQuestion>)

  const FetchFailedMessage: string := "Failed to fetch questions"
  const NotEnoughMessage: string :=
    "Not enough questions available for the selected options. Try a different category or difficulty."
  const InvalidOptionsMessage: string := "Invalid category or difficulty selected."
  const ApiErrorMessage: string := "API returned an error"
  const CategoriesFailedMessage: string := "Failed to fetch categories"

  /** The key of one difficulty's count in the count reply. */
  function DifficultyCountKey(difficulty: string): string {
    "total_" + difficulty + "_question_count"
  }

  function CountUrl(categoryId: string): string {
    CategoryCountUrl + "?category=" + categoryId
  }

  /**
   * `getQuestionCount`: 100 for any category without asking; 0 when the
   * request fails; otherwise the total for any difficulty, or that
   * difficulty's count, missing counting as 0.
   */
  function QuestionCount(categoryId: string, difficulty: string, fetch: string -> CountResponse): (n: int)
    ensures categoryId == "any" ==> n == 100
    ensures categoryId != "any" ==>
      var resp := fetch(CountUrl(categoryId));
      if resp.CountNetworkError? || !IsOk(resp.status) then n == 0
      else if difficulty == "any" then n == resp.total
      else var key := DifficultyCountKey(difficulty);
        n == (if key in resp.counts then resp.counts[key] else 0)
  {
    if categoryId == "any" then 100
    else
      var resp := fetch(CountUrl(categoryId));
      if resp.CountNetworkError? || !IsOk(resp.status) then 0
      else if difficulty == "any" then resp.total
      else if DifficultyCountKey(difficulty) in resp.counts then resp.counts[DifficultyCountKey(difficulty)]
      else 0
  }

  /** Counts from a well-formed reply are never negative. */
  lemma QuestionCountNonNegative(categoryId: string, difficulty: string, fetch: string -> CountResponse)
    requires var resp := fetch(CountUrl(categoryId));
      resp.CountReply? ==> resp.total >= 0 && forall k :: k in resp.counts ==> resp.counts[k] >= 0
    ensures QuestionCount(categoryId, difficulty, fetch) >= 0
  {
  }

  /** The options of `fetchQuizQuestions`, each defaulted when absent. */
  datatype FetchOptions = FetchOptions(category: Option<string>, difficulty: Option<string>, amount: Option<nat>)

  /**
   * The query parameters of `buildApiUrl`, in order: amount and type always;
   * category and difficulty only when non-empty and not "any".
   */
  function QueryParams(amount: nat, category: string, difficulty: string): (ps: seq<(string, string)>)
    ensures 2 <= |ps| <= 4
    ensures ps[0] == ("amount", Decimal(amount)) && ps[1] == ("type", "multiple")
    ensures (exists i :: 0 <= i < |ps| && ps[i] == ("category", category)) <==> category != "" && category != "any"
    ensures (exists i :: 0 <= i < |ps| && ps[i] == ("difficulty", difficulty)) <==> difficulty != "" && difficulty != "any"
    ensures forall i :: 2 <= i < |ps| ==> ps[i].0 in {"category", "difficulty"}
  {
    var withCategory := WithOptional([("amount", Decimal(amount)), ("type", "multiple")], "category", category);
    var ps := WithOptional(withCategory, "difficulty", difficulty);
    assert category != "" && category != "any" ==> ps[2] == ("category", category);
    assert difficulty != "" && difficulty != "any" ==> ps[|ps| - 1] == ("difficulty", difficulty);
    ps
  }

  /** `if (value && value !== 'any') params.append(name, value)`. */
  function WithOptional(ps: seq<(string, string)>, name: string, value: string): (qs: seq<(string, string)>)
    ensures |qs| == |ps| || |qs| == |ps| + 1
    ensures |qs| == |ps| + 1 <==> value != "" && value != "any"
    ensures qs[..|ps|] == ps
    ensures |qs| == |ps| + 1 ==> qs[|ps|] == (name, value)
  {
    if value != "" && value != "any" then ps + [(name, value)] else ps
  }

  /** One `name=value` pair. */
  function Pair(p: (string, string)): string {
    p.0 + "=" + p.1
  }

  /** `name=value` pairs joined by `&`. */
  function QueryString(ps: seq<(string, string)>): (s: string)
    ensures ps == [] <==> s == []
    ensures |ps| == 1 ==> s == Pair(ps[0])
  {
    if ps == [] then []
    else if |ps| == 1 then Pair(ps[0])
    else QueryString(ps[..|ps| - 1]) + "&" + Pair(ps[|ps| - 1])
  }

  /** Adding a parameter appends `&name=value`. */
  lemma QueryStringAppend(ps: seq<(string, string)>, p: (string, string))
    requires ps != []
    ensures QueryString(ps + [p]) == QueryString(ps) + "&" + Pair(p)
  {
    assert (ps + [p])[..|ps|] == ps;
  }

  /** `buildApiUrl`: the base, `?`, and the query string of `QueryParams`. */
  function ApiUrl(amount: nat, category: string, difficulty: string): (url: string)
    ensures |url| > |BaseApiUrl| + 1 && url[..|BaseApiUrl| + 1] == BaseApiUrl + "?"
    ensures url[|BaseApiUrl| + 1..] == QueryString(QueryParams(amount, category, difficulty))
  {
    var q := QueryString(QueryParams(amount, category, difficulty));
    assert BaseApiUrl + "?" + q == (BaseApiUrl + "?") + q;
    BaseApiUrl + "?" + q
  }

  /** Concatenation regroups freely. */
  lemma ConcatAssoc(a: string, b: string, c: string)
    ensures a + (b + c) == (a + b) + c
  {
  }

  /** `&name=value` written with the name and `=` as one literal. */
  lemma NamedPair(prefix: string, name: string, value: string)
    requires prefix == "&" + name + "="
    ensures "&" + Pair((name, value)) == prefix + value
  {
    assert "&" + Pair((name, value)) == "&" + (name + "=" + value);
    ConcatAssoc("&", name + "=", value);
    ConcatAssoc("&", name, "=");
  }

  /** The two parameters every request carries. */
  lemma QueryStringHead(amount: nat)
    ensures QueryString([("amount", Decimal(amount)), ("type", "multiple")]) == "amount=" + Decimal(amount) + "&type=multiple"
  {
    var base := [("amount", Decimal(amount)), ("type", "multiple")];
    assert [base[0]] + [base[1]] == base;
    QueryStringAppend([base[0]], base[1]);
    assert Pair(base[0]) == "amount=" + Decimal(amount);
    assert "&" + Pair(base[1]) == "&type=multiple";
    ConcatAssoc(Pair(base[0]), "&", Pair(base[1]));
  }

  /** An optional parameter adds `&name=value` exactly when it is given. */
  lemma QueryStringWithOptional(ps: seq<(string, string)>, name: string, value: string, prefix: string)
    requires ps != [] && prefix == "&" + name + "="
    ensures QueryString(WithOptional(ps, name, value)) ==
      QueryString(ps) + (if value != "" && value != "any" then prefix + value else "")
  {
    if value != "" && value != "any" {
      QueryStringAppend(ps, (name, value));
      ConcatAssoc(QueryString(ps), "&", Pair((name, value)));
      NamedPair(prefix, name, value);
    }
  }

  /** The query string spelled out: amount and type, then the optional category and difficulty. */
  lemma QueryStringSpelledOut(amount: nat, category: string, difficulty: string)
    ensures QueryString(QueryParams(amount, category, difficulty)) ==
      "amount=" + Decimal(amount) + "&type=multiple" +
      (if category != "" && category != "any" then "&category=" + category else "") +
      (if difficulty != "" && difficulty != "any" then "&difficulty=" + difficulty else "")
  {
    QueryStringWithCategory(amount, category);
    var withCategory := WithOptional([("amount", Decimal(amount)), ("type", "multiple")], "category", category);
    QueryStringWithOptional(withCategory, "difficulty", difficulty, "&difficulty=");
  }

  /** The query string up to the optional category. */
  lemma QueryStringWithCategory(amount: nat, category: string)
    ensures QueryString(WithOptional([("amount", Decimal(amount)), ("type", "multiple")], "category", category)) ==
      "amount=" + Decimal(amount) + "&type=multiple" + (if category != "" && category != "any" then "&category=" + category else "")
  {
    QueryStringHead(amount);
    QueryStringWithOptional([("amount", Decimal(amount)), ("type", "multiple")], "category", category, "&category=");
  }

  /**
   * The URL spelled out: amount and type first, then `&category=` exactly
   * when a category other than "any" is given, then `&difficulty=` exactly
   * when a difficulty other than "any" is given.
   */
  lemma ApiUrlSpelledOut(amount: nat, category: string, difficulty: string)
    ensures ApiUrl(amount, category, difficulty) ==
      BaseApiUrl + "?" + "amount=" + Decimal(amount) + "&type=multiple" +
      (if category != "" && category != "any" then "&category=" + category else "") +
      (if difficulty != "" && difficulty != "any" then "&difficulty=" + difficulty else "")
  {
    QueryStringSpelledOut(amount, category, difficulty);
    var pre, a, d, t := BaseApiUrl + "?", "amount=", Decimal(amount), "&type=multiple";
    var c := if category != "" && category != "any" then "&category=" + category else "";
    var f := if difficulty != "" && difficulty != "any" then "&difficulty=" + difficulty else "";
    ConcatAssoc(pre, a + d + t + c, f);
    ConcatAssoc(pre, a + d + t, c);
    ConcatAssoc(pre, a + d, t);
    ConcatAssoc(pre, a, d);
  }

  /** `decoded.map(decode)`. */
  function DecodeAll(xs: seq<string>, decode: string -> string): (ys: seq<string>)
    ensures |ys| == |xs| && forall i :: 0 <= i < |xs| ==> ys[i] == decode(xs[i])
  {
    seq(|xs|, i requires 0 <= i < |xs| => decode(xs[i]))
  }

  /**
   * `q` is what the mapping makes of `raw`: decoded question and correct
   * answer, the decoded incorrect answers and the correct one in some order,
   * and the category and difficulty as received.
   */
  predicate MappedFrom(raw: RawQuestion, q: Question, decode: string -> string) {
    q.question == decode(raw.question) &&
    q.correctAnswer == decode(raw.correctAnswer) &&
    multiset(q.answers) == multiset(DecodeAll(raw.incorrectAnswers, decode) + [decode(raw.correctAnswer)]) &&
    q.category == raw.category &&
    q.difficulty == raw.difficulty
  }

  /** Every mapped question offers its correct answer, among one more choice than it had incorrect answers. */
  lemma MappedOffersCorrect(raw: RawQuestion, q: Question, decode: string -> string)
    requires MappedFrom(raw, q, decode)
    ensures q.correctAnswer in q.answers
    ensures |q.answers| == |raw.incorrectAnswers| + 1
  {
    var all := DecodeAll(raw.incorrectAnswers, decode) + [decode(raw.correctAnswer)];
    assert all[|all| - 1] == q.correctAnswer;
    assert q.correctAnswer in multiset(all);
    assert |multiset(q.answers)| == |multiset(all)|;
  }

  /** Exchanging two elements keeps the same elements. */
  lemma SwapKeepsMultiset<T>(s: seq<T>, i: nat, j: nat)
    requires i < |s| && j < |s|
    ensures multiset(s[i := s[j]][j := s[i]]) == multiset(s)
  {
  }

  /** `shuffleArray`: Fisher–Yates from the back, each swap partner picked from `0..i`. */
  method ShuffleArray<T>(input: seq<T>) returns (r: seq<T>)
    ensures |r| == |input|
    ensures multiset(r) == multiset(input)
  {
    var a := new T[|input|](k requires 0 <= k < |input| => input[k]);
    assert a[..] == input;
    var i := a.Length - 1;
    while i > 0
      invariant i < a.Length
      invariant multiset(a[..]) == multiset(input)
    {
      var j :| 0 <= j <= i;
      ghost var before := a[..];
      a[i], a[j] := a[j], a[i];
      assert a[..] == before[i := before[j]][j := before[i]];
      SwapKeepsMultiset(before, i, j);
      i := i - 1;
    }
    r := a[..];
  }

  /** The mapping applied to one raw question. */
  method MapQuestion(raw: RawQuestion, decode: string -> string) returns (q: Question)
    ensures MappedFrom(raw, q, decode)
  {
    var correct := decode(raw.correctAnswer);
    var all := DecodeAll(raw.incorrectAnswers, decode) + [correct];
    var shuffled := ShuffleArray(all);
    q := Question(decode(raw.question), correct, shuffled, raw.category, raw.difficulty);
  }

  /** `data.results.map(...)`. */
  method MapQuestions(raws: seq<RawQuestion>, decode: string -> string) returns (qs: seq<Question>)
    ensures |qs| == |raws|
    ensures forall i :: 0 <= i < |raws| ==> MappedFrom(raws[i], qs[i], decode)
  {
    qs := [];
    for k := 0 to |raws|
      invariant |qs| == k
      invariant forall i :: 0 <= i < k ==> MappedFrom(raws[i], qs[i], decode)
    {
      var q := MapQuestion(raws[k], decode);
      qs := qs + [q];
    }
  }

  /** What a questions response leads to, before any shuffling. */
  datatype FetchPlan = ServeCached(questions: seq<Question>) | Fail(message: string) | MapResults(raws: seq<RawQuestion>)

  /**
   * The branches of `fetchQuizQuestions` on a response: a network error
   * rethrown; 429 served from the last results when there are any; any other
   * non-2xx status; response codes 1, 2 and any other non-zero code; code 0
   * maps the results.
   */
  function Plan(resp: QuestionsResponse, lastResults: Option<seq<Question>>): (p: FetchPlan)
    ensures p.ServeCached? <==> resp.QuestionsReply? && resp.status == 429 && lastResults.Some?
    ensures p.ServeCached? ==> p.questions == lastResults.value
    ensures p.MapResults? <==> resp.QuestionsReply? && IsOk(resp.status) && resp.responseCode == 0
    ensures p.MapResults? ==> p.raws == resp.results
    ensures resp.QuestionsNetworkError? ==> p == Fail(resp.message)
    ensures resp.QuestionsReply? && !IsOk(resp.status) && !p.ServeCached? ==> p == Fail(FetchFailedMessage)
    ensures resp.QuestionsReply? && IsOk(resp.status) ==>
      (resp.responseCode == 1 <==> p == Fail(NotEnoughMessage)) &&
      (resp.responseCode == 2 <==> p == Fail(InvalidOptionsMessage)) &&
      (resp.responseCode !in {0, 1, 2} <==> p == Fail(ApiErrorMessage))
  {
    match resp
    case QuestionsNetworkError(message) => Fail(message)
    case QuestionsReply(status, code, results) =>
      if status == 429 && lastResults.Some? then ServeCached(lastResults.value)
      else if !IsOk(status) then Fail(FetchFailedMessage)
      else if code == 1 then Fail(NotEnoughMessage)
      else if code == 2 then Fail(InvalidOptionsMessage)
      else if code != 0 then Fail(ApiErrorMessage)
      else MapResults(results)
  }

  /** The API's module-level state: the 429 fallback and the categories cache. */
  class QuestionClient {
    var lastSuccessAt: int
    var lastResults: Option<seq<Question>>
    var cachedCategories: Option<seq<Category>>

    constructor ()
      ensures lastSuccessAt == 0 && lastResults == None && cachedCategories == None
    {
      lastSuccessAt := 0;
      lastResults := None;
      cachedCategories := None;
    }

    /** `fetchCategories`: the cache when filled; otherwise "Any Category" followed by the fetched list, which is cached. */
    method FetchCategories(fetch: string -> CategoriesResponse) returns (r: Result<seq<Category>, string>)
      modifies this
      ensures lastSuccessAt == old(lastSuccessAt) && lastResults == old(lastResults)
      ensures old(cachedCategories).Some? ==> r == Success(old(cachedCategories).value) && cachedCategories == old(cachedCategories)
      ensures old(cachedCategories).None? ==>
        var resp := fetch(CategoriesUrl);
        match resp
        case CategoriesNetworkError(message) => r == Failure(message) && cachedCategories == None
        case CategoriesReply(status, cats) =>
          if IsOk(status) then r == Success([AnyCategory] + cats) && cachedCategories == Some([AnyCategory] + cats)
          else r == Failure(CategoriesFailedMessage) && cachedCategories == None
    {
      if cachedCategories.Some? {
        return Success(cachedCategories.value);
      }
      var resp := fetch(CategoriesUrl);
      match resp
      case CategoriesNetworkError(message) =>
        r := Failure(message);
      case CategoriesReply(status, cats) =>
        if !IsOk(status) {
          r := Failure(CategoriesFailedMessage);
        } else {
          cachedCategories := Some([AnyCategory] + cats);
          r := Success(cachedCategories.value);
        }
    }

    /**
     * `fetchQuizQuestions`: requests the URL built from the defaulted
     * options and follows `Plan`; only a freshly mapped result refreshes the
     * 429 fallback and its time.
     */
    method FetchQuizQuestions(options: FetchOptions, fetch: string -> QuestionsResponse,
                              decode: string -> string, now: int)
      returns (url: string, r: Result<seq<Question>, string>)
      modifies this
      ensures url == ApiUrl(options.amount.GetOr(10), options.category.GetOr("any"), options.difficulty.GetOr("any"))
      ensures cachedCategories == old(cachedCategories)
      ensures var p := Plan(fetch(url), old(lastResults));
        match p
        case ServeCached(qs) => r == Success(qs) && unchanged(this)
        case Fail(message) => r == Failure(message) && unchanged(this)
        case MapResults(raws) =>
          r.Success? && |r.value| == |raws| &&
          (forall i :: 0 <= i < |raws| ==> MappedFrom(raws[i], r.value[i], decode)) &&
          lastResults == Some(r.value) && lastSuccessAt == now
    {
      url := ApiUrl(options.amount.GetOr(10), options.category.GetOr("any"), options.difficulty.GetOr("any"));
      var plan := Plan(fetch(url), lastResults);
      match plan
      case ServeCached(qs) =>
        r := Success(qs);
      case Fail(message) =>
        r := Failure(message);
      case MapResults(raws) =>
        var mapped := MapQuestions(raws, decode);
        lastResults := Some(mapped);
        lastSuccessAt := now;
        r := Success(mapped);
    }
  }
}
