/** Relevance screening of one paper by title and keywords through a language
    model. The model call and `json.loads` are parameters: `llm` answers the
    prompt built from the title and the keyword text with the response text
    (or the message of the exception it raised), and `loads` parses text into
    a JSON value (or gives the `JSONDecodeError` message). */
module Screening {
  import opened Wrappers
  import opened PyJson
  import Text

  /** The verdict dict the module builds itself: not relevant, score 0.0. */
  function Verdict(reasoning: string): Json {
    JObj([("relevant", JBool(false)), ("score", JFloat(0.0)), ("reasoning", JStr(reasoning))])
  }

  /** `s[:n]`. */
  function Prefix(s: string, n: nat): (r: string)
    ensures |r| <= n && Text.StartsWith(s, r)
    ensures |s| <= n ==> r == s
  {
    if |s| <= n then s else s[..n]
  }

  /** The keyword text put in the prompt: `", ".join(keywords)` when the
      keywords are truthy, the word `None` otherwise. */
  function KeywordsText(keywords: Json): (r: Result<string>)
    ensures !Truthy(keywords) ==> r == Success("None")
    ensures Truthy(keywords) ==> r == JoinJson(", ", keywords)
  {
    if Truthy(keywords) then JoinJson(", ", keywords) else Success("None")
  }

  /** A non-empty list of keyword strings is rendered as their `, `-join. */
  lemma KeywordListText(ks: seq<string>)
    requires ks != []
    ensures KeywordsText(JArr(seq(|ks|, i requires 0 <= i < |ks| => JStr(ks[i])))) == Success(Text.Join(", ", ks))
  {
    JoinJsonStrings(", ", ks);
  }

  /** The keys the reply is made to have. */
  predicate Required(k: string) {
    k == "reasoning" || k == "score" || k == "relevant"
  }

  /** The default each missing key receives. */
  function DefaultFor(k: string): Json {
    if k == "reasoning" then JStr("No reasoning provided")
    else if k == "score" then JFloat(0.0)
    else JBool(false)
  }

  /** The required keys a dict lacks, in the order they are added. */
  function MissingKeys(fields: seq<(string, Json)>): (ks: seq<string>)
    ensures forall k :: k in ks <==> Required(k) && k !in Keys(fields)
  {
    (if "reasoning" in Keys(fields) then [] else ["reasoning"])
    + (if "score" in Keys(fields) then [] else ["score"])
    + (if "relevant" in Keys(fields) then [] else ["relevant"])
  }

  /** One of the three guarded assignments: `if k not in result: result[k] = default`. */
  function AddDefault(result: Json, k: string): Result<Json> {
    match In(k, result)
    case Failure(e) => Failure(e)
    case Success(present) => if present then Success(result) else SetItem(result, k, DefaultFor(k))
  }

  /** The three guarded assignments in order; the first failure ends them. */
  function FillSpec(parsed: Json): Result<Json> {
    match AddDefault(parsed, "reasoning")
    case Failure(e) => Failure(e)
    case Success(r1) =>
      match AddDefault(r1, "score")
      case Failure(e) => Failure(e)
      case Success(r2) => AddDefault(r2, "relevant")
  }

  /** A required key keeps its value when present and gets its default otherwise. */
  predicate FilledKey(before: seq<(string, Json)>, after: seq<(string, Json)>, k: string) {
    Lookup(after, k) == if k in Keys(before) then Lookup(before, k) else Some(DefaultFor(k))
  }

  /** What filling the defaults into a parsed reply produces. A dict keeps
      its keys in order, gains the missing required keys at the end with
      their defaults, and keeps every present value as it is (no clamping of
      the score, no derivation of `relevant`). A list or a string passes
      unchanged when all three key names are in it (`in` tests elements or
      substrings) and fails on the first assignment otherwise; any other
      value fails on the first `in` test. */
  ghost predicate Filled(parsed: Json, r: Result<Json>) {
    match parsed
    case JObj(fields) =>
      && r.Success? && r.value.JObj?
      && Keys(r.value.fields) == Keys(fields) + MissingKeys(fields)
      && FilledKey(fields, r.value.fields, "reasoning")
      && FilledKey(fields, r.value.fields, "score")
      && FilledKey(fields, r.value.fields, "relevant")
      && (forall k | !Required(k) :: Lookup(r.value.fields, k) == Lookup(fields, k))
    case JArr(items) =>
      if JStr("reasoning") in items && JStr("score") in items && JStr("relevant") in items then r == Success(parsed)
      else r == Failure("list indices must be integers or slices, not str")
    case JStr(s) =>
      if Text.Contains(s, "reasoning") && Text.Contains(s, "score") && Text.Contains(s, "relevant") then r == Success(parsed)
      else r == Failure("'" + TypeName(parsed) + "' object does not support item assignment")
    case _ =>
      r == Failure("argument of type '" + TypeName(parsed) + "' is not iterable")
  }

  lemma KeysAppend(fields: seq<(string, Json)>, k: string, v: Json)
    ensures Keys(fields + [(k, v)]) == Keys(fields) + [k]
  {
  }

  /** The effect of one guarded assignment on a dict. */
  lemma AddDefaultObj(fields: seq<(string, Json)>, k: string)
    ensures AddDefault(JObj(fields), k).Success?
    ensures var r := AddDefault(JObj(fields), k).value;
      && r.JObj?
      && Keys(r.fields) == Keys(fields) + (if k in Keys(fields) then [] else [k])
      && Lookup(r.fields, k) == (if k in Keys(fields) then Lookup(fields, k) else Some(DefaultFor(k)))
      && (forall k' | k' != k :: Lookup(r.fields, k') == Lookup(fields, k'))
  {
    if k !in Keys(fields) {
      KeysAppend(fields, k, DefaultFor(k));
    }
  }

  lemma FillObj(f0: seq<(string, Json)>)
    ensures Filled(JObj(f0), FillSpec(JObj(f0)))
  {
    FillObjKeys(f0);
    FillObjValues(f0);
    FillObjOthers(f0);
  }

  /** The three dicts the guarded assignments go through. */
  lemma FillSteps(f0: seq<(string, Json)>)
    returns (f1: seq<(string, Json)>, f2: seq<(string, Json)>, f3: seq<(string, Json)>)
    ensures AddDefault(JObj(f0), "reasoning") == Success(JObj(f1))
    ensures AddDefault(JObj(f1), "score") == Success(JObj(f2))
    ensures AddDefault(JObj(f2), "relevant") == Success(JObj(f3))
    ensures FillSpec(JObj(f0)) == Success(JObj(f3))
  {
    AddDefaultObj(f0, "reasoning");
    f1 := AddDefault(JObj(f0), "reasoning").value.fields;
    AddDefaultObj(f1, "score");
    f2 := AddDefault(JObj(f1), "score").value.fields;
    AddDefaultObj(f2, "relevant");
    f3 := AddDefault(JObj(f2), "relevant").value.fields;
  }

  lemma FillObjKeys(f0: seq<(string, Json)>)
    ensures FillSpec(JObj(f0)).Success? && FillSpec(JObj(f0)).value.JObj?
    ensures Keys(FillSpec(JObj(f0)).value.fields) == Keys(f0) + MissingKeys(f0)
  {
    var f1, f2, f3 := FillSteps(f0);
    AddDefaultObj(f0, "reasoning");
    AddDefaultObj(f1, "score");
    AddDefaultObj(f2, "relevant");
    FillKeys(f0, f1, f2, f3);
  }

  lemma FillObjValues(f0: seq<(string, Json)>)
    ensures FillSpec(JObj(f0)).Success? && FillSpec(JObj(f0)).value.JObj?
    ensures var f3 := FillSpec(JObj(f0)).value.fields;
      FilledKey(f0, f3, "reasoning") && FilledKey(f0, f3, "score") && FilledKey(f0, f3, "relevant")
  {
    var f1, f2, f3 := FillSteps(f0);
    AddDefaultObj(f0, "reasoning");
    AddDefaultOther(f1, "score", "reasoning");
    AddDefaultOther(f2, "relevant", "reasoning");
    AddDefaultOther(f0, "reasoning", "score");
    AddDefaultObj(f1, "score");
    AddDefaultOther(f2, "relevant", "score");
    AddDefaultOther(f0, "reasoning", "relevant");
    AddDefaultOther(f1, "score", "relevant");
    AddDefaultObj(f2, "relevant");
  }

  /** A guarded assignment leaves every other key as it was. */
  lemma AddDefaultOther(fields: seq<(string, Json)>, k: string, k': string)
    requires k' != k
    ensures AddDefault(JObj(fields), k).Success? && AddDefault(JObj(fields), k).value.JObj?
    ensures var r := AddDefault(JObj(fields), k).value.fields;
      Lookup(r, k') == Lookup(fields, k') && (k' in Keys(r) <==> k' in Keys(fields))
  {
    AddDefaultObj(fields, k);
  }

  lemma FillObjOthers(f0: seq<(string, Json)>)
    ensures FillSpec(JObj(f0)).Success? && FillSpec(JObj(f0)).value.JObj?
    ensures forall k | !Required(k) :: Lookup(FillSpec(JObj(f0)).value.fields, k) == Lookup(f0, k)
  {
    var f1, f2, f3 := FillSteps(f0);
    AddDefaultObj(f0, "reasoning");
    AddDefaultObj(f1, "score");
    AddDefaultObj(f2, "relevant");
  }

  /** The key order after the three guarded assignments. */
  lemma FillKeys(f0: seq<(string, Json)>, f1: seq<(string, Json)>, f2: seq<(string, Json)>, f3: seq<(string, Json)>)
    requires Keys(f1) == Keys(f0) + (if "reasoning" in Keys(f0) then [] else ["reasoning"])
    requires Keys(f2) == Keys(f1) + (if "score" in Keys(f1) then [] else ["score"])
    requires Keys(f3) == Keys(f2) + (if "relevant" in Keys(f2) then [] else ["relevant"])
    ensures Keys(f3) == Keys(f0) + MissingKeys(f0)
  {
    assert "score" in Keys(f1) <==> "score" in Keys(f0);
    assert "relevant" in Keys(f1) <==> "relevant" in Keys(f0);
    assert "relevant" in Keys(f2) <==> "relevant" in Keys(f0);
    var a: seq<string> := if "reasoning" in Keys(f0) then [] else ["reasoning"];
    var b: seq<string> := if "score" in Keys(f0) then [] else ["score"];
    var c: seq<string> := if "relevant" in Keys(f0) then [] else ["relevant"];
    assert MissingKeys(f0) == a + b + c;
    ConcatChain(Keys(f0), a, b, c);
  }

  lemma ConcatChain(k0: seq<string>, a: seq<string>, b: seq<string>, c: seq<string>)
    ensures k0 + a + b + c == k0 + (a + b + c)
  {
  }

  /** The guarded assignments do what the comment above them promises. */
  lemma FillSpecFilled(parsed: Json)
    ensures Filled(parsed, FillSpec(parsed))
  {
    match parsed
    case JObj(f0) => FillObj(f0);
    case _ =>
  }

  /** Lines 74-80: the three membership tests and default assignments, in
      order, on the value `json.loads` produced. */
  method FillDefaults(parsed: Json) returns (r: Result<Json>)
    ensures r == FillSpec(parsed)
  {
    var result := parsed;
    var has := In("reasoning", result);
    if has.Failure? { return Failure(has.error); }
    if !has.value {
      var stored := SetItem(result, "reasoning", JStr("No reasoning provided"));
      if stored.Failure? { return stored; }
      result := stored.value;
    }
    assert AddDefault(parsed, "reasoning") == Success(result);
    ghost var r1 := result;
    has := In("score", result);
    if has == Success(false) {
      var stored := SetItem(result, "score", JFloat(0.0));
      if stored.Failure? { return stored; }
      result := stored.value;
    }
    assert AddDefault(r1, "score") == Success(result);
    ghost var r2 := result;
    has := In("relevant", result);
    if has == Success(false) {
      var stored := SetItem(result, "relevant", JBool(false));
      if stored.Failure? { return stored; }
      result := stored.value;
    }
    assert AddDefault(r2, "relevant") == Success(result);
    r := Success(result);
  }

  /** What `screen_paper_by_metadata(title, keywords)` returns. `Failure`
      means the call raised: only the keyword join, which sits outside the
      `try`, can. A verdict that is not a dict can only be an LLM reply that
      parsed to something other than a dict and already held the three keys. */
  function MetadataVerdict(title: Json, keywords: Json, llm: (Json, string) -> Result<string>,
                           loads: string -> Result<Json>): (r: Result<Json>)
    ensures !Truthy(title) ==> r == Success(Verdict("Missing title"))
    ensures r.Failure? <==> Truthy(title) && KeywordsText(keywords).Failure?
    ensures r.Failure? ==> r.error == KeywordsText(keywords).error
    ensures Truthy(title) && KeywordsText(keywords).Success? ==>
      var response := llm(title, KeywordsText(keywords).value);
      && (response.Failure? ==> r.value == Verdict("Screening error: " + response.error))
      && (response.Success? && loads(response.value).Failure? ==>
            r.value == Verdict("LLM response parsing error: " + loads(response.value).error
                               + ". Raw: " + Prefix(response.value, 200)))
      && (response.Success? && loads(response.value).Success? ==>
            var filled := FillSpec(loads(response.value).value);
            r.value == if filled.Success? then filled.value else Verdict("Screening error: " + filled.error))
    ensures r.Success? && !r.value.JObj? ==>
      && Truthy(title) && KeywordsText(keywords).Success?
      && var response := llm(title, KeywordsText(keywords).value);
         response.Success? && loads(response.value).Success? && !loads(response.value).value.JObj?
  {
    if !Truthy(title) then Success(Verdict("Missing title"))
    else match KeywordsText(keywords)
      case Failure(e) => Failure(e)
      case Success(kw) =>
        match llm(title, kw)
        case Failure(e) => Success(Verdict("Screening error: " + e))
        case Success(response) =>
          match loads(response)
          case Failure(e) => Success(Verdict("LLM response parsing error: " + e + ". Raw: " + Prefix(response, 200)))
          case Success(parsed) =>
            match FillSpec(parsed)
            case Failure(e) => Success(Verdict("Screening error: " + e))
            case Success(filled) => Success(filled)
  }

  /** `screen_paper_by_metadata(title, keywords)`, step by step. */
  method ScreenPaperByMetadata(title: Json, keywords: Json, llm: (Json, string) -> Result<string>,
                               loads: string -> Result<Json>) returns (r: Result<Json>)
    ensures r == MetadataVerdict(title, keywords, llm, loads)
  {
    if !Truthy(title) {
      return Success(Verdict("Missing title"));
    }
    var kw := KeywordsText(keywords);
    if kw.Failure? {
      return Failure(kw.error);
    }
    var response := llm(title, kw.value);
    if response.Failure? {
      return Success(Verdict("Screening error: " + response.error));
    }
    var parsed := loads(response.value);
    if parsed.Failure? {
      return Success(Verdict("LLM response parsing error: " + parsed.error + ". Raw: " + Prefix(response.value, 200)));
    }
    var filled := FillDefaults(parsed.value);
    if filled.Failure? {
      return Success(Verdict("Screening error: " + filled.error));
    }
    r := filled;
  }

  /** The error object `json.dumps({"error": str(e)})` encodes. */
  function ErrorObject(e: string): Json {
    JObj([("error", JStr(e))])
  }

  /** `result["pmid"] = ...` on the verdict, or the error object of the
      exception the screening or the assignment raised. The answer carries
      the pmid exactly when the verdict is a dict. */
  function WithPmid(v: Result<Json>, pmid: Json): (out: Json)
    ensures v.Failure? ==> out == ErrorObject(v.error)
    ensures v.Success? && v.value.JObj? ==> out == JObj(Assign(v.value.fields, "pmid", pmid))
    ensures v.Success? && !v.value.JObj? ==> out == ErrorObject(SetItem(v.value, "pmid", pmid).error)
    ensures (out.JObj? && Lookup(out.fields, "pmid") == Some(pmid)) <==> v.Success? && v.value.JObj?
  {
    match v
    case Failure(e) => ErrorObject(e)
    case Success(verdict) =>
      match SetItem(verdict, "pmid", pmid)
      case Failure(e) => ErrorObject(e)
      case Success(o) => o
  }

  /** The tool wrapper `screen_paper_json`: parses its input, screens the
      title and MeSH terms found in it and adds its `pmid` (default `""`) to
      the verdict; any exception on the way becomes an error object. The
      value returned is the one the wrapper serialises. */
  method ScreenPaperJson(paperJson: string, llm: (Json, string) -> Result<string>,
                         loads: string -> Result<Json>) returns (out: Json)
    ensures loads(paperJson).Failure? ==> out == ErrorObject(loads(paperJson).error)
    ensures loads(paperJson).Success? && !loads(paperJson).value.JObj? ==>
      out == ErrorObject("'" + TypeName(loads(paperJson).value) + "' object has no attribute 'get'")
    ensures loads(paperJson).Success? && loads(paperJson).value.JObj? ==>
      var paper := loads(paperJson).value;
      out == WithPmid(MetadataVerdict(Get(paper, "title", JStr("")).value, Get(paper, "mesh_terms", JArr([])).value, llm, loads),
                      Get(paper, "pmid", JStr("")).value)
    ensures loads(paperJson).Success? && loads(paperJson).value.JObj? ==>
      var paper := loads(paperJson).value;
      !Truthy(Get(paper, "title", JStr("")).value) ==>
        out == JObj(Verdict("Missing title").fields + [("pmid", Get(paper, "pmid", JStr("")).value)])
  {
    var parsed := loads(paperJson);
    if parsed.Failure? {
      return ErrorObject(parsed.error);
    }
    var paper := parsed.value;
    var title := Get(paper, "title", JStr(""));
    if title.Failure? {
      return ErrorObject(title.error);
    }
    var keywords := Get(paper, "mesh_terms", JArr([]));
    var result := ScreenPaperByMetadata(title.value, keywords.value, llm, loads);
    if result.Failure? {
      return ErrorObject(result.error);
    }
    var pmid := Get(paper, "pmid", JStr(""));
    var withPmid := SetItem(result.value, "pmid", pmid.value);
    if withPmid.Failure? {
      return ErrorObject(withPmid.error);
    }
    out := withPmid.value;
  }
}
