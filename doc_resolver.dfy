/**
 * DocResolver (doc_resolver.py): asks a language model to classify a document and to
 * summarise it, then reads the category and keyword lists out of the model's JSON answer.
 * The model's answers are collaborators: `classifier` is the answer text to the
 * classification prompt (built from the categories map and the document), `summarizer`
 * the answer text to the summary prompt, each None when get_model_answer raises, and
 * `loads` is json.loads (None when the text does not parse).
 */
module Resolver {
  import opened Wrappers
  import opened Dicts
  import opened PyText
  import opened Json

  /** One top-level entry of the categories map: a name-to-description dict, or any other JSON value. */
  datatype Section = Dict(names: Table<JsonValue>) | Other(value: JsonValue)

  /** The categories map as loaded from config/category_map.json, in key order. */
  type CategoriesMap = Table<Section>

  /** What get_category_and_keywords reads out of an answer. */
  datatype Labels = Labels(categories: seq<JsonValue>, keywords: seq<JsonValue>)

  /** What resolve_doc returns. */
  datatype Resolution = Resolution(categories: seq<JsonValue>, keywords: seq<JsonValue>, summary: string)

  /** A candidate list that cannot be read: iterating it, or indexing one of its items by name, raises. */
  datatype ExtractError = BadCandidates(key: string)

  /** The three exceptions resolve_doc raises, and the one a failing call to the model raises. */
  datatype ResolveError = NoCategoryFound | NoCategoryOrKeywords | NoSummary | ModelFailed

  /** The fence characters lstrip("```json") removes: a set of characters, not a prefix. */
  const FenceHead: string := "```json"

  /** content.lstrip("```json").rstrip("```") */
  function StripFence(content: string): string
  {
    RStrip(LStrip(content, FenceHead), "```")
  }

  /** What is left neither starts with one of ` j s o n nor ends with a backtick. */
  lemma StripFenceEnds(content: string)
    ensures var r := StripFence(content);
      r != [] ==> !InChars(r[0], FenceHead) && !InChars(r[|r| - 1], "```")
  {
    var l := LStrip(content, FenceHead);
    LStripSpec(content, FenceHead);
    RStripSpec(l, "```");
  }

  /** Because lstrip takes a set of characters, any of them may lead, in any order: "nosj" is cut like "json". */
  lemma StripFenceCharSet(c: char, s: string)
    requires InChars(c, FenceHead)
    ensures StripFence([c] + s) == StripFence(s)
  {
    assert ([c] + s)[1..] == s;
  }

  predicate HasAnswerKeys(fields: map<string, JsonValue>)
  {
    "title" in fields && "candidate_category" in fields && "candidate_keyword" in fields
  }

  /** classify_doc.parse_response_json: the parsed object, or None unless it is an object with all three keys. */
  function ParseResponseJson(content: string, loads: string -> Option<JsonValue>): (r: Option<map<string, JsonValue>>)
    ensures r.Some? <==>
      loads(StripFence(content)).Some? && loads(StripFence(content)).value.JObj?
      && HasAnswerKeys(loads(StripFence(content)).value.fields)
    ensures r.Some? ==> loads(StripFence(content)) == Some(JObj(r.value))
  {
    match loads(StripFence(content))
    case Some(JObj(fields)) => if HasAnswerKeys(fields) then Some(fields) else None
    case _ => None
  }

  /**
   * What `for item in v` visits when every item is then indexed by a name. A list
   * gives its items; an empty dict or string gives nothing; a non-empty dict or string
   * gives str keys or characters, which `item['category']` rejects, and any other
   * value is not iterable: both raise, here None.
   */
  function Elements(v: JsonValue): Option<seq<JsonValue>>
  {
    match v
    case JArr(items) => Some(items)
    case JObj(fields) => if fields == map[] then Some([]) else None
    case JStr(s) => if s == [] then Some([]) else None
    case _ => None
  }

  /** [item[field] for item in items], raising when an item is not a dict holding field. */
  function Picks(items: seq<JsonValue>, field: string, key: string): (r: Result<seq<JsonValue>, ExtractError>)
    ensures r.Ok? ==> |r.value| == |items|
  {
    if items == [] then Ok([])
    else
      var item := items[|items| - 1];
      match Picks(items[..|items| - 1], field, key)
      case Err(e) => Err(e)
      case Ok(prev) =>
        if item.JObj? && field in item.fields then Ok(prev + [item.fields[field]])
        else Err(BadCandidates(key))
  }

  predicate IsEntry(item: JsonValue, field: string)
  {
    item.JObj? && field in item.fields
  }

  /** Picking succeeds exactly when every item is a dict holding field, and then keeps the items' order. */
  lemma {:induction false} PicksSpec(items: seq<JsonValue>, field: string, key: string)
    ensures Picks(items, field, key).Ok? <==> forall i :: 0 <= i < |items| ==> IsEntry(items[i], field)
    ensures Picks(items, field, key).Ok? ==>
      forall i :: 0 <= i < |items| ==> Picks(items, field, key).value[i] == items[i].fields[field]
  {
    if items != [] {
      var n := |items| - 1;
      PicksSpec(items[..n], field, key);
      if !IsEntry(items[n], field) {
        assert Picks(items, field, key).Err?;
      }
      if Picks(items, field, key).Ok? {
        forall i | 0 <= i < n
          ensures Picks(items, field, key).value[i] == items[i].fields[field]
        {
          assert items[..n][i] == items[i];
        }
      } else {
        if forall i :: 0 <= i < n ==> IsEntry(items[..n][i], field) {
          assert !IsEntry(items[n], field);
        } else {
          var i :| 0 <= i < n && !IsEntry(items[..n][i], field);
          assert items[..n][i] == items[i];
        }
      }
    }
  }

  /** answer_dict.get(key, []) run through the loop that collects item[field]. */
  function Candidates(answer: map<string, JsonValue>, key: string, field: string): Result<seq<JsonValue>, ExtractError>
  {
    var v := if key in answer then answer[key] else JArr([]);
    match Elements(v)
    case None => Err(BadCandidates(key))
    case Some(items) => Picks(items, field, key)
  }

  /** get_category_and_keywords as a value: the category list falls back to ['others'], the keyword list does not. */
  function Extracted(answer: map<string, JsonValue>): (r: Result<Labels, ExtractError>)
    ensures r.Ok? ==> r.value.categories != []
    ensures r.Ok? <==>
      Candidates(answer, "candidate_category", "category").Ok? && Candidates(answer, "candidate_keyword", "keyword").Ok?
  {
    match Candidates(answer, "candidate_category", "category")
    case Err(e) => Err(e)
    case Ok(cs) =>
      match Candidates(answer, "candidate_keyword", "keyword")
      case Err(e) => Err(e)
      case Ok(ks) => Ok(Labels(if cs == [] then [JStr("others")] else cs, ks))
  }

  /** A missing candidate list counts as an empty one. */
  lemma MissingCandidates(answer: map<string, JsonValue>)
    requires "candidate_category" !in answer && "candidate_keyword" !in answer
    ensures Extracted(answer) == Ok(Labels([JStr("others")], []))
  {
    assert Picks([], "category", "candidate_category") == Ok([]);
  }

  /**
   * With both candidate lists made of dicts holding their field, the categories are the
   * 'category' fields and the keywords the 'keyword' fields, in order, and only an empty
   * category list turns into ['others'].
   */
  lemma ExtractedFields(answer: map<string, JsonValue>, cs: seq<JsonValue>, ks: seq<JsonValue>)
    requires answer.Keys >= {"candidate_category", "candidate_keyword"}
    requires answer["candidate_category"] == JArr(cs) && answer["candidate_keyword"] == JArr(ks)
    requires forall i :: 0 <= i < |cs| ==> IsEntry(cs[i], "category")
    requires forall i :: 0 <= i < |ks| ==> IsEntry(ks[i], "keyword")
    ensures Extracted(answer).Ok?
    ensures var l := Extracted(answer).value;
      && (cs == [] ==> l.categories == [JStr("others")])
      && (cs != [] ==> |l.categories| == |cs|)
      && (cs != [] ==> forall i :: 0 <= i < |cs| ==> IsEntry(cs[i], "category") && l.categories[i] == cs[i].fields["category"])
      && |l.keywords| == |ks|
      && forall i :: 0 <= i < |ks| ==> IsEntry(ks[i], "keyword") && l.keywords[i] == ks[i].fields["keyword"]
  {
    PicksSpec(cs, "category", "candidate_category");
    PicksSpec(ks, "keyword", "candidate_keyword");
  }

  /** A candidate list that is neither a list nor empty makes the extraction raise. */
  lemma ExtractedRejects(answer: map<string, JsonValue>, key: string)
    requires key == "candidate_category" || key == "candidate_keyword"
    requires key in answer && Elements(answer[key]).None?
    ensures Extracted(answer).Err?
  {
  }

  class DocResolver {
    const model: string
    const userDir: string
    var categoriesMap: Option<CategoriesMap>
    /** The language model's answer to the classification prompt for a categories map and a document. */
    const classifier: (Option<CategoriesMap>, string) -> Option<string>
    /** The language model's answer to the summary prompt for a document. */
    const summarizer: string -> Option<string>
    const loads: string -> Option<JsonValue>

    constructor (userDir: string, model: string, classifier: (Option<CategoriesMap>, string) -> Option<string>,
                 summarizer: string -> Option<string>, loads: string -> Option<JsonValue>)
      ensures this.userDir == userDir && this.model == model && categoriesMap == None
      ensures this.classifier == classifier && this.summarizer == summarizer && this.loads == loads
    {
      this.model := model;
      this.userDir := userDir;
      this.categoriesMap := None;
      this.classifier := classifier;
      this.summarizer := summarizer;
      this.loads := loads;
    }

    method SetCategoriesMap(m: CategoriesMap)
      modifies this
      ensures categoriesMap == Some(m)
    {
      categoriesMap := Some(m);
    }

    /**
     * classify_doc: the parsed answer, or None when it does not parse or lacks a key. A
     * failing call to the model raises out of classify_doc; the parse failure does not.
     */
    function ClassifyDoc(docContent: string): (r: Result<Option<map<string, JsonValue>>, ResolveError>)
      reads this
      ensures r.Err? <==> classifier(categoriesMap, docContent).None?
      ensures r.Err? ==> r.error == ModelFailed
      ensures r.Ok? && r.value.Some? ==> HasAnswerKeys(r.value.value)
    {
      match classifier(categoriesMap, docContent)
      case None => Err(ModelFailed)
      case Some(answer) => Ok(ParseResponseJson(answer, loads))
    }

    /** summarize_doc: the model's answer as it comes, or the exception of a failing call. */
    function SummarizeDoc(docContent: string): (r: Result<string, ResolveError>)
      reads this
      ensures r.Ok? ==> summarizer(docContent) == Some(r.value)
      ensures r.Err? ==> r.error == ModelFailed && summarizer(docContent).None?
    {
      match summarizer(docContent)
      case None => Err(ModelFailed)
      case Some(summary) => Ok(summary)
    }

    /** get_category_and_keywords, with its two collecting loops. */
    method GetCategoryAndKeywords(answer: map<string, JsonValue>) returns (r: Result<Labels, ExtractError>)
      ensures r == Extracted(answer)
      ensures r.Ok? ==> r.value.categories != []
    {
      var categories := Collect(answer, "candidate_category", "category");
      if categories.Err? {
        return Err(categories.error);
      }
      var keywords := Collect(answer, "candidate_keyword", "keyword");
      if keywords.Err? {
        return Err(keywords.error);
      }
      var category := categories.value;
      if category == [] {
        category := [JStr("others")];
      }
      r := Ok(Labels(category, keywords.value));
    }

    /** One collecting loop: `for item in answer_dict.get(key, []): out.append(item[field])`. */
    method Collect(answer: map<string, JsonValue>, key: string, field: string) returns (r: Result<seq<JsonValue>, ExtractError>)
      ensures r == Candidates(answer, key, field)
    {
      var v := if key in answer then answer[key] else JArr([]);
      var items := Elements(v);
      if items.None? {
        return Err(BadCandidates(key));
      }
      var out: seq<JsonValue> := [];
      var i := 0;
      while i < |items.value|
        invariant 0 <= i <= |items.value|
        invariant Picks(items.value[..i], field, key) == Ok(out)
      {
        var item := items.value[i];
        assert items.value[..i + 1][..i] == items.value[..i];
        if !(item.JObj? && field in item.fields) {
          assert Picks(items.value[..i + 1], field, key).Err?;
          PicksFails(items.value, field, key, i + 1);
          return Err(BadCandidates(key));
        }
        out := out + [item.fields[field]];
        i := i + 1;
      }
      assert items.value[..i] == items.value;
      r := Ok(out);
    }

    /**
     * resolve_doc: classification, extraction and summary, each of which may raise. An
     * extraction failure is reported like an empty keyword list.
     */
    method ResolveDoc(docContent: string) returns (r: Result<Resolution, ResolveError>)
      ensures ClassifyDoc(docContent).Err? ==> r == Err(ModelFailed)
      ensures ClassifyDoc(docContent) == Ok(None) ==> r == Err(NoCategoryFound)
      ensures ClassifyDoc(docContent).Ok? && ClassifyDoc(docContent).value.Some?
              && !Usable(Extracted(ClassifyDoc(docContent).value.value)) ==>
        r == Err(NoCategoryOrKeywords)
      ensures ClassifyDoc(docContent).Ok? && ClassifyDoc(docContent).value.Some?
              && Usable(Extracted(ClassifyDoc(docContent).value.value)) ==>
        var l := Extracted(ClassifyDoc(docContent).value.value).value;
        r == match SummarizeDoc(docContent)
             case Err(e) => Err(e)
             case Ok(summary) => if summary == [] then Err(NoSummary) else Ok(Resolution(l.categories, l.keywords, summary))
      ensures r.Ok? ==> r.value.categories != [] && r.value.keywords != [] && r.value.summary != []
    {
      var answer := ClassifyDoc(docContent);
      if answer.Err? {
        return Err(answer.error);
      }
      if answer.value.None? {
        return Err(NoCategoryFound);
      }
      var labels := GetCategoryAndKeywords(answer.value.value);
      if labels.Err? || labels.value.categories == [] || labels.value.keywords == [] {
        return Err(NoCategoryOrKeywords);
      }
      var summary := SummarizeDoc(docContent);
      if summary.Err? {
        return Err(summary.error);
      }
      if summary.value == [] {
        return Err(NoSummary);
      }
      r := Ok(Resolution(labels.value.categories, labels.value.keywords, summary.value));
    }
  }

  /** An extraction resolve_doc accepts: it succeeded and found at least one keyword. */
  predicate Usable(e: Result<Labels, ExtractError>)
  {
    e.Ok? && e.value.keywords != []
  }

  /** Once a prefix of the items fails to pick, so do all the items. */
  lemma {:induction false} PicksFails(items: seq<JsonValue>, field: string, key: string, n: nat)
    requires n <= |items| && Picks(items[..n], field, key).Err?
    decreases |items| - n
    ensures Picks(items, field, key) == Err(BadCandidates(key))
  {
    if n < |items| {
      assert items[..n + 1][..n] == items[..n];
      PicksFails(items, field, key, n + 1);
    } else {
      assert items[..n] == items;
      PicksErr(items, field, key);
    }
  }

  /** Every failure of Picks names the list's key. */
  lemma {:induction false} PicksErr(items: seq<JsonValue>, field: string, key: string)
    ensures Picks(items, field, key).Err? ==> Picks(items, field, key) == Err(BadCandidates(key))
  {
    if items != [] {
      PicksErr(items[..|items| - 1], field, key);
    }
  }
}
