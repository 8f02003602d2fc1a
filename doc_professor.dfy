/**
 * DocProfessor (doc_professor.py): keeps the categories map and the table of documents
 * waiting to be resolved, and runs each waiting document through classification,
 * filing and study. Filesystem actions (moving the document, writing its info and
 * summary files) are not performed: resolve_docs returns them, in order, as Effects.
 */
module Professor {
  import opened Wrappers
  import opened Dicts
  import opened PyText
  import opened Json
  import opened Resolver
  import KnowledgeDb
  import Knowledge
  import Study

  const CategoryKey: string := "candidate_category"
  const KeywordKey: string := "candidate_keyword"

  /** The window resolve_docs studies with: study_doc's default. */
  const StudyWindow: int := 500

  /** The exceptions that escape the professor's operations. */
  datatype ProfessorError =
    | NotLoaded             // categories_map is still None
    | MissingSection(key: string)
    | NotADict(key: string) // the section is there but is not a dict
    | NonStringLabel        // the model named a category or keyword with something other than a string
    | LoadFailed            // the map file could not be read as a JSON object

  /** Every dict in the map lists each of its keys once. */
  ghost predicate MapValid(m: CategoriesMap)
  {
    WellFormed(m) && forall k :: k in m.entries && m.entries[k].Dict? ==> WellFormed(m.entries[k].names)
  }

  ghost predicate MaybeValid(m: Option<CategoriesMap>)
  {
    m.Some? ==> MapValid(m.value)
  }

  /** categories_map[key] when it is a dict; otherwise the error that subscripting or assigning into it raises. */
  function SectionOf(m: Option<CategoriesMap>, key: string): Result<Table<JsonValue>, ProfessorError>
  {
    if m.None? then Err(NotLoaded)
    else if key !in m.value.entries then Err(MissingSection(key))
    else match m.value.entries[key]
      case Dict(names) => Ok(names)
      case Other(_) => Err(NotADict(key))
  }

  /**
   * The map after `for k, d in u.items(): categories_map[key][k] = d`. The error comes
   * with the first item, so nothing is written before it and an empty u never raises.
   */
  function Updated(m: Option<CategoriesMap>, key: string, u: Table<JsonValue>): (r: Result<Option<CategoriesMap>, ProfessorError>)
    requires MaybeValid(m) && WellFormed(u)
    ensures r.Ok? ==> MaybeValid(r.value)
    ensures u.order == [] ==> r == Ok(m)
    ensures u.order != [] ==> (r.Ok? <==> SectionOf(m, key).Ok?)
    ensures u.order != [] && r.Err? ==> r == Err(SectionOf(m, key).error)
  {
    if u.order == [] then Ok(m)
    else match SectionOf(m, key)
      case Err(e) => Err(e)
      case Ok(s) => Ok(Some(Put(m.value, key, Dict(PutAll(s, u, |u.order|)))))
  }

  /**
   * A successful update gives every key of u its value in the section, leaves the
   * section's other keys and every other section alone, and keeps the section's old
   * keys first, in their old order.
   */
  lemma UpdatedSpec(m: Option<CategoriesMap>, key: string, u: Table<JsonValue>)
    requires MaybeValid(m) && WellFormed(u) && u.order != [] && SectionOf(m, key).Ok?
    ensures var s := SectionOf(m, key).value;
      var m' := Updated(m, key, u).value;
      && SectionOf(m', key).Ok? && m'.value.order == m.value.order
      && (forall k :: k in u.entries ==> Lookup(SectionOf(m', key).value, k) == Some(u.entries[k]))
      && (forall k :: k !in u.entries ==> Lookup(SectionOf(m', key).value, k) == Lookup(s, k))
      && (forall k :: k != key ==> Lookup(m'.value, k) == Lookup(m.value, k))
      && |s.order| <= |SectionOf(m', key).value.order|
      && SectionOf(m', key).value.order[..|s.order|] == s.order
  {
    var s := SectionOf(m, key).value;
    var n := |u.order|;
    var t := PutAll(s, u, n);
    assert Updated(m, key, u) == Ok(Some(Put(m.value, key, Dict(t))));
    forall k | k in u.entries
      ensures Lookup(t, k) == Some(u.entries[k])
    {
      var i :| 0 <= i < n && u.order[i] == k;
      PutAllUpdated(s, u, n, i);
    }
    forall k | k !in u.entries
      ensures Lookup(t, k) == Lookup(s, k)
    {
      assert u.order[..n] == u.order;
      PutAllUntouched(s, u, n, k);
    }
    PutAllKeepsOrder(s, u, n);
  }

  /** get_candidate_category / get_candidate_keyword: the section's keys in order, or [] when reading them raises. */
  function CandidateNames(m: Option<CategoriesMap>, key: string): (r: seq<string>)
    requires MaybeValid(m)
    ensures SectionOf(m, key).Err? ==> r == []
    ensures SectionOf(m, key).Ok? ==> Distinct(r) && forall k :: k in r <==> k in SectionOf(m, key).value.entries
  {
    match SectionOf(m, key)
    case Ok(s) => s.order
    case Err(_) => []
  }

  /** After a successful non-empty update the candidates are the old ones, in order, followed by the new keys. */
  lemma CandidatesAfterUpdate(m: Option<CategoriesMap>, key: string, u: Table<JsonValue>)
    requires MaybeValid(m) && WellFormed(u) && u.order != [] && SectionOf(m, key).Ok?
    ensures var before := CandidateNames(m, key);
      var after := CandidateNames(Updated(m, key, u).value, key);
      && |before| <= |after| && after[..|before|] == before
      && forall k :: k in after <==> k in before || k in u.entries
  {
    UpdatedSpec(m, key, u);
  }

  /** The labels of a list that holds only strings; None when some label is not a string. */
  function Texts(vs: seq<JsonValue>): (r: Option<seq<string>>)
    ensures r.Some? <==> forall i :: 0 <= i < |vs| ==> vs[i].JStr?
    ensures r.Some? ==> |r.value| == |vs| && forall i :: 0 <= i < |vs| ==> vs[i] == JStr(r.value[i])
  {
    if vs == [] then Some([])
    else match Texts(vs[..|vs| - 1])
      case None => None
      case Some(prev) =>
        if vs[|vs| - 1].JStr? then Some(prev + [vs[|vs| - 1].s]) else None
  }

  /** The labels as the model gave them are these strings, in the same order. */
  predicate Names(labels: seq<JsonValue>, names: seq<string>)
  {
    |labels| == |names| && forall i :: 0 <= i < |names| ==> labels[i] == JStr(names[i])
  }

  /** A document that came through classification, extraction and summary. */
  datatype Classified = Classified(content: string, answer: map<string, JsonValue>,
                                   categories: seq<string>, keywords: seq<string>, summary: string)

  /** How far one document gets before its labels are written into the categories map. */
  datatype Prepared = NotReady | BadLabel | Ready(doc: Classified)

  /**
   * The try block of resolve_docs for the content in scope: no content yet, a failing call
   * to the model, an answer that does not parse or lacks a key, or a candidate list that
   * cannot be read all send the loop on to the next document. Only after all of that do the
   * labels become dict keys, outside the try block.
   */
  function Prepare(resolver: DocResolver, content: Option<string>): (r: Prepared)
    reads resolver
    ensures r.Ready? ==> content == Some(r.doc.content) && r.doc.categories != []
    ensures r.Ready? ==> resolver.ClassifyDoc(r.doc.content) == Ok(Some(r.doc.answer)) && Extracted(r.doc.answer).Ok?
    ensures r.Ready? ==> Names(Extracted(r.doc.answer).value.categories, r.doc.categories)
                         && Names(Extracted(r.doc.answer).value.keywords, r.doc.keywords)
    ensures r.Ready? ==> resolver.SummarizeDoc(r.doc.content) == Ok(r.doc.summary)
    ensures !r.NotReady? <==>
      && content.Some? && resolver.ClassifyDoc(content.value).Ok? && resolver.ClassifyDoc(content.value).value.Some?
      && Extracted(resolver.ClassifyDoc(content.value).value.value).Ok?
      && resolver.SummarizeDoc(content.value).Ok?
  {
    if content.None? then NotReady
    else match resolver.ClassifyDoc(content.value)
      case Err(_) => NotReady
      case Ok(None) => NotReady
      case Ok(Some(answer)) =>
        match Extracted(answer)
        case Err(_) => NotReady
        case Ok(l) =>
          match resolver.SummarizeDoc(content.value)
          case Err(_) => NotReady
          case Ok(summary) =>
            match (Texts(l.categories), Texts(l.keywords))
            case (Some(cs), Some(ks)) => Ready(Classified(content.value, answer, cs, ks, summary))
            case _ => BadLabel
  }

  /** A failing call to the model, for the classification or for the summary, skips the document. */
  lemma ModelFailureSkips(resolver: DocResolver, content: string)
    requires resolver.classifier(resolver.categoriesMap, content).None? || resolver.summarizer(content).None?
    ensures Prepare(resolver, Some(content)) == NotReady
  {
  }

  /** update_categories({c: '' for c in categories}) followed by update_keywords({k: '' for k in keywords}). */
  function Filed(m: Option<CategoriesMap>, doc: Classified): (r: Result<Option<CategoriesMap>, ProfessorError>)
    requires MaybeValid(m)
    ensures r.Ok? ==> MaybeValid(r.value)
  {
    match Updated(m, CategoryKey, FromKeys(doc.categories, JStr("")))
    case Err(e) => Err(e)
    case Ok(m1) => Updated(m1, KeywordKey, FromKeys(doc.keywords, JStr("")))
  }

  /**
   * The map a failed filing leaves behind: when the category update went through and the
   * keyword update raised, the categories stay written; when the category update raised,
   * the map is as it was.
   */
  function FiledUntilError(m: Option<CategoriesMap>, doc: Classified): (r: Option<CategoriesMap>)
    requires MaybeValid(m)
    ensures MaybeValid(r)
  {
    match Updated(m, CategoryKey, FromKeys(doc.categories, JStr("")))
    case Err(_) => m
    case Ok(m1) => m1
  }

  /** The map after the walk stops on a document that prepared as `p`. */
  function StoppedAt(m: Option<CategoriesMap>, p: Prepared): (r: Option<CategoriesMap>)
    requires MaybeValid(m)
    ensures MaybeValid(r)
  {
    if p.Ready? then FiledUntilError(m, p.doc) else m
  }

  /**
   * A filing whose keyword update raised still made all the document's categories
   * candidates, and left the keyword section as it was.
   */
  lemma FailedFilingKeepsCategories(m: Option<CategoriesMap>, doc: Classified)
    requires MaybeValid(m) && Filed(m, doc).Err?
    requires Updated(m, CategoryKey, FromKeys(doc.categories, JStr(""))).Ok?
    ensures forall c :: c in doc.categories ==> c in CandidateNames(FiledUntilError(m, doc), CategoryKey)
    ensures CandidateNames(FiledUntilError(m, doc), KeywordKey) == CandidateNames(m, KeywordKey)
  {
    var cs := FromKeys(doc.categories, JStr(""));
    FromKeysSpec(doc.categories, JStr(""));
    if doc.categories != [] {
      assert doc.categories[0] in cs.entries;
      CandidatesAfterUpdate(m, CategoryKey, cs);
      UpdatedSpec(m, CategoryKey, cs);
    }
  }

  /** Filing a document makes all its categories and keywords candidates. */
  lemma FiledNames(m: Option<CategoriesMap>, doc: Classified)
    requires MaybeValid(m) && Filed(m, doc).Ok?
    ensures forall c :: c in doc.categories ==> c in CandidateNames(Filed(m, doc).value, CategoryKey)
    ensures forall k :: k in doc.keywords ==> k in CandidateNames(Filed(m, doc).value, KeywordKey)
  {
    var cs := FromKeys(doc.categories, JStr(""));
    var ks := FromKeys(doc.keywords, JStr(""));
    FromKeysSpec(doc.categories, JStr(""));
    FromKeysSpec(doc.keywords, JStr(""));
    var m1 := Updated(m, CategoryKey, cs).value;
    if doc.categories != [] {
      assert doc.categories[0] in cs.entries;
      CandidatesAfterUpdate(m, CategoryKey, cs);
    }
    if ks.order != [] {
      CandidatesAfterUpdate(m1, KeywordKey, ks);
      UpdatedSpec(m1, KeywordKey, ks);
      assert SectionOf(Filed(m, doc).value, CategoryKey) == SectionOf(m1, CategoryKey);
    } else {
      assert forall k :: k !in doc.keywords;
    }
  }

  /** One document that resolve_docs marks as resolved. */
  datatype Filing = Filing(path: string, doc: Classified)

  function PathsOf(fs: seq<Filing>): (r: seq<string>)
    ensures |r| == |fs| && forall i :: 0 <= i < |fs| ==> r[i] == fs[i].path
  {
    if fs == [] then [] else PathsOf(fs[..|fs| - 1]) + [fs[|fs| - 1].path]
  }

  /** The map after filing each document in turn. */
  function FileAll(m: Option<CategoriesMap>, fs: seq<Filing>): (r: Result<Option<CategoriesMap>, ProfessorError>)
    requires MaybeValid(m)
    ensures r.Ok? ==> MaybeValid(r.value)
  {
    if fs == [] then Ok(m)
    else match FileAll(m, fs[..|fs| - 1])
      case Err(e) => Err(e)
      case Ok(m1) => Filed(m1, fs[|fs| - 1].doc)
  }

  /** The knowledge stores after studying each filed document in turn, with the study window of resolve_docs. */
  function StudyAll(md5: string -> string, embed: string -> seq<real>, tokenize: string -> seq<string>,
                    st: Knowledge.Stores, fs: seq<Filing>): (r: Knowledge.Stores)
    requires Knowledge.StoresValid(st)
    ensures Knowledge.StoresValid(r)
  {
    if fs == [] then st
    else Study.AddChunks(md5, embed, StudyAll(md5, embed, tokenize, st, fs[..|fs| - 1]),
                         Study.Chunks(fs[|fs| - 1].doc.content, tokenize, StudyWindow))
  }

  /** Filing one more document extends each of the folds by that document. */
  lemma FilingSnoc(m: Option<CategoriesMap>, md5: string -> string, embed: string -> seq<real>, tokenize: string -> seq<string>,
                   st: Knowledge.Stores, fs: seq<Filing>, f: Filing)
    requires MaybeValid(m) && Knowledge.StoresValid(st) && FileAll(m, fs).Ok?
    ensures PathsOf(fs + [f]) == PathsOf(fs) + [f.path]
    ensures FileAll(m, fs + [f]) == Filed(FileAll(m, fs).value, f.doc)
    ensures StudyAll(md5, embed, tokenize, st, fs + [f])
         == Study.AddChunks(md5, embed, StudyAll(md5, embed, tokenize, st, fs), Study.Chunks(f.doc.content, tokenize, StudyWindow))
  {
    assert (fs + [f])[..|fs|] == fs;
  }

  /** A document not yet filed, and not filed now, stays unfiled. */
  lemma UnfiledStays(paths: seq<string>, i: nat, fs: seq<Filing>, f: Filing)
    requires Distinct(paths) && i < |paths| && f.path == paths[i]
    requires forall j :: i <= j < |paths| ==> paths[j] !in PathsOf(fs)
    ensures forall j :: i + 1 <= j < |paths| ==> paths[j] !in PathsOf(fs + [f])
  {
    assert (fs + [f])[..|fs|] == fs;
  }

  /** The loop state of resolve_docs over a prefix of the documents: the content in scope and the documents filed. */
  datatype Progress = Progress(last: Option<string>, filed: seq<Filing>)

  /**
   * Walks the documents in order, as resolve_docs does. A document with status 1 is
   * skipped before it is read. Otherwise a failed read leaves the content of the
   * previous document in scope, and the document is filed when it prepares.
   */
  function Scan(resolver: DocResolver, readDoc: string -> Option<string>, statuses: map<string, int>, paths: seq<string>, n: nat): (p: Progress)
    requires n <= |paths|
    reads resolver
  {
    if n == 0 then Progress(None, [])
    else
      var prev := Scan(resolver, readDoc, statuses, paths, n - 1);
      var path := paths[n - 1];
      if path !in statuses || statuses[path] == 1 then prev
      else
        var content := if readDoc(path).Some? then readDoc(path) else prev.last;
        Progress(content, prev.filed + Filings(resolver, path, content))
  }

  /** The document filed for one unresolved path: one filing when its content prepares, none otherwise. */
  function Filings(resolver: DocResolver, path: string, content: Option<string>): (r: seq<Filing>)
    reads resolver
  {
    match Prepare(resolver, content)
    case Ready(doc) => [Filing(path, doc)]
    case _ => []
  }

  /** Each step of the walk only appends to what has been filed. */
  lemma {:induction false} ScanGrows(resolver: DocResolver, readDoc: string -> Option<string>, statuses: map<string, int>,
                                     paths: seq<string>, i: nat)
    requires i <= |paths|
    ensures Scan(resolver, readDoc, statuses, paths, i).filed <= Scan(resolver, readDoc, statuses, paths, |paths|).filed
    decreases |paths| - i
  {
    if i < |paths| {
      ScanGrows(resolver, readDoc, statuses, paths, i + 1);
    }
  }

  /** A filesystem action of resolve_docs. */
  datatype Effect = Move(from: string, to: string) | WriteJson(path: string, value: JsonValue) | WriteText(path: string, text: string)

  class DocProfessor {
    const model: string
    const userDir: string
    const userDocDir: string
    const userTempDir: string
    const categoriesMapPath: string
    var categoriesMap: Option<CategoriesMap>
    /** documents_to_be_resolved: document path to status, 1 meaning resolved. */
    var documentsToBeResolved: Table<int>
    const resolver: DocResolver
    const learner: Study.DocStudy
    /** get_doc_content: the text of a document, or None when reading it raises. */
    const readDoc: string -> Option<string>

    ghost predicate Valid()
      reads this, learner.knowledgeRetrieval.knowledgeDb, learner.knowledgeRetrieval.vectorDb
    {
      WellFormed(documentsToBeResolved) && MaybeValid(categoriesMap) && learner.Valid()
    }

    /** The records and the vectors of the learner's two stores. */
    ghost function KnowledgeState(): Knowledge.Stores
      reads learner.knowledgeRetrieval.knowledgeDb, learner.knowledgeRetrieval.vectorDb
    {
      Knowledge.Stores(learner.knowledgeRetrieval.knowledgeDb.db, learner.knowledgeRetrieval.vectorDb.db)
    }

    /**
     * __init__: derives the working directories from user_dir and builds the resolver and
     * the learner, whose two stores live under user_dir/database/.
     */
    constructor (userDir: string, model: string,
                 classifier: (Option<CategoriesMap>, string) -> Option<string>, summarizer: string -> Option<string>,
                 loads: string -> Option<JsonValue>,
                 embed: string -> seq<real>, md5: string -> string, similarity: (seq<real>, seq<real>) -> real,
                 sentTokenize: string -> seq<string>, registry: KnowledgeDb.Registry,
                 persistedRecords: Table<JsonValue>, persistedVectors: Table<JsonValue>,
                 readDoc: string -> Option<string>)
      requires registry.Valid() && WellFormed(persistedRecords) && WellFormed(persistedVectors)
      modifies registry
      ensures Valid() && registry.Valid()
      ensures userDocDir == userDir + "data/" && userTempDir == userDir + "temp/"
      ensures categoriesMapPath == userDir + "config/category_map.json"
      ensures categoriesMap == None && documentsToBeResolved == Empty()
      ensures learner.sentTokenize == sentTokenize
      ensures learner.knowledgeRetrieval.md5 == md5 && learner.knowledgeRetrieval.embed == embed
    {
      this.model := model;
      this.userDir := userDir;
      this.userDocDir := userDir + "data/";
      this.userTempDir := userDir + "temp/";
      this.categoriesMapPath := userDir + "config/category_map.json";
      this.categoriesMap := None;
      this.documentsToBeResolved := Empty();
      this.readDoc := readDoc;
      this.resolver := new DocResolver(userDir, model, classifier, summarizer, loads);
      var knowledgePath := userDir + "database/knowledge_db.pkl";
      var vectorPath := userDir + "database/vector_db.pkl";
      assert knowledgePath[|userDir| + 9] != vectorPath[|userDir| + 9];
      this.learner := new Study.DocStudy(embed, md5, similarity, registry, knowledgePath, vectorPath,
                                         persistedRecords, persistedVectors, sentTokenize);
    }

    /** load_categories_map: `loaded` is what json.load reads from the map file, None when that raises. */
    method LoadCategoriesMap(loaded: Option<CategoriesMap>) returns (r: Outcome<ProfessorError>)
      requires Valid() && MaybeValid(loaded)
      modifies this
      ensures Valid() && documentsToBeResolved == old(documentsToBeResolved)
      ensures loaded.None? ==> r == Fail(LoadFailed) && categoriesMap == old(categoriesMap)
      ensures loaded.Some? ==> r == Pass && categoriesMap == loaded
    {
      if loaded.None? {
        return Fail(LoadFailed);
      }
      categoriesMap := loaded;
      r := Pass;
    }

    /**
     * The loop shared by update_categories and update_keywords. The section dict is changed
     * in place, one key per pass; nothing can observe the map between passes, so the
     * model writes into the section and stores it back once. Saving the map is not modelled.
     */
    method UpdateSection(key: string, u: Table<JsonValue>) returns (r: Outcome<ProfessorError>)
      requires Valid() && WellFormed(u)
      modifies this
      ensures Valid() && documentsToBeResolved == old(documentsToBeResolved)
      ensures Updated(old(categoriesMap), key, u).Ok? ==> r == Pass && categoriesMap == Updated(old(categoriesMap), key, u).value
      ensures Updated(old(categoriesMap), key, u).Err? ==>
        r == Fail(Updated(old(categoriesMap), key, u).error) && categoriesMap == old(categoriesMap)
    {
      if u.order == [] {
        return Pass;
      }
      var section := SectionOf(categoriesMap, key);
      if section.Err? {
        return Fail(section.error);
      }
      var names := PutEach(section.value, u);
      categoriesMap := Some(Put(categoriesMap.value, key, Dict(names)));
      r := Pass;
    }

    /** update_categories(categories) */
    method UpdateCategories(categories: Table<JsonValue>) returns (r: Outcome<ProfessorError>)
      requires Valid() && WellFormed(categories)
      modifies this
      ensures Valid() && documentsToBeResolved == old(documentsToBeResolved)
      ensures Updated(old(categoriesMap), CategoryKey, categories).Ok? ==>
        r == Pass && categoriesMap == Updated(old(categoriesMap), CategoryKey, categories).value
      ensures Updated(old(categoriesMap), CategoryKey, categories).Err? ==>
        r == Fail(Updated(old(categoriesMap), CategoryKey, categories).error) && categoriesMap == old(categoriesMap)
    {
      r := UpdateSection(CategoryKey, categories);
    }

    /** update_keywords(keywords) */
    method UpdateKeywords(keywords: Table<JsonValue>) returns (r: Outcome<ProfessorError>)
      requires Valid() && WellFormed(keywords)
      modifies this
      ensures Valid() && documentsToBeResolved == old(documentsToBeResolved)
      ensures Updated(old(categoriesMap), KeywordKey, keywords).Ok? ==>
        r == Pass && categoriesMap == Updated(old(categoriesMap), KeywordKey, keywords).value
      ensures Updated(old(categoriesMap), KeywordKey, keywords).Err? ==>
        r == Fail(Updated(old(categoriesMap), KeywordKey, keywords).error) && categoriesMap == old(categoriesMap)
    {
      r := UpdateSection(KeywordKey, keywords);
    }

    /**
     * The body shared by update_candidate_category_desc and update_candidate_keyword_desc:
     * one name of a section set to its description. Saving the map is not modelled.
     */
    method SetDescription(key: string, name: string, description: string) returns (r: Outcome<ProfessorError>)
      requires Valid()
      modifies this
      ensures Valid() && documentsToBeResolved == old(documentsToBeResolved)
      ensures SectionOf(old(categoriesMap), key).Err? ==>
        r == Fail(SectionOf(old(categoriesMap), key).error) && categoriesMap == old(categoriesMap)
      ensures SectionOf(old(categoriesMap), key).Ok? ==>
        r == Pass && categoriesMap == Some(Put(old(categoriesMap).value, key,
                                               Dict(Put(SectionOf(old(categoriesMap), key).value, name, JStr(description)))))
    {
      var u := Table([name], map[name := JStr(description)]);
      if SectionOf(categoriesMap, key).Ok? {
        var section := SectionOf(categoriesMap, key).value;
        assert PutAll(section, u, 1) == Put(section, name, JStr(description));
      }
      r := UpdateSection(key, u);
    }

    /** update_candidate_category_desc(category, description) */
    method UpdateCandidateCategoryDesc(category: string, description: string) returns (r: Outcome<ProfessorError>)
      requires Valid()
      modifies this
      ensures Valid() && documentsToBeResolved == old(documentsToBeResolved)
      ensures SectionOf(old(categoriesMap), CategoryKey).Err? ==>
        r == Fail(SectionOf(old(categoriesMap), CategoryKey).error) && categoriesMap == old(categoriesMap)
      ensures SectionOf(old(categoriesMap), CategoryKey).Ok? ==>
        r == Pass && categoriesMap == Some(Put(old(categoriesMap).value, CategoryKey,
                                               Dict(Put(SectionOf(old(categoriesMap), CategoryKey).value, category, JStr(description)))))
    {
      r := SetDescription(CategoryKey, category, description);
    }

    /** update_candidate_keyword_desc(keyword, description) */
    method UpdateCandidateKeywordDesc(keyword: string, description: string) returns (r: Outcome<ProfessorError>)
      requires Valid()
      modifies this
      ensures Valid() && documentsToBeResolved == old(documentsToBeResolved)
      ensures SectionOf(old(categoriesMap), KeywordKey).Err? ==>
        r == Fail(SectionOf(old(categoriesMap), KeywordKey).error) && categoriesMap == old(categoriesMap)
      ensures SectionOf(old(categoriesMap), KeywordKey).Ok? ==>
        r == Pass && categoriesMap == Some(Put(old(categoriesMap).value, KeywordKey,
                                               Dict(Put(SectionOf(old(categoriesMap), KeywordKey).value, keyword, JStr(description)))))
    {
      r := SetDescription(KeywordKey, keyword, description);
    }

    /** get_candidate_category */
    function GetCandidateCategory(): (r: seq<string>)
      reads this
      requires MaybeValid(categoriesMap)
      ensures SectionOf(categoriesMap, CategoryKey).Err? ==> r == []
      ensures SectionOf(categoriesMap, CategoryKey).Ok? ==>
        Distinct(r) && forall k :: k in r <==> k in SectionOf(categoriesMap, CategoryKey).value.entries
    {
      CandidateNames(categoriesMap, CategoryKey)
    }

    /** get_candidate_keyword */
    function GetCandidateKeyword(): (r: seq<string>)
      reads this
      requires MaybeValid(categoriesMap)
      ensures SectionOf(categoriesMap, KeywordKey).Err? ==> r == []
      ensures SectionOf(categoriesMap, KeywordKey).Ok? ==>
        Distinct(r) && forall k :: k in r <==> k in SectionOf(categoriesMap, KeywordKey).value.entries
    {
      CandidateNames(categoriesMap, KeywordKey)
    }

    /** get_new_doc_path_based_on_category: the document's own name, inside user_doc_dir/category. */
    function NewDocPath(docPath: string, category: string): (r: string)
      ensures Basename(r) == Basename(docPath)
    {
      BasenameSpec(docPath);
      BasenameJoin(Join(userDocDir, category), Basename(docPath));
      Join(Join(userDocDir, category), Basename(docPath))
    }

    /**
     * A file next to the moved document: join(join(user_doc_dir, category), basename + ext),
     * which is the moved document's path with `ext` added to its name.
     */
    function BesideDoc(docPath: string, category: string, ext: string): (r: string)
      requires |ext| > 0 && ext[0] != '/'
      ensures r == NewDocPath(docPath, category) + ext
    {
      JoinAppend(Join(userDocDir, category), Basename(docPath), ext);
      Join(Join(userDocDir, category), Basename(docPath) + ext)
    }

    /** get_new_doc_info_path_based_on_category: the answer file, ".json". */
    function NewDocInfoPath(docPath: string, category: string): string
    {
      BesideDoc(docPath, category, ".json")
    }

    /** get_summary_path_based_on_category: the summary file, ".md". */
    function SummaryPath(docPath: string, category: string): string
    {
      BesideDoc(docPath, category, ".md")
    }

    /** What filing one document does to the filesystem, always under its first category. */
    function FilingEffects(f: Filing): (r: seq<Effect>)
      ensures f.doc.categories != [] ==>
        var dir := Join(userDocDir, f.doc.categories[0]);
        |r| == 3 && r[0].Move? && r[0].from == f.path && r[0].to == Join(dir, Basename(f.path))
        && r[1] == WriteJson(r[0].to + ".json", JObj(f.doc.answer))
        && r[2] == WriteText(r[0].to + ".md", f.doc.summary)
    {
      if f.doc.categories == [] then []
      else
        var c := f.doc.categories[0];
        [Move(f.path, NewDocPath(f.path, c)),
         WriteJson(NewDocInfoPath(f.path, c), JObj(f.doc.answer)),
         WriteText(SummaryPath(f.path, c), f.doc.summary)]
    }

    function EffectsOf(fs: seq<Filing>): seq<Effect>
    {
      if fs == [] then [] else EffectsOf(fs[..|fs| - 1]) + FilingEffects(fs[|fs| - 1])
    }

    lemma EffectsSnoc(fs: seq<Filing>, f: Filing)
      ensures EffectsOf(fs + [f]) == EffectsOf(fs) + FilingEffects(f)
    {
      assert (fs + [f])[..|fs|] == fs;
    }

    /** The try block of resolve_docs for the content in scope. */
    method PrepareDoc(content: Option<string>) returns (p: Prepared)
      ensures p == Prepare(resolver, content)
    {
      if content.None? {
        return NotReady;
      }
      var answer := resolver.ClassifyDoc(content.value);
      if answer.Err? || answer.value.None? {
        return NotReady;
      }
      var labels := resolver.GetCategoryAndKeywords(answer.value.value);
      if labels.Err? {
        return NotReady;
      }
      var summary := resolver.SummarizeDoc(content.value);
      if summary.Err? {
        return NotReady;
      }
      var categories := Texts(labels.value.categories);
      var keywords := Texts(labels.value.keywords);
      if categories.None? || keywords.None? {
        return BadLabel;
      }
      p := Ready(Classified(content.value, answer.value.value, categories.value, keywords.value, summary.value));
    }

    /** update_categories({c: '' for c in categories}) and then update_keywords({k: '' for k in keywords}). */
    method UpdateLabels(doc: Classified) returns (r: Outcome<ProfessorError>)
      requires Valid()
      modifies this
      ensures Valid() && documentsToBeResolved == old(documentsToBeResolved)
      ensures r.Fail? <==> Filed(old(categoriesMap), doc).Err?
      ensures r.Pass? ==> categoriesMap == Filed(old(categoriesMap), doc).value
      ensures r.Fail? ==> categoriesMap == FiledUntilError(old(categoriesMap), doc)
    {
      r := UpdateCategories(FromKeys(doc.categories, JStr("")));
      if r.Fail? {
        return;
      }
      r := UpdateKeywords(FromKeys(doc.keywords, JStr("")));
    }

    /**
     * The rest of one pass of resolve_docs: update the map, file the document, study it and
     * mark it resolved. A failing map update raises out of resolve_docs before anything else happens.
     */
    method FileDoc(f: Filing) returns (r: Outcome<ProfessorError>, effects: seq<Effect>)
      requires Valid() && f.path in documentsToBeResolved.entries
      modifies this, learner.knowledgeRetrieval.knowledgeDb, learner.knowledgeRetrieval.vectorDb
      ensures Valid()
      ensures r.Fail? <==> Filed(old(categoriesMap), f.doc).Err?
      ensures r.Fail? ==> documentsToBeResolved == old(documentsToBeResolved) && KnowledgeState() == old(KnowledgeState())
      ensures r.Fail? ==> categoriesMap == FiledUntilError(old(categoriesMap), f.doc)
      ensures r.Pass? ==>
        && categoriesMap == Filed(old(categoriesMap), f.doc).value
        && documentsToBeResolved == Put(old(documentsToBeResolved), f.path, 1)
        && effects == FilingEffects(f)
        && KnowledgeState() == Study.AddChunks(learner.knowledgeRetrieval.md5, learner.knowledgeRetrieval.embed, old(KnowledgeState()),
                                          Study.Chunks(f.doc.content, learner.sentTokenize, StudyWindow))
    {
      effects := [];
      r := UpdateLabels(f.doc);
      if r.Fail? {
        return;
      }
      effects := FilingEffects(f);
      learner.StudyDoc(f.doc.content, StudyWindow);
      documentsToBeResolved := Put(documentsToBeResolved, f.path, 1);
    }

    /**
     * One pass of the resolve_docs loop for a document that is not yet resolved, with
     * `content` the text in scope. A non-string label or a failing map update stops the walk.
     */
    method ResolveOne(path: string, content: Option<string>) returns (stop: Option<ProfessorError>, effects: seq<Effect>, now: Option<Filing>)
      requires Valid() && path in documentsToBeResolved.entries
      modifies this, learner.knowledgeRetrieval.knowledgeDb, learner.knowledgeRetrieval.vectorDb
      ensures Valid()
      ensures documentsToBeResolved.order == old(documentsToBeResolved.order)
      ensures var p := old(Prepare(resolver, content));
        stop.Some? <==> p.BadLabel? || (p.Ready? && Filed(old(categoriesMap), p.doc).Err?)
      ensures stop.Some? ==> categoriesMap == StoppedAt(old(categoriesMap), old(Prepare(resolver, content)))
      ensures stop.None? ==> old(Filings(resolver, path, content)) == (if now.Some? then [now.value] else [])
      ensures stop.Some? || now.None? ==>
        documentsToBeResolved == old(documentsToBeResolved) && KnowledgeState() == old(KnowledgeState())
      ensures stop.None? && now.None? ==> categoriesMap == old(categoriesMap) && effects == []
      ensures stop.None? && now.Some? ==>
        && now.value.path == path
        && Filed(old(categoriesMap), now.value.doc).Ok?
        && categoriesMap == Filed(old(categoriesMap), now.value.doc).value
        && documentsToBeResolved == Put(old(documentsToBeResolved), path, 1)
        && effects == FilingEffects(now.value)
        && KnowledgeState() == Study.AddChunks(learner.knowledgeRetrieval.md5, learner.knowledgeRetrieval.embed, old(KnowledgeState()),
                                          Study.Chunks(now.value.doc.content, learner.sentTokenize, StudyWindow))
    {
      effects := [];
      now := None;
      var p := PrepareDoc(content);
      if p.BadLabel? {
        return Some(NonStringLabel), effects, now;
      }
      if p.NotReady? {
        return None, effects, now;
      }
      var f := Filing(path, p.doc);
      var outcome;
      outcome, effects := FileDoc(f);
      if outcome.Fail? {
        return Some(outcome.error), [], None;
      }
      stop := None;
      now := Some(f);
    }

    /**
     * What resolve_docs keeps while it walks, whether or not the walk goes on: keys and order
     * stay, statuses only advance for filed documents, and the map, the effects and the stores
     * are those of filing and studying `filed` in turn.
     */
    ghost predicate Kept(paths: seq<string>, effects: seq<Effect>, s0: map<string, int>, m0: Option<CategoriesMap>,
                         k0: Knowledge.Stores, filed: seq<Filing>)
      reads this, learner.knowledgeRetrieval.knowledgeDb, learner.knowledgeRetrieval.vectorDb
    {
      && Valid() && MaybeValid(m0) && Knowledge.StoresValid(k0)
      && documentsToBeResolved.order == paths && documentsToBeResolved.entries.Keys == s0.Keys
      && (forall k :: k in s0 ==> Advanced(s0[k], documentsToBeResolved.entries[k], k in PathsOf(filed)))
      && FileAll(m0, filed).Ok?
      && effects == EffectsOf(filed)
      && KnowledgeState() == StudyAll(learner.knowledgeRetrieval.md5, learner.knowledgeRetrieval.embed, learner.sentTokenize, k0, filed)
    }

    /** The loop invariant of resolve_docs after the first i documents: the walk so far is Scan's. */
    ghost predicate Walking(paths: seq<string>, i: nat, last: Option<string>, effects: seq<Effect>, s0: map<string, int>,
                            m0: Option<CategoriesMap>, k0: Knowledge.Stores, filed: seq<Filing>)
      reads this, resolver, learner.knowledgeRetrieval.knowledgeDb, learner.knowledgeRetrieval.vectorDb
    {
      && Kept(paths, effects, s0, m0, k0, filed)
      && i <= |paths|
      && (forall j :: i <= j < |paths| ==> paths[j] !in PathsOf(filed))
      && Scan(resolver, readDoc, s0, paths, i) == Progress(last, filed)
      && FileAll(m0, filed) == Ok(categoriesMap)
    }

    /**
     * How resolve_docs raises at position `at`: the document there was not resolved, what was
     * filed before it is exactly Scan's, and it stops the walk with the map `Stopping` gives.
     */
    ghost predicate Halted(s0: map<string, int>, paths: seq<string>, m0: Option<CategoriesMap>, filed: seq<Filing>, at: nat)
      reads this, resolver
    {
      && at < |paths|
      && paths[at] in s0 && s0[paths[at]] != 1
      && filed == Scan(resolver, readDoc, s0, paths, at).filed
      && Stopping(m0, filed, Prepare(resolver, Scan(resolver, readDoc, s0, paths, at + 1).last), categoriesMap)
    }

    /**
     * One turn of the resolve_docs loop, at position i of the documents. It keeps what the
     * loop keeps; `stop` is the error that ends the walk, and then nothing more is filed.
     */
    method ResolveAt(paths: seq<string>, i: nat, last: Option<string>, effects: seq<Effect>,
                     ghost s0: map<string, int>, ghost m0: Option<CategoriesMap>, ghost k0: Knowledge.Stores, ghost filed: seq<Filing>)
      returns (stop: Option<ProfessorError>, next: Option<string>, effects': seq<Effect>, ghost filed': seq<Filing>)
      requires i < |paths| && Walking(paths, i, last, effects, s0, m0, k0, filed)
      modifies this, learner.knowledgeRetrieval.knowledgeDb, learner.knowledgeRetrieval.vectorDb
      ensures stop.None? ==> Walking(paths, i + 1, next, effects', s0, m0, k0, filed')
      ensures stop.Some? ==> Kept(paths, effects', s0, m0, k0, filed') && Halted(s0, paths, m0, filed', i)
    {
      stop, next, effects', filed' := None, last, effects, filed;
      var path := paths[i];
      assert path !in PathsOf(filed);
      assert Advanced(s0[path], documentsToBeResolved.entries[path], false);
      if documentsToBeResolved.entries[path] == 1 {
        return;
      }
      var read := readDoc(path);
      if read.Some? {
        next := read;
      }
      assert Scan(resolver, readDoc, s0, paths, i + 1) == Progress(next, filed + Filings(resolver, path, next));
      stop, effects', filed' := ResolveRead(paths, i, next, effects, s0, m0, k0, filed);
    }

    /** The rest of one turn of the resolve_docs loop, once an unresolved document's content `next` is in scope. */
    method ResolveRead(paths: seq<string>, i: nat, next: Option<string>, effects: seq<Effect>,
                       ghost s0: map<string, int>, ghost m0: Option<CategoriesMap>, ghost k0: Knowledge.Stores, ghost filed: seq<Filing>)
      returns (stop: Option<ProfessorError>, effects': seq<Effect>, ghost filed': seq<Filing>)
      requires i < |paths| && Kept(paths, effects, s0, m0, k0, filed) && FileAll(m0, filed) == Ok(categoriesMap)
      requires forall j :: i <= j < |paths| ==> paths[j] !in PathsOf(filed)
      requires paths[i] in s0 && s0[paths[i]] != 1 && Scan(resolver, readDoc, s0, paths, i).filed == filed
      requires Scan(resolver, readDoc, s0, paths, i + 1) == Progress(next, filed + Filings(resolver, paths[i], next))
      modifies this, learner.knowledgeRetrieval.knowledgeDb, learner.knowledgeRetrieval.vectorDb
      ensures stop.None? ==> Walking(paths, i + 1, next, effects', s0, m0, k0, filed')
      ensures stop.Some? ==> Kept(paths, effects', s0, m0, k0, filed') && Halted(s0, paths, m0, filed', i)
    {
      stop, effects', filed' := None, effects, filed;
      var path := paths[i];
      ghost var before := documentsToBeResolved.entries;
      ghost var filings := Filings(resolver, path, next);
      assert Scan(resolver, readDoc, s0, paths, i + 1) == Progress(next, filed + filings);
      var more, now;
      stop, more, now := ResolveOne(path, next);
      assert Scan(resolver, readDoc, s0, paths, i + 1) == Progress(next, filed + filings);
      if stop.Some? {
        assert Scan(resolver, readDoc, s0, paths, i + 1).last == next;
        return;
      }
      assert filings == (if now.Some? then [now.value] else []);
      if now.Some? {
        var f := now.value;
        FilingSnoc(m0, learner.knowledgeRetrieval.md5, learner.knowledgeRetrieval.embed, learner.sentTokenize, k0, filed, f);
        UnfiledStays(paths, i, filed, f);
        MarkResolved(s0, before, PathsOf(filed), path);
        EffectsSnoc(filed, f);
        effects' := effects + more;
        filed' := filed + [f];
      } else {
        assert filed + filings == filed;
      }
    }

    /**
     * resolve_docs: every document whose status is not 1 is read, classified and, when that
     * works, filed, studied and marked 1. Keys never change and a status only ever moves to 1.
     */
    method ResolveDocs() returns (r: Result<Table<int>, ProfessorError>, effects: seq<Effect>, ghost filed: seq<Filing>, ghost stopAt: nat)
      requires Valid()
      modifies this, learner.knowledgeRetrieval.knowledgeDb, learner.knowledgeRetrieval.vectorDb
      ensures Valid()
      ensures documentsToBeResolved.order == old(documentsToBeResolved.order)
      ensures documentsToBeResolved.entries.Keys == old(documentsToBeResolved.entries.Keys)
      ensures forall k :: k in old(documentsToBeResolved.entries) ==>
        Advanced(old(documentsToBeResolved.entries[k]), documentsToBeResolved.entries[k], k in PathsOf(filed))
      ensures filed <= Scan(resolver, readDoc, old(documentsToBeResolved.entries), old(documentsToBeResolved.order), |old(documentsToBeResolved.order)|).filed
      ensures r.Ok? ==> r.value == documentsToBeResolved
      ensures r.Ok? ==> filed == Scan(resolver, readDoc, old(documentsToBeResolved.entries), old(documentsToBeResolved.order), |old(documentsToBeResolved.order)|).filed
      ensures FileAll(old(categoriesMap), filed).Ok?
      ensures r.Ok? ==> categoriesMap == FileAll(old(categoriesMap), filed).value
      ensures r.Err? ==> Halted(old(documentsToBeResolved.entries), old(documentsToBeResolved.order), old(categoriesMap), filed, stopAt)
      ensures effects == EffectsOf(filed)
      ensures KnowledgeState() == StudyAll(learner.knowledgeRetrieval.md5, learner.knowledgeRetrieval.embed, learner.sentTokenize,
                                      old(KnowledgeState()), filed)
    {
      ghost var s0 := documentsToBeResolved.entries;
      ghost var m0 := categoriesMap;
      ghost var k0 := KnowledgeState();
      var paths := documentsToBeResolved.order;
      var stop;
      stop, effects, filed, stopAt := WalkDocs(paths, s0, m0, k0);
      r := if stop.Some? then Err(stop.value) else Ok(documentsToBeResolved);
    }

    /** The loop of resolve_docs over `paths`, from the start, with the statuses, map and stores it started from. */
    method WalkDocs(paths: seq<string>, ghost s0: map<string, int>, ghost m0: Option<CategoriesMap>, ghost k0: Knowledge.Stores)
      returns (stop: Option<ProfessorError>, effects: seq<Effect>, ghost filed: seq<Filing>, ghost stopAt: nat)
      requires Walking(paths, 0, None, [], s0, m0, k0, [])
      modifies this, learner.knowledgeRetrieval.knowledgeDb, learner.knowledgeRetrieval.vectorDb
      ensures Kept(paths, effects, s0, m0, k0, filed)
      ensures filed <= Scan(resolver, readDoc, s0, paths, |paths|).filed
      ensures stop.None? ==> filed == Scan(resolver, readDoc, s0, paths, |paths|).filed && FileAll(m0, filed) == Ok(categoriesMap)
      ensures stop.Some? ==> Halted(s0, paths, m0, filed, stopAt)
    {
      var last: Option<string> := None;
      effects := [];
      filed := [];
      stopAt := 0;
      var i := 0;
      while i < |paths|
        invariant Walking(paths, i, last, effects, s0, m0, k0, filed)
      {
        stop, last, effects, filed := ResolveAt(paths, i, last, effects, s0, m0, k0, filed);
        if stop.Some? {
          ScanGrows(resolver, readDoc, s0, paths, i);
          stopAt := i;
          return;
        }
        i := i + 1;
      }
      stop := None;
    }
  }

  /** `for k, d in u.items(): t[k] = d` on one dict. */
  method PutEach(t: Table<JsonValue>, u: Table<JsonValue>) returns (r: Table<JsonValue>)
    requires WellFormed(t) && WellFormed(u)
    ensures r == PutAll(t, u, |u.order|)
  {
    r := t;
    var i := 0;
    while i < |u.order|
      invariant 0 <= i <= |u.order|
      invariant r == PutAll(t, u, i)
    {
      r := Put(r, u.order[i], u.entries[u.order[i]]);
      i := i + 1;
    }
  }

  /** A filed document's status was not 1 and becomes 1; any other status is left alone. */
  predicate Advanced(before: int, after: int, filed: bool)
  {
    if filed then before != 1 && after == 1 else after == before
  }

  /**
   * How the walk stops after filing `filed`: the document in hand prepared as `p` and either
   * has a label that is not a string or fails the map update, and the map is what filing
   * `filed` and then the failing update leave behind.
   */
  ghost predicate Stopping(m0: Option<CategoriesMap>, filed: seq<Filing>, p: Prepared, m: Option<CategoriesMap>)
  {
    && MaybeValid(m0) && FileAll(m0, filed).Ok?
    && (p.BadLabel? || (p.Ready? && Filed(FileAll(m0, filed).value, p.doc).Err?))
    && m == StoppedAt(FileAll(m0, filed).value, p)
  }

  /** Marking an unresolved document 1 keeps the keys and advances only that document's status. */
  lemma MarkResolved(s0: map<string, int>, before: map<string, int>, ps: seq<string>, path: string)
    requires path in before && before[path] != 1 && before.Keys == s0.Keys && path !in ps
    requires forall k :: k in s0 ==> Advanced(s0[k], before[k], k in ps)
    ensures before[path := 1].Keys == s0.Keys
    ensures forall k :: k in s0 ==> Advanced(s0[k], before[path := 1][k], k in ps + [path])
  {
  }
}
