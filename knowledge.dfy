/**
 * The knowledge retrieval engine (knowledge.py): KnowledgeItem and its JSON form, and
 * KnowledgeRetrieval, which keeps a record store and a vector store under the same
 * keys (the MD5 of the item text) and answers top-k similarity queries.
 *
 * MD5, the embedding model and cosine similarity are parameters of the engine:
 * md5: text -> hex digest, embed: text -> vector, similarity: (query, stored) -> score.
 */
module Knowledge {
  import opened Wrappers
  import opened Dicts
  import opened Json
  import opened PyText
  import opened Ranking
  import opened KnowledgeDb

  datatype KnowledgeItem = KnowledgeItem(text: string, score: real, md5Hash: string)

  /** KnowledgeItem(text, score, md5_hash): a missing or empty md5_hash falls back to md5(text). */
  function NewItem(md5: string -> string, text: string, score: real, md5Hash: Option<string>): (item: KnowledgeItem)
    ensures item.text == text && item.score == score
    ensures md5Hash.Some? && md5Hash.value != "" ==> item.md5Hash == md5Hash.value
    ensures md5Hash.None? || md5Hash.value == "" ==> item.md5Hash == md5(text)
  {
    KnowledgeItem(text, score, if md5Hash.Some? && md5Hash.value != "" then md5Hash.value else md5(text))
  }

  /**
   * Identity is the text: two items built from the same text without an explicit hash share
   * their key. This holds by construction, since the key is md5 of the text.
   */
  lemma SameTextSameKey(md5: string -> string, text: string, s1: real, s2: real)
    ensures NewItem(md5, text, s1, None).md5Hash == NewItem(md5, text, s2, None).md5Hash
  {
  }

  /** to_json_str: json.dumps of the item's three attributes. */
  function ToJson(item: KnowledgeItem): JsonValue
  {
    JObj(map["text" := JStr(item.text), "score" := JNum(item.score), "md5_hash" := JStr(item.md5Hash)])
  }

  const ItemFields: set<string> := {"text", "score", "md5_hash"}

  /**
   * from_json_str: cls(**json.loads(s)). A non-object, an unknown field or a missing text
   * raise in the source (None here); so do the field types this model does not carry.
   */
  function FromJson(md5: string -> string, j: JsonValue): (r: Option<KnowledgeItem>)
    ensures r.Some? ==> j.JObj? && j.fields.Keys <= ItemFields && "text" in j.fields
    ensures r.Some? ==> JStr(r.value.text) == j.fields["text"]
  {
    match j
    case JObj(f) =>
      if !(f.Keys <= ItemFields) || "text" !in f || !f["text"].JStr? then None
      else if "score" in f && !f["score"].JNum? then None
      else if "md5_hash" in f && !(f["md5_hash"].JStr? || f["md5_hash"].JNull?) then None
      else
        var score := if "score" in f then f["score"].n else 0.0;
        var hash := if "md5_hash" in f && f["md5_hash"].JStr? then Some(f["md5_hash"].s) else None;
        Some(NewItem(md5, f["text"].s, score, hash))
    case _ => None
  }

  /** Decoding an encoded item gives back its text and score, and its hash unless that hash was empty. */
  lemma JsonRoundTrip(md5: string -> string, item: KnowledgeItem)
    ensures FromJson(md5, ToJson(item)) == Some(NewItem(md5, item.text, item.score, Some(item.md5Hash)))
    ensures item.md5Hash != "" ==> FromJson(md5, ToJson(item)) == Some(item)
  {
    var f := ToJson(item).fields;
    assert f.Keys == ItemFields;
    assert f["text"] == JStr(item.text) && f["score"] == JNum(item.score) && f["md5_hash"] == JStr(item.md5Hash);
  }

  /** Every item the engine itself builds survives the JSON round trip unchanged. */
  lemma NewItemRoundTrip(md5: string -> string, text: string, score: real)
    ensures FromJson(md5, ToJson(NewItem(md5, text, score, None))) == Some(NewItem(md5, text, score, None))
  {
    JsonRoundTrip(md5, NewItem(md5, text, score, None));
  }

  // ---------------------------------------------------------------------------------
  // The two stores as values, and what add / delete / update do to them.

  /** records: knowledge_db (hash -> item JSON); vectors: vector_db (hash -> embedding). */
  datatype Stores = Stores(records: Table<JsonValue>, vectors: Table<JsonValue>)

  ghost predicate StoresValid(st: Stores)
  {
    WellFormed(st.records) && WellFormed(st.vectors)
  }

  /** The pairing invariant: both stores have the same keys. */
  ghost predicate Paired(st: Stores)
  {
    forall k :: k in st.records.entries <==> k in st.vectors.entries
  }

  /** The item stored under a key, if the key is present and its record decodes. */
  function RecordItem(md5: string -> string, records: Table<JsonValue>, key: string): Option<KnowledgeItem>
  {
    if key in records.entries then FromJson(md5, records.entries[key]) else None
  }

  /** The vector stored under a key, if the key is present and holds a list of numbers. */
  function VectorOf(vectors: Table<JsonValue>, key: string): Option<seq<real>>
  {
    if key in vectors.entries then AsVector(vectors.entries[key]) else None
  }

  /** Every stored record and every stored vector can be read back. */
  ghost predicate Decodable(md5: string -> string, st: Stores)
  {
    && (forall k :: k in st.records.entries ==> RecordItem(md5, st.records, k).Some?)
    && (forall k :: k in st.vectors.entries ==> VectorOf(st.vectors, k).Some?)
  }

  /** add_knowledge_item(text, score) */
  function Added(md5: string -> string, embed: string -> seq<real>, st: Stores, text: string, score: real): (r: Stores)
    requires StoresValid(st)
    ensures StoresValid(r)
  {
    var item := NewItem(md5, text, score, None);
    Stores(Put(st.records, item.md5Hash, ToJson(item)), Put(st.vectors, item.md5Hash, VectorValue(embed(text))))
  }

  /** delete_knowledge_item(md5_hash) */
  function Deleted(st: Stores, h: string): (r: Stores)
    requires StoresValid(st)
    ensures StoresValid(r)
  {
    Stores(Remove(st.records, h), Remove(st.vectors, h))
  }

  /** update_knowledge_item(md5_hash, text, score): delete, then add. */
  function Updated(md5: string -> string, embed: string -> seq<real>, st: Stores, h: string, text: string, score: real): (r: Stores)
    requires StoresValid(st)
    ensures StoresValid(r)
  {
    Added(md5, embed, Deleted(st, h), text, score)
  }

  /**
   * After add: md5(text) is a key of both stores, its record reads back as (text, score) and its
   * vector as embed(text); every other key of either store is untouched.
   */
  lemma AddedSpec(md5: string -> string, embed: string -> seq<real>, st: Stores, text: string, score: real, x: string)
    requires StoresValid(st)
    ensures var r := Added(md5, embed, st, text, score);
      && RecordItem(md5, r.records, md5(text)) == Some(KnowledgeItem(text, score, md5(text)))
      && VectorOf(r.vectors, md5(text)) == Some(embed(text))
      && (x != md5(text) ==> Lookup(r.records, x) == Lookup(st.records, x) && Lookup(r.vectors, x) == Lookup(st.vectors, x))
  {
    var item := NewItem(md5, text, score, None);
    NewItemRoundTrip(md5, text, score);
    VectorRoundTrip(embed(text));
    PutLookup(st.records, item.md5Hash, ToJson(item), x);
    PutLookup(st.vectors, item.md5Hash, VectorValue(embed(text)), x);
  }

  /** add puts md5(text) in both stores and no other key. */
  lemma AddedKeys(md5: string -> string, embed: string -> seq<real>, st: Stores, text: string, score: real, x: string)
    requires StoresValid(st)
    ensures var r := Added(md5, embed, st, text, score);
      && (x in r.records.entries <==> x in st.records.entries || x == md5(text))
      && (x in r.vectors.entries <==> x in st.vectors.entries || x == md5(text))
  {
  }

  /** Re-adding a text that is already stored overwrites both entries in place: no key is added or moved. */
  lemma AddedAgain(md5: string -> string, embed: string -> seq<real>, st: Stores, text: string, score: real)
    requires StoresValid(st) && md5(text) in st.records.entries && md5(text) in st.vectors.entries
    ensures Added(md5, embed, st, text, score).records.order == st.records.order
    ensures Added(md5, embed, st, text, score).vectors.order == st.vectors.order
  {
  }

  /** After delete: h is in neither store; every other key is untouched; an absent h changes nothing. */
  lemma DeletedSpec(st: Stores, h: string, x: string)
    requires StoresValid(st)
    ensures var r := Deleted(st, h);
      && h !in r.records.entries && h !in r.vectors.entries
      && (x != h ==> Lookup(r.records, x) == Lookup(st.records, x) && Lookup(r.vectors, x) == Lookup(st.vectors, x))
      && (h !in st.records.entries && h !in st.vectors.entries ==> r == st)
  {
    if h !in st.records.entries && h !in st.vectors.entries {
      RemoveAbsent(st.records, h);
      RemoveAbsent(st.vectors, h);
    }
  }

  /** After update: h is gone unless the new text hashes to h, and md5(text) holds (text, score). */
  lemma UpdatedSpec(md5: string -> string, embed: string -> seq<real>, st: Stores, h: string, text: string, score: real)
    requires StoresValid(st)
    ensures var r := Updated(md5, embed, st, h, text, score);
      && (md5(text) != h ==> h !in r.records.entries && h !in r.vectors.entries)
      && RecordItem(md5, r.records, md5(text)) == Some(KnowledgeItem(text, score, md5(text)))
      && VectorOf(r.vectors, md5(text)) == Some(embed(text))
  {
    var d := Deleted(st, h);
    AddedSpec(md5, embed, d, text, score, h);
    DeletedSpec(st, h, h);
  }

  /** add keeps the two stores paired, and keeps every entry readable. */
  lemma AddedPaired(md5: string -> string, embed: string -> seq<real>, st: Stores, text: string, score: real)
    requires StoresValid(st) && Paired(st)
    ensures Paired(Added(md5, embed, st, text, score))
    ensures Decodable(md5, st) ==> Decodable(md5, Added(md5, embed, st, text, score))
  {
    var r := Added(md5, embed, st, text, score);
    if Decodable(md5, st) {
      forall x | x in r.records.entries
        ensures RecordItem(md5, r.records, x).Some?
      {
        AddedSpec(md5, embed, st, text, score, x);
      }
      forall x | x in r.vectors.entries
        ensures VectorOf(r.vectors, x).Some?
      {
        AddedSpec(md5, embed, st, text, score, x);
      }
    }
  }

  /** delete keeps the two stores paired, and keeps every remaining entry readable. */
  lemma DeletedPaired(md5: string -> string, st: Stores, h: string)
    requires StoresValid(st) && Paired(st)
    ensures Paired(Deleted(st, h))
    ensures Decodable(md5, st) ==> Decodable(md5, Deleted(st, h))
  {
    var r := Deleted(st, h);
    if Decodable(md5, st) {
      forall x | x in r.records.entries
        ensures RecordItem(md5, r.records, x).Some?
      {
        DeletedSpec(st, h, x);
      }
      forall x | x in r.vectors.entries
        ensures VectorOf(r.vectors, x).Some?
      {
        DeletedSpec(st, h, x);
      }
    }
  }

  /** update keeps the two stores paired. */
  lemma UpdatedPaired(md5: string -> string, embed: string -> seq<real>, st: Stores, h: string, text: string, score: real)
    requires StoresValid(st) && Paired(st)
    ensures Paired(Updated(md5, embed, st, h, text, score))
    ensures Decodable(md5, st) ==> Decodable(md5, Updated(md5, embed, st, h, text, score))
  {
    DeletedPaired(md5, st, h);
    AddedPaired(md5, embed, Deleted(st, h), text, score);
  }

  // ---------------------------------------------------------------------------------
  // search_knowledge

  datatype Error =
    | MissingRecord(key: string)   // knowledge_db.get answered False and json.loads(False) raised
    | BadRecord(key: string)       // the stored record is not a KnowledgeItem
    | BadVector(key: string)       // the stored vector is not a list of numbers

  /** The similarity of the query to each key's vector, in key order; the first unreadable vector raises. */
  function Scores(keys: seq<string>, vectors: Table<JsonValue>, q: seq<real>, sim: (seq<real>, seq<real>) -> real)
    : (r: Result<seq<Scored>, Error>)
    ensures r.Ok? ==> |r.value| == |keys|
  {
    if keys == [] then Ok([])
    else
      var key := keys[|keys| - 1];
      match Scores(keys[..|keys| - 1], vectors, q, sim)
      case Err(e) => Err(e)
      case Ok(prev) =>
        match VectorOf(vectors, key)
        case None => Err(BadVector(key))
        case Some(v) => Ok(prev + [Scored(key, sim(q, v))])
  }

  /** get_knowledge_item for each key, in order; the first missing or unreadable record raises. */
  function Fetch(md5: string -> string, keys: seq<string>, records: Table<JsonValue>): (r: Result<seq<KnowledgeItem>, Error>)
    ensures r.Ok? ==> |r.value| == |keys|
  {
    if keys == [] then Ok([])
    else
      var key := keys[|keys| - 1];
      match Fetch(md5, keys[..|keys| - 1], records)
      case Err(e) => Err(e)
      case Ok(prev) =>
        if key !in records.entries then Err(MissingRecord(key))
        else match FromJson(md5, records.entries[key])
          case None => Err(BadRecord(key))
          case Some(item) => Ok(prev + [item])
  }

  /** search_knowledge(query, k) with q = embed(query): score every stored vector, sort, keep [:k], fetch. */
  function Search(md5: string -> string, st: Stores, q: seq<real>, k: int, sim: (seq<real>, seq<real>) -> real)
    : Result<seq<KnowledgeItem>, Error>
  {
    match Scores(st.vectors.order, st.vectors, q, sim)
    case Err(e) => Err(e)
    case Ok(s) => Fetch(md5, Keys(Take(SortDesc(s), k)), st.records)
  }

  /** With every vector readable, scoring succeeds and pairs each key, in order, with its similarity. */
  lemma {:induction false} ScoresOk(keys: seq<string>, vectors: Table<JsonValue>, q: seq<real>, sim: (seq<real>, seq<real>) -> real)
    requires forall i :: 0 <= i < |keys| ==> VectorOf(vectors, keys[i]).Some?
    ensures Scores(keys, vectors, q, sim).Ok?
    ensures Keys(Scores(keys, vectors, q, sim).value) == keys
    ensures forall i :: 0 <= i < |keys| ==>
      Scores(keys, vectors, q, sim).value[i].similarity == sim(q, VectorOf(vectors, keys[i]).value)
  {
    if keys != [] {
      var init := keys[..|keys| - 1];
      ScoresOk(init, vectors, q, sim);
      var prev := Scores(init, vectors, q, sim).value;
      var s := Scores(keys, vectors, q, sim).value;
      assert s == prev + [Scored(keys[|keys| - 1], sim(q, VectorOf(vectors, keys[|keys| - 1]).value))];
      assert Keys(s) == keys by {
        assert forall i :: 0 <= i < |s| ==> s[i].key == keys[i];
      }
    }
  }

  /** Fetching succeeds when every key has a readable record, and yields exactly those records, in order. */
  lemma {:induction false} FetchOk(md5: string -> string, keys: seq<string>, records: Table<JsonValue>)
    requires forall i :: 0 <= i < |keys| ==> RecordItem(md5, records, keys[i]).Some?
    ensures Fetch(md5, keys, records).Ok?
    ensures forall i :: 0 <= i < |keys| ==> Some(Fetch(md5, keys, records).value[i]) == RecordItem(md5, records, keys[i])
  {
    if keys != [] {
      FetchOk(md5, keys[..|keys| - 1], records);
    }
  }

  /** A fetch that succeeds only ever read keys present in the record store. */
  lemma {:induction false} FetchOkKeysPresent(md5: string -> string, keys: seq<string>, records: Table<JsonValue>)
    requires Fetch(md5, keys, records).Ok?
    ensures forall i :: 0 <= i < |keys| ==> keys[i] in records.entries
  {
    if keys != [] {
      FetchOkKeysPresent(md5, keys[..|keys| - 1], records);
    }
  }

  /**
   * The search theorem. On paired, readable stores, search succeeds and returns, for the ranked
   * list (every stored key, sorted by similarity), the stored records of its first k keys
   * (Python's [:k], so all but the last |k| for negative k), with their stored score.
   */
  lemma SearchSucceeds(md5: string -> string, st: Stores, q: seq<real>, k: int, sim: (seq<real>, seq<real>) -> real)
    requires StoresValid(st) && Paired(st) && Decodable(md5, st)
    ensures Scores(st.vectors.order, st.vectors, q, sim).Ok?
    ensures var ranked := SortDesc(Scores(st.vectors.order, st.vectors, q, sim).value);
      var r := Search(md5, st, q, k, sim);
      var n := |st.vectors.order|;
      && r.Ok?
      && |ranked| == n
      && |r.value| == (if k >= 0 then (if k < n then k else n) else (if -k < n then n + k else 0))
      && forall i :: 0 <= i < |r.value| ==> Some(r.value[i]) == RecordItem(md5, st.records, ranked[i].key)
  {
    RankedOrder(st, q, sim, 0.0);
    var s := Scores(st.vectors.order, st.vectors, q, sim).value;
    var ranked := SortDesc(s);
    SortPermutes(s);
    TopReadable(md5, st, ranked, k);
    var top := Keys(Take(ranked, k));
    FetchOk(md5, top, st.records);
    assert Search(md5, st, q, k, sim) == Fetch(md5, top, st.records);
  }

  /** Every key among the first k of a ranking of stored keys has a readable record. */
  lemma TopReadable(md5: string -> string, st: Stores, ranked: seq<Scored>, k: int)
    requires Paired(st) && Decodable(md5, st)
    requires forall x :: x in Keys(ranked) ==> x in st.vectors.entries
    ensures forall i :: 0 <= i < |Keys(Take(ranked, k))| ==> RecordItem(md5, st.records, Keys(Take(ranked, k))[i]).Some?
  {
    var top := Keys(Take(ranked, k));
    forall i | 0 <= i < |top|
      ensures RecordItem(md5, st.records, top[i]).Some?
    {
      assert top[i] == ranked[i].key;
      assert top[i] in Keys(ranked);
    }
  }

  /** The ranked list holds every stored key once, by non-increasing similarity, ties in store order. */
  lemma RankedOrder(st: Stores, q: seq<real>, sim: (seq<real>, seq<real>) -> real, v: real)
    requires StoresValid(st)
    requires forall k :: k in st.vectors.entries ==> VectorOf(st.vectors, k).Some?
    ensures Scores(st.vectors.order, st.vectors, q, sim).Ok?
    ensures var s := Scores(st.vectors.order, st.vectors, q, sim).value;
      var ranked := SortDesc(s);
      && Descending(ranked)
      && Distinct(Keys(ranked))
      && (forall x :: x in Keys(ranked) <==> x in st.vectors.entries)
      && WithSimilarity(ranked, v) == WithSimilarity(s, v)
  {
    ScoresOk(st.vectors.order, st.vectors, q, sim);
    var s := Scores(st.vectors.order, st.vectors, q, sim).value;
    SortDescending(s);
    SortKeys(s);
    SortStable(s, v);
  }

  /** An empty store answers every query with no items. */
  lemma SearchEmpty(md5: string -> string, st: Stores, q: seq<real>, k: int, sim: (seq<real>, seq<real>) -> real)
    requires st.vectors.order == []
    ensures Search(md5, st, q, k, sim) == Ok([])
  {
  }

  // ---------------------------------------------------------------------------------

  class KnowledgeRetrieval {
    const embed: string -> seq<real>
    const md5: string -> string
    const similarity: (seq<real>, seq<real>) -> real
    const knowledgeDbPath: string
    const vectorDbPath: string
    const knowledgeDb: KnowledgeDB
    const vectorDb: KnowledgeDB

    ghost predicate Valid()
      reads knowledgeDb, vectorDb
    {
      knowledgeDb != vectorDb && knowledgeDb.Valid() && vectorDb.Valid()
    }

    function State(): (st: Stores)
      reads knowledgeDb, vectorDb
      requires Valid()
      ensures StoresValid(st)
    {
      Stores(knowledgeDb.db, vectorDb.db)
    }

    /**
     * Opens both stores through the registry: a path opened before gives back its existing
     * store, a new path loads what its file holds.
     */
    constructor (embed: string -> seq<real>, md5: string -> string, similarity: (seq<real>, seq<real>) -> real,
                 registry: Registry, knowledgeDbPath: string, vectorDbPath: string,
                 persistedRecords: Table<JsonValue>, persistedVectors: Table<JsonValue>)
      requires registry.Valid() && knowledgeDbPath != vectorDbPath
      requires WellFormed(persistedRecords) && WellFormed(persistedVectors)
      modifies registry
      ensures Valid() && registry.Valid()
      ensures this.embed == embed && this.md5 == md5 && this.similarity == similarity
      ensures knowledgeDbPath in registry.instances && knowledgeDb == registry.instances[knowledgeDbPath]
      ensures vectorDbPath in registry.instances && vectorDb == registry.instances[vectorDbPath]
      ensures knowledgeDbPath !in old(registry.instances) ==> fresh(knowledgeDb) && knowledgeDb.db == persistedRecords
      ensures vectorDbPath !in old(registry.instances) ==> fresh(vectorDb) && vectorDb.db == persistedVectors
    {
      this.embed := embed;
      this.md5 := md5;
      this.similarity := similarity;
      this.knowledgeDbPath := knowledgeDbPath;
      this.vectorDbPath := vectorDbPath;
      var k := registry.Open(knowledgeDbPath, persistedRecords);
      var v := registry.Open(vectorDbPath, persistedVectors);
      this.knowledgeDb := k;
      this.vectorDb := v;
    }

    method AddKnowledgeItem(text: string, score: real)
      requires Valid()
      modifies knowledgeDb, vectorDb
      ensures Valid()
      ensures State() == Added(md5, embed, old(State()), text, score)
    {
      var item := NewItem(md5, text, score, None);
      var embedding := embed(text);
      var okVector := vectorDb.Set(item.md5Hash, VectorValue(embedding));
      var okRecord := knowledgeDb.Set(item.md5Hash, ToJson(item));
    }

    method DeleteKnowledgeItem(md5Hash: string)
      requires Valid()
      modifies knowledgeDb, vectorDb
      ensures Valid()
      ensures State() == Deleted(old(State()), md5Hash)
    {
      var removedRecord := knowledgeDb.Delete(md5Hash);
      if !removedRecord {
        RemoveAbsent(old(knowledgeDb.db), md5Hash);
      }
      var removedVector := vectorDb.Delete(md5Hash);
      if !removedVector {
        RemoveAbsent(old(vectorDb.db), md5Hash);
      }
    }

    method UpdateKnowledgeItem(md5Hash: string, text: string, score: real)
      requires Valid()
      modifies knowledgeDb, vectorDb
      ensures Valid()
      ensures State() == Updated(md5, embed, old(State()), md5Hash, text, score)
    {
      DeleteKnowledgeItem(md5Hash);
      AddKnowledgeItem(text, score);
    }

    /** get_knowledge_item(md5_hash) */
    function GetKnowledgeItem(md5Hash: string): (r: Result<KnowledgeItem, Error>)
      reads knowledgeDb
      ensures r.Ok? <==> RecordItem(md5, knowledgeDb.db, md5Hash).Some?
      ensures r.Ok? ==> Some(r.value) == RecordItem(md5, knowledgeDb.db, md5Hash)
    {
      match knowledgeDb.Get(md5Hash)
      case None => Err(MissingRecord(md5Hash))
      case Some(j) =>
        match FromJson(md5, j)
        case None => Err(BadRecord(md5Hash))
        case Some(item) => Ok(item)
    }

    /** Clearing only the record store keeps the pairing only when the vector store was already empty. */
    method ClearKnowledgeDb()
      requires Valid()
      modifies knowledgeDb
      ensures Valid()
      ensures knowledgeDb.db == Empty() && vectorDb.db == old(vectorDb.db)
      ensures Paired(State()) <==> vectorDb.db.entries == map[]
    {
      var ok := knowledgeDb.Clear();
      if Paired(State()) {
        assert forall k :: k !in vectorDb.db.entries;
      }
    }

    /** Clearing only the vector store keeps the pairing only when the record store was already empty. */
    method ClearVectorDb()
      requires Valid()
      modifies vectorDb
      ensures Valid()
      ensures vectorDb.db == Empty() && knowledgeDb.db == old(knowledgeDb.db)
      ensures Paired(State()) <==> knowledgeDb.db.entries == map[]
    {
      var ok := vectorDb.Clear();
      if Paired(State()) {
        assert forall k :: k !in knowledgeDb.db.entries;
      }
    }

    /** search_knowledge(query, k): the loop over stored keys, the stable sort, the [:k] slice, the fetch loop. */
    method SearchKnowledge(query: string, k: int) returns (r: Result<seq<KnowledgeItem>, Error>)
      requires Valid()
      ensures r == Search(md5, State(), embed(query), k, similarity)
    {
      var similarities := ScoreAll(embed(query), vectorDb.GetAll());
      if similarities.Err? {
        return Err(similarities.error);
      }
      var ranked := SortDesc(similarities.value);
      r := FetchAll(Keys(Take(ranked, k)));
    }

    /** The scoring loop of search_knowledge: stops at the first unreadable vector. */
    method ScoreAll(q: seq<real>, keys: seq<string>) returns (r: Result<seq<Scored>, Error>)
      requires Valid()
      ensures r == Scores(keys, vectorDb.db, q, similarity)
    {
      var similarities: seq<Scored> := [];
      var i := 0;
      while i < |keys|
        invariant 0 <= i <= |keys|
        invariant Scores(keys[..i], vectorDb.db, q, similarity) == Ok(similarities)
      {
        assert keys[..i + 1][..i] == keys[..i];
        match VectorOf(vectorDb.db, keys[i])
        case None =>
          assert Scores(keys[..i + 1], vectorDb.db, q, similarity) == Err(BadVector(keys[i]));
          ScoresErrorPersists(keys, i + 1, vectorDb.db, q, similarity);
          return Err(BadVector(keys[i]));
        case Some(embedding) =>
          similarities := similarities + [Scored(keys[i], similarity(q, embedding))];
        i := i + 1;
      }
      assert keys[..i] == keys;
      r := Ok(similarities);
    }

    /** The lookup loop of search_knowledge: stops at the first key without a readable record. */
    method FetchAll(top: seq<string>) returns (r: Result<seq<KnowledgeItem>, Error>)
      requires Valid()
      ensures r == Fetch(md5, top, knowledgeDb.db)
    {
      var results: seq<KnowledgeItem> := [];
      var j := 0;
      while j < |top|
        invariant 0 <= j <= |top|
        invariant Fetch(md5, top[..j], knowledgeDb.db) == Ok(results)
      {
        assert top[..j + 1][..j] == top[..j];
        var item := GetKnowledgeItem(top[j]);
        if item.Err? {
          assert Fetch(md5, top[..j + 1], knowledgeDb.db) == Err(item.error);
          FetchErrorPersists(md5, top, j + 1, knowledgeDb.db);
          return Err(item.error);
        }
        results := results + [item.value];
        j := j + 1;
      }
      assert top[..j] == top;
      r := Ok(results);
    }
  }

  /** Once scoring a prefix of the keys has raised, scoring all of them raises the same error. */
  lemma {:induction false} ScoresErrorPersists(keys: seq<string>, n: nat, vectors: Table<JsonValue>, q: seq<real>,
                                               sim: (seq<real>, seq<real>) -> real)
    requires n <= |keys| && Scores(keys[..n], vectors, q, sim).Err?
    ensures Scores(keys, vectors, q, sim) == Scores(keys[..n], vectors, q, sim)
    decreases |keys| - n
  {
    if n < |keys| {
      assert keys[..n + 1][..n] == keys[..n];
      ScoresErrorPersists(keys, n + 1, vectors, q, sim);
    } else {
      assert keys[..n] == keys;
    }
  }

  /** Once fetching a prefix of the keys has raised, fetching all of them raises the same error. */
  lemma {:induction false} FetchErrorPersists(md5: string -> string, keys: seq<string>, n: nat, records: Table<JsonValue>)
    requires n <= |keys| && Fetch(md5, keys[..n], records).Err?
    ensures Fetch(md5, keys, records) == Fetch(md5, keys[..n], records)
    decreases |keys| - n
  {
    if n < |keys| {
      assert keys[..n + 1][..n] == keys[..n];
      FetchErrorPersists(md5, keys, n + 1, records);
    } else {
      assert keys[..n] == keys;
    }
  }
}
