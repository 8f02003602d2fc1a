# DocProfessor core, modelled in Dafny

DocProfessor files a user's documents by topic and answers questions about them using
retrieval. This project models its core:

- **Knowledge retrieval engine** (`knowledge.py`, `utils/knowledge_db.py`). A knowledge
  item is keyed by the MD5 of its text. The engine keeps two key-value stores under that
  key: `knowledge_db` holds the item's JSON record and `vector_db` its embedding. Search
  scores every stored vector against the query, sorts the pairs by similarity with a
  stable descending sort, keeps the first `k` and fetches their records. The key-value
  store is a pickledb dictionary, and a class-level registry hands out one store per file
  path.
- **Document study** (`doc_study.py`). A document is split on newlines. Paragraphs and
  sentences are packed greedily into chunks of about `window_size` characters, and every
  chunk is added to the engine.
- **Resolver** (`doc_resolver.py`). It post-processes the language model's answers: the
  fence stripping, the JSON key check, the category and keyword extraction (with the
  `['others']` default) and the error flow of `resolve_doc`.
- **Professor** (`doc_professor.py`). It keeps the categories map and the table of
  document statuses. `resolve_docs` walks the documents waiting to be resolved: it
  classifies each one, records its labels in the map, files it under its first category,
  studies it and marks it resolved. This file also holds the category and keyword updates
  and the path builders.
- **Document table** (`utils/database.py`). A pandas table of documents, modelled as a
  sequence of rows.

Modules:

- `Wrappers` holds the Option and Result types.
- `PyText` models the Python string, list and `os.path` behaviour the core relies on.
- `Dicts` models Python's insertion-ordered dict.
- `Json` models JSON values.
- `Ranking` models the stable descending sort.
- `KnowledgeDb`, `Knowledge`, `Study`, `Resolver`, `Professor` and `Database` follow the
  source files.

Several things the program calls but that are outside the core become parameters of the
objects that use them:

- hashing (`md5`);
- the embedding model (`embed`);
- cosine similarity (`similarity`);
- the sentence tokenizer;
- `json.loads`;
- the language model's answers (`classifier`, `summarizer`);
- reading a document (`readDoc`).

What is read from disk when a store or map is loaded is passed in as a value.
Filesystem writes are not performed. `resolve_docs` returns its moves and file writes,
in order, as a list of effects.

## Model

| member | source | states |
|---|---|---|
| `PyText.LStripSpec` | doc_resolver.py:43 | `lstrip(chars)` leaves a suffix of the input. Every character it removes is in `chars`, and the first character left is not. |
| `PyText.RStripSpec` | doc_resolver.py:43 | `rstrip(chars)` leaves a prefix of the input. Every character it removes is in `chars`, and the last character left is not. |
| `PyText.StripCharsSpec` | doc_study.py:29 | `strip` leaves nothing exactly when every character is stripped. Otherwise what is left starts and ends with a kept character. It is never longer than the input. |
| `PyText.StripSpec` | doc_study.py:29-32 | `str.strip()` is empty exactly for a whitespace-only paragraph, which is the one that is skipped. A non-empty result has no whitespace at either end. |
| `PyText.SplitLinesNoNewline` | doc_study.py:25 | No part of `split('\n')` contains a newline. |
| `PyText.SplitJoinLines` | doc_study.py:25 | Joining the parts of `split('\n')` with newlines gives back the document, so no text is lost. |
| `PyText.Take` | knowledge.py:88 | `xs[:k]` is a prefix of `xs`. Its length is min(k, n) for k >= 0, and for negative k it drops the last \|k\| items (none left when \|k\| >= n). |
| `PyText.BasenameSpec` | doc_professor.py:179 | `basename` returns a slash-free suffix of the path. That suffix is preceded by `/` unless it is the whole path. |
| `PyText.BasenameJoin` | doc_professor.py:179-183 | The basename of `join(dir, name)` is `name`, for a slash-free name. |
| `PyText.JoinAppend` | doc_professor.py:190-195 | Joining a directory with `name + ext` equals joining it with `name` and then appending `ext`. |
| `Dicts.Put` | utils/knowledge_db.py:36-37 | Setting a key yields a well-formed dict whose entries are the old ones with that key set. |
| `Dicts.PutLookup` | utils/knowledge_db.py:33-37 | After `set(k, v)`, `get(k)` is `v` and every other key reads as before. |
| `Dicts.PutPresent` | knowledge.py:50-51 | Assigning to a key that is already present neither moves it nor adds a key. |
| `Dicts.Remove` | utils/knowledge_db.py:39-45 | Removing a key takes exactly that key out of the key set and keeps the dict well formed. |
| `Dicts.RemoveLookup` | utils/knowledge_db.py:39-45 | After removing `k`, `k` is absent and every other key reads as before. |
| `Dicts.RemoveAbsent` | utils/knowledge_db.py:39-43 | Removing an absent key changes nothing. |
| `Dicts.PutAllUpdated` | doc_professor.py:66-74 | After the update loop, every key of the update dict holds the update's value. |
| `Dicts.PutAllUntouched` | doc_professor.py:66-74 | Keys the update dict does not mention read as before. |
| `Dicts.PutAllKeepsOrder` | doc_professor.py:66-74 | The keys the dict already had stay first, in their old order. |
| `Dicts.FromKeysSpec` | doc_professor.py:149-150 | `{c: '' for c in cs}` has exactly the labels of `cs` as keys, each mapped to `''`, with duplicates merged. |
| `Json.VectorRoundTrip` | knowledge.py:49-50 | An embedding stored as a JSON list of numbers reads back as the same vector. |
| `KnowledgeDb.KnowledgeDB.constructor` | utils/knowledge_db.py:17-31 | A new store holds what its file held (empty when there is no file). |
| `KnowledgeDb.KnowledgeDB.Get` | utils/knowledge_db.py:33-34 | `get` finds a key exactly when it is present, and returns its value. |
| `KnowledgeDb.KnowledgeDB.GetAll` | knowledge.py:80 | `getall()` lists every key once. |
| `KnowledgeDb.KnowledgeDB.Set` | utils/knowledge_db.py:36-37 | `set` assigns the key and returns true. |
| `KnowledgeDb.KnowledgeDB.Delete` | utils/knowledge_db.py:39-45 | `delete` returns true exactly for a present key and then removes only it. On an absent key it returns false and changes nothing. |
| `KnowledgeDb.KnowledgeDB.Clear` | utils/knowledge_db.py:52-55 | `clear` leaves no entries. |
| `KnowledgeDb.Registry.constructor` | utils/knowledge_db.py:8 | The registry starts empty. |
| `KnowledgeDb.Registry.Open` | utils/knowledge_db.py:10-15 | The first open of a path loads a fresh store and registers it. Every later open of that path returns the same store with its contents unchanged. |
| `KnowledgeDb.DistinctPathsDistinctStores` | utils/knowledge_db.py:10-15 | Different paths never share a store. |
| `Ranking.SortPermutes` | knowledge.py:87 | The sort returns a permutation of the scored pairs. |
| `Ranking.SortDescending` | knowledge.py:87 | After the sort, similarities are non-increasing. |
| `Ranking.SortStable` | knowledge.py:87 | For every similarity value, pairs with that value keep their original relative order (Python's stable sort with `reverse=True`). |
| `Ranking.SortKeys` | knowledge.py:87 | The sort keeps the set of keys, each once. |
| `Ranking.Keys` | knowledge.py:88 | `[key for key, _ in pairs]` keeps the order and the length. |
| `Knowledge.NewItem` | knowledge.py:17-20 | An item keeps its text and score. An explicit non-empty hash is kept; a missing or empty hash falls back to md5(text). |
| `Knowledge.SameTextSameKey` | knowledge.py:19 | Equal texts get equal keys. |
| `Knowledge.FromJson` | knowledge.py:31-35 | A decoded item comes from a JSON object with only known fields, including the text, and keeps that text. |
| `Knowledge.JsonRoundTrip` | knowledge.py:28-35 | `from_json_str(to_json_str(item))` gives back the text and score, and also the hash unless it was empty. |
| `Knowledge.NewItemRoundTrip` | knowledge.py:28-35 | Every item the engine builds survives the JSON round trip unchanged. |
| `Knowledge.Added` | knowledge.py:47-51 | Adding keeps both stores well formed. |
| `Knowledge.AddedSpec` | knowledge.py:47-51 | After `add_knowledge_item(t, s)`, key md5(t) decodes to (t, s, md5(t)) and its vector is embed(t). Every other key of both stores is untouched. |
| `Knowledge.AddedKeys` | knowledge.py:47-51 | Adding puts md5(t) into both stores and adds no other key. |
| `Knowledge.AddedAgain` | knowledge.py:47-51 | Re-adding a stored text overwrites both entries in place: no key is added or moved. |
| `Knowledge.DeletedSpec` | knowledge.py:53-55 | After delete, `h` is in neither store and every other key is untouched. An absent `h` changes nothing and raises nothing. |
| `Knowledge.UpdatedSpec` | knowledge.py:57-59 | After update, `h` is gone unless md5(t) = h, and md5(t) holds (t, s). |
| `Knowledge.AddedPaired` | knowledge.py:47-51 | Add keeps the two stores' key sets equal, and every entry readable. |
| `Knowledge.DeletedPaired` | knowledge.py:53-55 | Delete keeps the two stores' key sets equal, and every entry readable. |
| `Knowledge.UpdatedPaired` | knowledge.py:57-59 | Update keeps the two stores' key sets equal, and every entry readable. |
| `Knowledge.Scores` | knowledge.py:81-85 | A successful scoring yields one pair per key. |
| `Knowledge.Fetch` | knowledge.py:89 | A successful fetch yields one item per key. |
| `Knowledge.ScoresOk` | knowledge.py:80-85 | With every vector readable, scoring succeeds and pairs each key, in order, with the similarity of its vector. |
| `Knowledge.FetchOk` | knowledge.py:61-62 | With every record readable, fetching succeeds and returns exactly the stored records, in order. |
| `Knowledge.FetchOkKeysPresent` | knowledge.py:89 | A fetch that succeeds only read keys present in the record store. |
| `Knowledge.ScoresErrorPersists` | knowledge.py:82-85 | The first unreadable vector decides the result of the whole scoring loop. |
| `Knowledge.FetchErrorPersists` | knowledge.py:89 | The first missing or unreadable record decides the result of the whole fetch. |
| `Knowledge.RankedOrder` | knowledge.py:80-87 | The ranked list holds every stored key exactly once, by non-increasing similarity, with ties in `getall()` order. |
| `Knowledge.TopReadable` | knowledge.py:88-89 | On paired, readable stores every key of the top k has a readable record. This is why search relies on the pairing. |
| `Knowledge.SearchSucceeds` | knowledge.py:78-91 | On paired, readable stores, search succeeds. It returns min(k, n) items for k >= 0, or Python's slice for negative k, and these are the stored records (with their stored score) of the ranked keys, in order. |
| `Knowledge.SearchEmpty` | knowledge.py:78-91 | An empty store answers every query with `[]`. |
| `Knowledge.KnowledgeRetrieval.constructor` | knowledge.py:39-45 | Both stores are opened through the registry, which shares a store with earlier opens of the same path. |
| `Knowledge.KnowledgeRetrieval.AddKnowledgeItem` | knowledge.py:47-51 | The stores become `Added` of the old stores. |
| `Knowledge.KnowledgeRetrieval.DeleteKnowledgeItem` | knowledge.py:53-55 | The stores become `Deleted` of the old stores; a missing key is not an error. |
| `Knowledge.KnowledgeRetrieval.UpdateKnowledgeItem` | knowledge.py:57-59 | The stores become delete-then-add of the old stores. |
| `Knowledge.KnowledgeRetrieval.GetKnowledgeItem` | knowledge.py:61-62 | Succeeds exactly when the key has a decodable record, and returns that record. |
| `Knowledge.KnowledgeRetrieval.ClearKnowledgeDb` | knowledge.py:64-69 | The record store is emptied and the vector store left alone. The stores stay paired only if the vector store was already empty. |
| `Knowledge.KnowledgeRetrieval.ClearVectorDb` | knowledge.py:71-76 | The vector store is emptied and the record store left alone. The stores stay paired only if the record store was already empty. |
| `Knowledge.KnowledgeRetrieval.SearchKnowledge` | knowledge.py:78-91 | The result is `Search` of the current stores, whose properties `SearchSucceeds` and `RankedOrder` state. |
| `Knowledge.KnowledgeRetrieval.ScoreAll` | knowledge.py:80-85 | The scoring loop computes `Scores`, stopping at the first unreadable vector. |
| `Knowledge.KnowledgeRetrieval.FetchAll` | knowledge.py:88-89 | The fetch loop computes `Fetch`, stopping at the first missing record. |
| `Study.PackAll` | doc_study.py:48-55 | A long paragraph contributes one packing step per sentence, in order. |
| `Study.Chunks` | doc_study.py:63-66 | At least one text is always added: the final add. |
| `Study.TextPack` | doc_study.py:39 | Packing a piece appends `" " + piece` to the current chunk. |
| `Study.RunFlushesNonBlank` | doc_study.py:41-44 | A mid-stream flush never adds a blank chunk. |
| `Study.RunBounded` | doc_study.py:38-39 | A chunk that packed two or more pieces is at most `window_size + 1` characters, because the joining space is not counted. |
| `Study.ChunksBounded` | doc_study.py:38-55 | Every added chunk made of two or more pieces is at most `window_size + 1` long. A longer chunk is a single piece, which is never split. |
| `Study.ChunksNonEmptyButLast` | doc_study.py:41-66 | Every chunk but the last is non-empty and has no whitespace at either end. Only the final one may be `""`. |
| `Study.RunKeepsPieces` | doc_study.py:28-61 | With clean pieces, the walk neither loses nor reorders a piece. The flushed groups followed by the current one are exactly the pieces fed in. |
| `Study.DocStepsClean` | doc_study.py:29-34 | With a tokenizer giving non-empty sentences trimmed at both ends, every piece is a stripped, non-blank paragraph or a sentence from the tokenizer. |
| `Study.ChunksKeepText` | doc_study.py:25-66 | With a tokenizer giving non-empty sentences trimmed at both ends, flattening the chunks' piece groups gives every piece of the document in input order. So each piece lands in exactly one chunk. |
| `Study.ChunksJoined` | doc_study.py:43 | With a tokenizer giving non-empty sentences trimmed at both ends, each chunk added is its pieces joined by single spaces. |
| `Study.BlankDocument` | doc_study.py:64-66 | A blank document still adds exactly one item, the empty text, because the final add is unguarded. |
| `Study.AddChunksStored` | doc_study.py:43 | After studying, every chunk's key is in both stores. |
| `Study.AddChunksLast` | doc_study.py:66 | The last chunk added reads back as itself with score 0.0. |
| `Study.AddChunksUntouched` | doc_study.py:43 | Studying leaves every key no chunk hashes to untouched. |
| `Study.AddChunksPaired` | doc_study.py:43 | Studying keeps paired, readable stores paired and readable. |
| `Study.DocStudy.constructor` | doc_study.py:13-16 | The learner opens its engine's two stores through the registry. |
| `Study.DocStudy.Flush` | doc_study.py:41-43 | The guarded add: the stores gain the stripped chunk exactly when it is not blank. |
| `Study.DocStudy.RestartWith` | doc_study.py:56-61 | A multi-sentence paragraph shorter than the window first flushes the pending chunk, then becomes the new chunk. |
| `Study.DocStudy.PackPiece` | doc_study.py:38-44 | The accumulate rule for one piece, tied to the walk specification. |
| `Study.DocStudy.PackSentences` | doc_study.py:47-55 | The sentence loop packs every sentence in turn. |
| `Study.DocStudy.StudyParagraph` | doc_study.py:34-61 | The three paragraph branches: a short paragraph is packed whole, a long one is packed by sentence, and any other restarts the chunk. |
| `Study.DocStudy.StudyLine` | doc_study.py:28-32 | A blank paragraph contributes nothing. |
| `Study.DocStudy.StudyLines` | doc_study.py:25-61 | The paragraph loop follows `DocSteps` of the split document. |
| `Study.DocStudy.StudyDoc` | doc_study.py:18-66 | `study_doc` adds exactly the texts of `Chunks(doc)`, in order, each with score 0.0. |
| `Study.DocStudy.ClearLocalKnowledge` | doc_study.py:68-70 | Both stores end up empty. |
| `Resolver.StripFenceEnds` | doc_resolver.py:43 | After the fence stripping, the text neither starts with one of `` ` j s o n `` nor ends with a backtick. |
| `Resolver.StripFenceCharSet` | doc_resolver.py:43 | `lstrip("```json")` strips a set of characters, not a prefix: a leading `n`, `o`, `s`, `j` or backtick is dropped in any order. |
| `Resolver.ParseResponseJson` | doc_resolver.py:41-51 | The answer is returned exactly when it parses to an object with `title`, `candidate_category` and `candidate_keyword`. Otherwise the result is None. |
| `Resolver.PicksSpec` | doc_resolver.py:79-83 | The collecting loop succeeds exactly when every item is a dict holding the field, and then returns the fields in order. |
| `Resolver.Extracted` | doc_resolver.py:75-86 | A successful extraction never has an empty category list. It succeeds exactly when both candidate lists can be read. |
| `Resolver.MissingCandidates` | doc_resolver.py:76-77 | Missing candidate keys count as empty lists, which gives `['others']` and no keywords. |
| `Resolver.ExtractedFields` | doc_resolver.py:78-86 | The categories are the `category` fields and the keywords the `keyword` fields, in order. Only an empty category list becomes `['others']`. |
| `Resolver.ExtractedRejects` | doc_resolver.py:79-83 | A candidate value that cannot be iterated as a list of dicts makes the extraction raise. |
| `Resolver.DocResolver.constructor` | doc_resolver.py:8-12 | A new resolver has no categories map. |
| `Resolver.DocResolver.SetCategoriesMap` | doc_resolver.py:14-15 | The map is set. |
| `Resolver.DocResolver.SummarizeDoc` | doc_resolver.py:88-98 | The model's answer is returned as it comes, empty or not. A failing call raises `ModelFailed`. |
| `Resolver.DocResolver.ClassifyDoc` | doc_resolver.py:39-73 | A failing call to the model raises out of `classify_doc`. Otherwise a parse failure gives None, and an answer that is not None always holds the three answer keys. |
| `Resolver.DocResolver.Collect` | doc_resolver.py:79-83 | One collecting loop computes `Candidates`, stopping at the first bad item. |
| `Resolver.DocResolver.GetCategoryAndKeywords` | doc_resolver.py:75-86 | The loops compute `Extracted`, and a successful result never has empty categories. |
| `Resolver.DocResolver.ResolveDoc` | doc_resolver.py:17-37 | A failing call to the model raises, for the classification and for the summary alike. It raises "No category found" when classification gives None. It raises the keywords error when extraction fails or finds no keyword; the empty-categories test never fires. It raises "No summary found" for an empty summary, and otherwise returns all three values, each non-empty. |
| `Professor.Updated` | doc_professor.py:66-74 | An update with no items never raises. Otherwise it succeeds exactly when the section is a dict, and raises that section's error when it is not. |
| `Professor.UpdatedSpec` | doc_professor.py:66-74 | Every updated name holds its description, with later items winning. Other names and other sections are unchanged, and old names keep their order at the front. |
| `Professor.CandidateNames` | doc_professor.py:76-88 | The section's keys, each once, or `[]` when reading the section raises. |
| `Professor.CandidatesAfterUpdate` | doc_professor.py:66-88 | After an update the candidates are the old ones, in order, followed by the new names. |
| `Professor.Texts` | doc_professor.py:149-150 | Labels become dict keys exactly when all of them are strings, in order. |
| `Professor.Prepare` | doc_professor.py:128-145 | A document gets past the try block exactly when its content is in scope, both model calls return, its answer parses with the keys and both lists are readable. Any failing model call skips it. A ready document has non-empty categories, and its summary is the model's answer. |
| `Professor.Filed` | doc_professor.py:149-152 | Filing keeps the map well formed. |
| `Professor.ModelFailureSkips` | doc_professor.py:128-145 | A failing call to the model, for the classification or for the summary, sends the loop on to the next document. |
| `Professor.FiledUntilError` | doc_professor.py:149-152 | A failed filing leaves a well-formed map (the category update kept when only the keyword update raised). |
| `Professor.FailedFilingKeepsCategories` | doc_professor.py:149-152 | When the keyword update raises after the category update, every category of the document is a candidate, and the keyword candidates are as before. |
| `Professor.FiledNames` | doc_professor.py:149-152 | After filing, all of the document's categories and keywords are candidates. |
| `Professor.DocProfessor.constructor` | doc_professor.py:14-37 | Derives the `data/`, `temp/` and `config/category_map.json` paths. Starts with no map and no documents, with a learner over `database/knowledge_db.pkl` and `database/vector_db.pkl`. |
| `Professor.DocProfessor.LoadCategoriesMap` | doc_professor.py:43-45 | The map is the loaded JSON, or the load raises and nothing changes. |
| `Professor.DocProfessor.UpdateSection` | doc_professor.py:66-74 | The shared update loop: the map becomes `Updated`, or the error leaves it unchanged. |
| `Professor.DocProfessor.UpdateCategories` | doc_professor.py:71-74 | The same for `candidate_category`. |
| `Professor.DocProfessor.UpdateKeywords` | doc_professor.py:66-69 | The same for `candidate_keyword`. |
| `Professor.DocProfessor.SetDescription` | doc_professor.py:58-64 | One name of a section is set to its description, or the section's error leaves the map unchanged. |
| `Professor.DocProfessor.UpdateCandidateCategoryDesc` | doc_professor.py:58-60 | The same for one category. |
| `Professor.DocProfessor.UpdateCandidateKeywordDesc` | doc_professor.py:62-64 | The same for one keyword. |
| `Professor.DocProfessor.GetCandidateCategory` | doc_professor.py:76-81 | The category names once each, or `[]` when the lookup fails. |
| `Professor.DocProfessor.GetCandidateKeyword` | doc_professor.py:83-88 | The keyword names once each, or `[]` when the lookup fails. |
| `Professor.DocProfessor.NewDocPath` | doc_professor.py:177-186 | The moved document keeps its own file name. |
| `Professor.DocProfessor.BesideDoc` | doc_professor.py:188-210 | The info file (`.json`, `NewDocInfoPath`) and the summary file (`.md`, `SummaryPath`) are the moved document's path with the suffix added. |
| `Professor.DocProfessor.FilingEffects` | doc_professor.py:154-165 | A document is filed under its first category. It is moved to `join(user_doc_dir, categories[0], basename)`, the answer is written next to it as `.json` and the summary as `.md`. |
| `Professor.DocProfessor.PrepareDoc` | doc_professor.py:128-145 | The try block computes `Prepare`. |
| `Professor.DocProfessor.UpdateLabels` | doc_professor.py:149-152 | Both updates succeed exactly when `Filed` does, and the map becomes its value. When the keyword update raises after the category update, the categories stay written (`FiledUntilError`). |
| `Professor.DocProfessor.FileDoc` | doc_professor.py:147-171 | On success the map, the effects and the stores are those of filing and studying the document, and its status becomes 1 last. A failing update changes neither the statuses nor the stores, and leaves the map as `FiledUntilError` gives it. |
| `Professor.DocProfessor.ResolveOne` | doc_professor.py:122-171 | One unresolved document: it stops the walk exactly on a bad label or a failing map update, and then the map is what that update left. Otherwise it files the document exactly when the content prepares, and a skipped document changes nothing. |
| `Professor.DocProfessor.ResolveAt` | doc_professor.py:118-171 | One turn of the loop keeps the walk invariant: a status becomes 1 exactly for a filed document and is otherwise unchanged. A resolved document is skipped before reading, and a failed read keeps the previous content. When the turn stops the walk, the document in hand has a bad label or fails the update, and the map is what that update left. |
| `Professor.DocProfessor.ResolveRead` | doc_professor.py:124-171 | The part of one turn after an unresolved document's content is in scope. Either the walk invariant holds for the next position, or the walk stops (`Halted`): the document has a bad label or fails the map update, and the map is what that update left. |
| `Professor.DocProfessor.WalkDocs` | doc_professor.py:118-171 | The loop of resolve_docs keeps the walk invariant. What it files is a prefix of `Scan`'s filings; when the loop completes it is all of them, and the map is their fold. When it stops, `Halted` holds at the stopping position. |
| `Professor.DocProfessor.ResolveDocs` | doc_professor.py:116-173 | Keys and order never change. A filed document's status goes from not-1 to 1, and every other status is unchanged. When the walk completes, the documents filed are exactly `Scan`'s and the result is the status table itself. The map, the effects and the stores are those of filing and studying the filed documents. When it raises, it raises at a document whose status was not 1 and that has a bad label or fails the update, after filing exactly what `Scan` files before it, and the map keeps that update's written categories. |
| `Professor.PutEach` | doc_professor.py:67-68 | The `for k, d in u.items(): section[k] = d` loop computes `PutAll`. |
| `Database.Named` | utils/database.py:33 | The filter `df[df['doc_name'] == name]` keeps exactly the rows with that name. |
| `Database.NamedSpec` | utils/database.py:33 | Each row with the name extends the selection of the rows before it, so the selection keeps table order. |
| `Database.NamedFirst` | utils/database.py:33 | `.values[0]` is the first row with that name. |
| `Database.NamedAppend` | utils/database.py:23-28 | An appended row joins its own document's selection at the end, and no other. |
| `Database.UnnamedRemoves` | utils/database.py:39-41 | After deleting a name, no row has it. |
| `Database.UnnamedKeepsOthers` | utils/database.py:39-41 | Deleting a name keeps every other document's rows, in order. |
| `Database.Unnamed` | utils/database.py:41 | The filter `df[df['doc_name'] != name]` keeps exactly the rows of other documents. |
| `Database.DeleteThenGet` | utils/database.py:31-42 | After `delete_doc_info(f)` the getters fail for `f` and answer as before for every other name. |
| `Database.UpdateKeepsFirst` | utils/database.py:23-37 | A second `update_doc_info` for a document is invisible to the getters, because the first row wins. |
| `Database.MyDatabase.constructor` | utils/database.py:7-18 | `__init__` always takes the create branch, so the table starts empty. |
| `Database.MyDatabase.LoadDb` | utils/database.py:19-21 | `load_db` on a live table reads back the persisted rows. |
| `Database.MyDatabase.UpdateDocInfo` | utils/database.py:23-29 | Exactly one row is appended at the end. |
| `Database.MyDatabase.GetInfoPath` | utils/database.py:31-33 | The info path of the first row with the name, or an error when no row has it. |
| `Database.MyDatabase.GetSummaryPath` | utils/database.py:35-37 | The summary path of the first row with the name, or an error when no row has it. |
| `Database.MyDatabase.DeleteDocInfo` | utils/database.py:39-43 | Every row of the document goes, and the others keep their order. |

## Left out

- Persistence and I/O are not performed:
  - pickledb dumps (`KnowledgeDB.dump`) and the file removals in `clear_*_db`;
  - `os.makedirs`, the JSON and markdown writes and `move_doc`, which `resolve_docs` returns as effects instead;
  - pandas CSV writes, `save_categories_map` and `make_dirs_based_on_categories`;
  - `get_all_document_paths`, logging and `nltk.download`.
- MD5, the embedding model, cosine similarity, the sentence tokenizer, `json.loads`, the language model and `get_doc_content` are function parameters. Their own behaviour is not modelled. A call to the language model may fail (None), which stands for any exception `get_model_answer` raises. Similarities are reals with their usual total order.
- The `DocAssistant` chat component, the Flask routes and the filesystem helpers are not part of this model.
- `KnowledgeItem.__str__`/`__repr__` are formatting only.
- A JSON text is represented by the value it denotes, so `json.dumps` followed by `json.loads` is the identity. Field order inside a record is not modelled.
- `Knowledge.FromJson` accepts only the field types `to_json_str` produces (a string text, a numeric score, and a string or null hash). Python would also build items from other field types.
- `Knowledge.KnowledgeRetrieval.constructor` requires the two store paths to differ. With one path both stores would be one object, and that aliasing is not modelled.
- `Knowledge.KnowledgeRetrieval.SearchKnowledge` sorts a new sequence rather than the list in place; the order it produces is the same.
- `Study.DocStudy.StudyDoc` takes any integer window; the default `window_size=500` is used by `resolve_docs` (`StudyWindow`).
- An exception raised by `study_doc` or `move_doc` inside `resolve_docs` is not modelled.
- `Study.DocStepsClean`, `Study.ChunksKeepText` and `Study.ChunksJoined` assume that the sentence tokenizer gives non-empty sentences trimmed at both ends. A blank sentence is dropped when its chunk is flushed, so without that assumption pieces can be lost.
- `Professor.DocProfessor.ResolveOne` stops the walk on any non-string category or keyword, as `Professor.Texts` and the `BadLabel` case of `Professor.Prepare` decide. Python raises at once only for unhashable labels (lists, dicts). Numbers, booleans and null are used as dict keys and both map updates go through. The loop then goes on, unless such a label is the first category: `os.path.join` then raises inside `get_new_doc_path_based_on_category`, whose `except` returns None, and `move_doc(doc_path, None)` raises out of resolve_docs after the map updates.
- `Professor.DocProfessor.LoadCategoriesMap` accepts only a JSON object whose top-level values are dicts or other JSON values. A file holding something other than an object reads as a failed load.
- `add_candidate_category`/`add_candidate_keyword` call `.append` on the section, which is a dict everywhere else in the class, so they always raise. They are not modelled, and neither is the list form they assume.
- `get_categories_map` is a plain read of the `categoriesMap` field and has no member of its own.
- `DocProfessor.parse_response_json` (doc_professor.py:104-114) repeats `DocResolver.parse_response_json` word for word and is never called. `Resolver.ParseResponseJson` models both.
- `Database.Row` keeps every cell as a string; pandas type inference on reload is not modelled.
- Known wiring mismatches in the source, which the model resolves as follows:
  - `knowledge.py` imports `KnowledgeDB` from `utils.database`, but the class lives in `utils/knowledge_db.py`; the model uses the latter.
  - `DocProfessor.__init__` passes `tokenizer_dir` to `DocStudy`, which does not take it, and no embedding model; the model passes the engine's collaborators explicitly.
- `Resolver.DocResolver.ClassifyDoc` takes the model's answer as a function of the categories map and the document. The prompt text itself is not modelled.
