# A verified model of a retrieval-augmented chat backend

This project models the core of a chat backend that answers questions from uploaded documents. It covers five services:

- **Text chunkers** (`Chunking`). The fixed-size chunker slides a window of `chunk_size` words forward by `chunk_size - overlap` words. The semantic chunker accumulates sentences into a buffer and emits it once the next sentence would push it past `max_chunk_size`, but only if the buffer has reached `min_chunk_size`. A factory picks one of the two by name.
- **In-memory vector store** (`VectorStore`). Two dictionaries keyed by id (vectors and metadata) support add/overwrite, top-k search with an optional metadata filter, and delete. The class keeps Python's dictionary insertion order explicitly (`order`). That order is what search iterates over, and it decides how ties are ordered. The similarity is an uninterpreted function of two vectors.
- **Conversation memory** (`ChatMemory`). The Redis list store is a map from key to list, with the semantics of `LPUSH`, `LRANGE` and `DEL`:
  - Redis keeps no empty lists.
  - `LRANGE` normalises negative and out-of-range indices.
  - `DEL` reports the number of keys removed.

  The service saves a message to the front of the session's list and reads the newest `limit` messages oldest-first. Clearing reports whether the key existed. The context is rendered as `Role: content` lines.
- **Query orchestration** (`RagEngine`):
  - booking-intent detection (a substring test against ten keywords);
  - the prompt builder;
  - the extractive answer used when no language model is configured;
  - `generate_response` and `generate_response_with_citations`;
  - `process_chat_query`, which writes the user's message and then the answer to memory.

  The language model is an oracle. Either there is no client, or it is a pair of functions: one gives the reply to a prompt, the other the reply to a query over documents. Each can raise. The query embedder and the `{similarity:.3f}` formatting are uninterpreted functions. The two `datetime.utcnow()` timestamps of a turn are parameters.
- **Retrieval metrics** (`Metrics`): precision, recall and F1 over de-duplicated sets; positional accuracy; mean reciprocal rank. All are exact arithmetic over `real`.

`Values` holds the shared wrappers and dynamically typed scalars:
- `Result`/`Option`;
- the exceptions that reach a caller (`ValueError`, `AttributeError`, `ZeroDivisionError`);
- dictionary values (`None`, booleans, integers, strings), with `dict.get`, `str()` and Python's `==` (`True == 1`).

`Text` models the string built-ins the services rely on:
- `str.split()` (every character for which Python's `isspace` is true);
- `str.split(sep)`;
- `' '.join`;
- `str.strip()`;
- `str.lower()` and `str.title()` (ASCII letters);
- substring `in`;
- `re.split(r'[.!?]+', s)`;
- Python slicing.

Operations that loop in the source are methods with loop invariants, proved equal to a specification function. The properties are lemmas about those functions. Three kinds of source code are classes whose methods update fields and carry `modifies` clauses: `InMemoryVectorStore`, the Redis list store with `ChatMemoryService` over it, and `RAGEngine`.

Where the code and its design description disagree, the model follows the code:
- **Failed model call.** `generate_response` does not fall back to the extractive answer when the model call fails. It returns the text `"Error generating response: …"`. Only `generate_response_with_citations` falls back, and it falls back to `generate_response`.
- **Errors can propagate.** `process_chat_query` can fail. A stored message whose role is not a string makes `role.title()` raise `AttributeError`. That error propagates before anything is written (`RagEngine.RagEngine.ProcessChatQuery`).
- **Second fallback condition.** The extractive answer falls back to the `"Based on the available information: "` excerpt in two cases. One is that no chunk overlaps the query. The other is that the best chunk overlaps it but none of that chunk's sentences does. This can happen because sentence splitting removes the punctuation that word splitting keeps.
- **Labelled texts.** The extractive answer reached from `generate_response` runs over the labelled texts `"[Similarity: …] <text>"`. So the label takes part in the word overlap and begins the fallback excerpt.
- **Empty result.** A fixed-size chunker whose overlap exceeds its size yields no chunks for any text: `range` with a negative step is empty. An overlap equal to the size raises `ValueError`.

## Model

| member | source | states |
|---|---|---|
| Chunking.Chunk.Metadata | app/services/chunking.py:23-29 | Every caller key is in the chunk's metadata with the caller's value. Each computed key (`chunk_index`, `chunk_size`, `start_word`, `end_word`, `paragraph_start`, `semantic_boundary`) has its computed value unless the caller supplies that key. |
| Chunking.GetChunkingStrategy | app/services/chunking.py:94-99 | The result is semantic exactly when the name is "semantic", with sizes 1000/100. Otherwise it is fixed-size with 512/50, for "fixed_size" and for any unknown name alike. |
| Chunking.FixedSizeChunkText | app/services/chunking.py:15-36 | The method's result is the fixed-size specification. A zero step raises `ValueError`; a negative step yields no chunks. |
| Chunking.SlideWindows | app/services/chunking.py:19-34 | The loop over `range(0, len(words), step)` appends exactly the windows of the specification, in order. |
| Chunking.WindowChunk | app/services/chunking.py:20-34 | One loop pass builds the chunk of the window at `start`, numbered by the chunks already emitted. |
| Chunking.WindowEnd | app/services/chunking.py:20 | `words[i:i + chunk_size]` ends at `min(i + chunk_size, n)` when `chunk_size >= 1`, and never before `i`. |
| Chunking.FixedWindows | app/services/chunking.py:19-34 | There is one chunk per start of the range. |
| Chunking.StartsAt | app/services/chunking.py:19 | The `k`-th value of `range(start, n, step)` is `start + k*step` and lies below `n`. |
| Chunking.StartsNext | app/services/chunking.py:19 | Consecutive values of the range are one step apart. |
| Chunking.StartsLength | app/services/chunking.py:19 | The range stops only after passing `n`. |
| Chunking.StartsBelow | app/services/chunking.py:19 | Every value of the range lies in `[start, n)`. |
| Chunking.StartsCover | app/services/chunking.py:19 | Every index in `[start, n)` lies less than one step after some value of the range. |
| Chunking.FixedSizeWindowStarts | app/services/chunking.py:19-27 | For S−O > 0 the call succeeds. Chunk `k` is the window taken at word `k(S−O)`, which lies below the word count. The chunks together reach the end of the text. |
| Chunking.FixedSizeChunkContents | app/services/chunking.py:17-21 | Chunk `k` splits back into exactly the words from its start up to `start + S`, or to the end of the text when that comes first. No chunk is empty. |
| Chunking.FixedSizeChunkMetadata | app/services/chunking.py:23-28 | Unless the caller overrides them: `chunk_index` = `k`, `chunk_size` = the number of words in the window, `start_word` = the start, `end_word` = start + count − 1. |
| Chunking.FixedSizeOverlap | app/services/chunking.py:19-27 | For 0 ≤ O < S, chunk `k+1` starts S−O words after chunk `k`. When chunk `k` is full, its last O words are the first O words of chunk `k+1`. |
| Chunking.FixedSizeCoversEveryWord | app/services/chunking.py:19-20 | For 0 ≤ O < S, every word of the text lies in some chunk's window. |
| Chunking.SemanticChunkText | app/services/chunking.py:43-92 | The nested paragraph/sentence loops and the trailing flush compute the semantic specification. |
| Chunking.AddSentencesLoop | app/services/chunking.py:52-76 | The inner loop over one paragraph's sentences equals the sentence-by-sentence specification. |
| Chunking.FeedSentence | app/services/chunking.py:53-76 | One pass strips the sentence, skips it when it is empty, and then either flushes the buffer or appends to it, as the specification's step does. |
| Chunking.AddSentenceOk | app/services/chunking.py:53-76 | One step keeps the loop invariant. The buffer stays stripped, or is a blank followed by a stripped text longer than the maximum. Every emitted chunk keeps its shape. |
| Chunking.AddSentencesOk | app/services/chunking.py:52-76 | The invariant holds across one paragraph. |
| Chunking.AddParagraphsOk | app/services/chunking.py:49-76 | The invariant holds across all paragraphs. |
| Chunking.SemanticChunksWellFormed | app/services/chunking.py:58-90 | Every semantic chunk has these properties: its text is stripped; its length is at least `min_chunk_size` unless it exceeds `max_chunk_size`; `chunk_index` is its position; `chunk_size` counts the words of its text; it carries the caller's metadata. |
| Chunking.SemanticMinimumSize | app/services/chunking.py:59-79 | When `min ≤ max + 1`, as with the defaults, no semantic chunk is shorter than `min_chunk_size`, the trailing one included. |
| Chunking.SemanticKeepsAppendingBelowMinimum | app/services/chunking.py:58-74 | Suppose a sentence would overflow the maximum while the buffer is below the minimum. Then nothing is emitted, and the new buffer is exactly the old buffer, a blank and the stripped sentence, which takes it past the maximum. |
| Chunking.SemanticFlushRule | app/services/chunking.py:53-76 | A chunk is emitted exactly when the next non-empty stripped sentence overflows the maximum and the buffer has reached the minimum. The emitted text is the stripped buffer, and the new buffer is the sentence. A sentence that strips to "" leaves the whole state unchanged. Otherwise the new buffer is the old one, a blank and the sentence, or just the sentence when the buffer is empty and the sentence fits. Earlier chunks never change. |
| Chunking.ChunkText | app/services/chunking.py:5-8 | Dispatching `chunk_text` on the configured strategy computes that strategy's chunks. |
| Chunking.CallerMetadataOverrides | app/services/chunking.py:60-66 | Under both strategies, every chunk carries every caller key with the caller's value. |
| Chunking.SplitOnBlank | app/services/chunking.py:45 | Splitting blank text on "\n\n" yields only blank paragraphs. |
| Chunking.SplitSentencesBlank | app/services/chunking.py:50 | A blank paragraph is a single sentence. |
| Chunking.AddSentencesBlank | app/services/chunking.py:52-55 | Blank sentences are all skipped and leave the state unchanged. |
| Chunking.AddParagraphsBlank | app/services/chunking.py:49-55 | Paragraphs that are all blank leave the state unchanged. |
| Chunking.ParagraphBreaksNeverFlush | app/services/chunking.py:45-76 | Paragraph breaks never force a flush. The paragraph loop emits the same chunks (text, index, word count, caller metadata) and leaves the same buffer as one pass over all the sentences of the text in order. The paragraph only supplies `paragraph_start`. |
| Chunking.BlankTextHasNoChunks | app/services/chunking.py:15-19 | Empty or whitespace-only text yields no chunks under either strategy. The fixed-size strategy needs a non-zero step for this. |
| Text.Strip | app/services/chunking.py:53 | The result is stripped, is empty exactly when the input is blank, and is no longer than the input. |
| Text.IndexOf | app/services/chunking.py:45 | The result is the first occurrence of the separator, or None when there is none. |
| Text.PySlice | app/services/chunking.py:20 | Python slicing agrees with Dafny slicing on in-range bounds and clamps an upper bound past the end. |
| Text.Take | app/services/vector_store.py:137 | `s[:k]` is a prefix of `s`, of length `min(k, len(s))` for `k ≥ 0`. |
| Text.WordsOfJoin | app/services/chunking.py:21 | Joining words with single blanks and splitting again gives back the same words. |
| Text.Reverse | app/services/chat_memory.py:24 | `reversed` puts element `i` at position `n-1-i`. |
| Text.LowerContains | app/services/rag_engine.py:265 | A substring stays a substring after lower-casing both strings. |
| VectorStore.InMemoryVectorStore.constructor | app/services/vector_store.py:102-104 | The store starts empty. |
| VectorStore.InMemoryVectorStore.AddVectors | app/services/vector_store.py:106-114 | The method returns the given ids, or one generated id per vector when ids are omitted. It stores the zipped triples up to the shortest list: both dictionaries are updated in list order, a later duplicate overwrites an earlier one, and the insertion order is updated. The consistency invariant is kept. |
| VectorStore.InMemoryVectorStore.Put | app/services/vector_store.py:111-112 | One pass of the loop sets the vector and metadata of one id and keeps its position in insertion order. |
| VectorStore.InMemoryVectorStore.Search | app/services/vector_store.py:116-137 | The loop over the store's records, with the filter and the sort, returns exactly the search specification. |
| VectorStore.InMemoryVectorStore.Pop | app/services/vector_store.py:142-143 | Popping removes one id from both dictionaries and from the order, and succeeds for an unknown id. |
| VectorStore.InMemoryVectorStore.DeleteVectors | app/services/vector_store.py:139-146 | The method returns True and removes exactly the listed ids from both dictionaries and from the order. Unknown ids are ignored and every other record is unchanged. |
| VectorStore.PutAllKeys | app/services/vector_store.py:110-112 | After adding, the keys are the old keys plus the listed ids, and unlisted keys keep their values. |
| VectorStore.PutAllLastWins | app/services/vector_store.py:110-112 | An id's stored value is the one given at its last occurrence in the list: re-adding overwrites. |
| VectorStore.Touch | app/services/vector_store.py:111 | Assigning a key keeps the existing order as a prefix and adds the key only if it is new. Distinctness is preserved. |
| VectorStore.TouchAllKeys | app/services/vector_store.py:110-112 | The same holds for a list of ids. |
| VectorStore.WithoutKeys | app/services/vector_store.py:141-143 | After deletion the order holds exactly the ids that were present and not deleted. |
| VectorStore.WithoutTwice | app/services/vector_store.py:141-143 | Deleting one id after another is deleting the union. |
| VectorStore.Candidates | app/services/vector_store.py:124-133 | Each candidate is a stored id that passes the filter, paired with its similarity to the query and its own stored metadata. An empty or absent filter passes everything. |
| VectorStore.FilterComparesLikePython | app/services/vector_store.py:127-128 | The filter compares with Python's `==`. A stored 1 passes a `True` filter and a stored 0 a `False` one. A string never equals a number. A missing key passes only a `None` filter. |
| VectorStore.CandidatesComplete | app/services/vector_store.py:124-133 | Every stored record that passes the filter is a candidate. |
| VectorStore.InsertByScore | app/services/vector_store.py:136 | Inserting into a list sorted by descending score keeps it sorted and adds exactly the one hit. |
| VectorStore.SortByScore | app/services/vector_store.py:136 | The result is sorted by descending score and is a permutation of the input. |
| VectorStore.SortByScoreStable | app/services/vector_store.py:136 | The sort is stable: hits with equal scores keep their relative order. |
| VectorStore.SearchResultProperties | app/services/vector_store.py:116-137 | At most `top_k` hits are returned, sorted by descending score. Each is a stored id that passes the filter, with its similarity and its own metadata. |
| VectorStore.SearchResultIsTop | app/services/vector_store.py:136-137 | The hits are drawn from the candidates, and no candidate cut off by `top_k` scores above a returned hit. |
| VectorStore.EmptyStoreSearch | app/services/vector_store.py:117-118 | Searching an empty store returns nothing. |
| VectorStore.DeletedNeverReturned | app/services/vector_store.py:139-144 | After `delete_vectors`, no search returns a deleted id. |
| VectorStore.PutKeepsConsistent | app/services/vector_store.py:111-112 | Storing a record keeps both dictionaries and the order over the same keys. |
| VectorStore.PopKeepsConsistent | app/services/vector_store.py:142-143 | Removing a record keeps the same. |
| VectorStore.ToSetMembers | app/services/vector_store.py:141 | The deleted set is exactly the listed ids. |
| VectorStore.Min3 | app/services/vector_store.py:110 | `zip` stops at the shortest of the three lists. |
| ChatMemory.Key | app/services/chat_memory.py:12 | The key is "chat:" followed by the session id. |
| ChatMemory.KeysDistinct | app/services/chat_memory.py:12 | Different sessions have different keys. |
| ChatMemory.LRange | app/services/chat_memory.py:22 | `LRANGE 0 stop` returns the first `stop+1` entries (all when there are fewer), and `LRANGE 0 -1` returns the whole list. |
| ChatMemory.RedisLists.LPush | app/services/chat_memory.py:16 | `LPUSH` puts the value at the front of the key's list, creating it if absent, and returns the new length. |
| ChatMemory.RedisLists.LRangeOf | app/services/chat_memory.py:22 | `LRANGE` reads a missing key as the empty list. |
| ChatMemory.RedisLists.Del | app/services/chat_memory.py:29 | `DEL` removes the key and returns 1 if it existed, else 0. |
| ChatMemory.HistoryIsNewest | app/services/chat_memory.py:19-24 | For limit ≥ 1 the history is the `min(limit, n)` newest messages, oldest first. A limit of 0 returns the whole list. |
| ChatMemory.SavedMessageIsNewest | app/services/chat_memory.py:10-24 | After a save, the history is the older history (one entry shorter) followed by the saved message, unchanged. |
| ChatMemory.LRangeCons | app/services/chat_memory.py:16-22 | Reading after a push returns the pushed message followed by the first `limit − 1` older entries. |
| ChatMemory.SaveIsolated | app/services/chat_memory.py:10-16 | Saving to one session leaves every other session's history unchanged. |
| ChatMemory.ClearedHistoryIsEmpty | app/services/chat_memory.py:26-30 | After a clear the session's history is empty, whatever the limit. |
| ChatMemory.LineDefaults | app/services/chat_memory.py:38-40 | A message without role and content renders as "User: ". |
| ChatMemory.LinesOk | app/services/chat_memory.py:37-40 | Rendering succeeds exactly when every message renders. |
| ChatMemory.LinesValues | app/services/chat_memory.py:37-40 | There is one line per message, in order, each being that message's rendering. |
| ChatMemory.LinesErrPrefix | app/services/chat_memory.py:37-40 | The first message that fails stops the loop with its error. |
| ChatMemory.ContextShape | app/services/chat_memory.py:32-42 | The context fails exactly when some role is not a string. Otherwise it is one `Title(role) + ": " + str(content)` line per message, with defaults "user" and "", joined by newlines. |
| ChatMemory.ChatMemoryService.constructor | app/services/chat_memory.py:6-8 | The service keeps its store and its TTL, 3600 by default. |
| ChatMemory.ChatMemoryService.SaveMessage | app/services/chat_memory.py:10-17 | Saving pushes the message onto the front of "chat:"+session and changes nothing else. |
| ChatMemory.ChatMemoryService.GetChatHistory | app/services/chat_memory.py:19-24 | The method returns the history specification: the newest `limit` messages, oldest first. |
| ChatMemory.ChatMemoryService.ClearChatHistory | app/services/chat_memory.py:26-30 | The method returns True exactly when the key existed and removes only that key. |
| ChatMemory.ChatMemoryService.GetConversationContext | app/services/chat_memory.py:32-42 | The loop renders the newest `2*max_turns` messages as the context specification, including its error. |
| RagEngine.AnyKeywordFrom | app/services/rag_engine.py:266 | `any(...)` over the remaining keywords is true exactly when one of them occurs. |
| RagEngine.DetectBookingIntent | app/services/rag_engine.py:259-266 | The result is true exactly when one of the ten keywords is a substring of the lower-cased query. |
| RagEngine.NotebookIsBooking | app/services/rag_engine.py:259-266 | "notebook" counts as a booking request, because it contains "book". |
| RagEngine.ShortQueryIsNotBooking | app/services/rag_engine.py:261-266 | A query of fewer than four characters is never a booking request. |
| RagEngine.KeywordInAnyCaseIsBooking | app/services/rag_engine.py:259-266 | A query containing a keyword in any mix of letter case is a booking request. |
| RagEngine.BookingIgnoresCase | app/services/rag_engine.py:265-266 | Lower-casing the query first changes nothing. |
| RagEngine.BookingSurvivesContext | app/services/rag_engine.py:265-266 | Text around a booking request keeps it one. |
| RagEngine.ScheduleAnInterviewIsBooking | app/services/rag_engine.py:259-266 | Any query containing "schedule an interview" is a booking request. |
| RagEngine.BuildRagPrompt | app/services/rag_engine.py:132-145 | The prompt starts with the fixed instructions and the context, and ends with "User Question: {query}" and the closing instruction. The "Previous conversation:" block sits between them exactly when the history is non-empty. |
| RagEngine.ScoreCountsSharedWords | app/services/rag_engine.py:153-159 | A chunk's score never exceeds the number of distinct query words, ignores the chunk's letter case, and is positive exactly when the chunk and the query share a lower-cased word. |
| RagEngine.BestOfIsFirstMax | app/services/rag_engine.py:154-162 | The scan keeps the greatest overlap. When that overlap is positive, the chunk kept is the first one attaining it; when every overlap is 0, it keeps "". |
| RagEngine.FirstMaxUnique | app/services/rag_engine.py:157-162 | The first chunk with the greatest overlap is unique. |
| RagEngine.FirstMaxExists | app/services/rag_engine.py:157-162 | A non-empty context list has such a chunk. |
| RagEngine.RelevantAreScored | app/services/rag_engine.py:169-172 | Every relevant sentence is the stripped form of a sentence that shares a word with the query. |
| RagEngine.RelevantEmpty | app/services/rag_engine.py:169-174 | There is no relevant sentence exactly when no sentence shares a word with the query. |
| RagEngine.SimpleResponseFromFirstBest | app/services/rag_engine.py:147-177 | The extractive answer depends on the first chunk with the greatest overlap. If that chunk overlaps the query and has a relevant sentence, the answer is its first one or two relevant sentences joined by a blank. Otherwise it is "Based on the available information: " + the first 200 characters of the first context + "...". |
| RagEngine.NoContextNoInformation | app/services/rag_engine.py:149-150 | With no context the answer is the fixed "I don't have enough information…" message. |
| RagEngine.ScoredNotBlank | app/services/rag_engine.py:170-172 | A sentence that shares a word with the query does not strip to "". |
| RagEngine.SimpleResponseNonEmpty | app/services/rag_engine.py:147-177 | The extractive answer is never empty. |
| RagEngine.ScanChunk | app/services/rag_engine.py:157-162 | One pass of the best-chunk loop advances the scan specification by one chunk. |
| RagEngine.ScanSentence | app/services/rag_engine.py:169-172 | One pass of the sentence loop advances the relevant-sentence specification by one sentence. |
| RagEngine.GenerateSimpleResponse | app/services/rag_engine.py:147-177 | The two loops, with the early returns, compute the extractive answer. |
| RagEngine.ContextTexts | app/services/rag_engine.py:49-54 | There is one `"[Similarity: s] text"` entry per hit, in retrieval order. The text defaults to "Chunk {id}". |
| RagEngine.ResponseWithoutModel | app/services/rag_engine.py:73-75 | Without a model, `generate_response` is the extractive answer over the labelled hits, built from the first labelled hit with the greatest overlap. |
| RagEngine.ResponseAsksModel | app/services/rag_engine.py:56-72 | With a model, the prompt it receives ends with the user's question. The web-search connector is on exactly when nothing was retrieved. The answer is the stripped reply, or "Error generating response: " + the error. |
| RagEngine.GenerateResponse | app/services/rag_engine.py:41-75 | The labelling loop and the model-or-extractive branch compute `generate_response`. |
| RagEngine.Documents | app/services/rag_engine.py:96-105 | The method builds one document per hit, in order, each with title "Document Chunk {id}", a 500-character snippet, the text, the url "chunk://{id}" and the similarity. It fails exactly when some text is not a string. |
| RagEngine.PlainTexts | app/services/rag_engine.py:85-87 | Without a model, the raw "text" values (default "") are handed on. The first non-string raises `AttributeError` in `lower()`. |
| RagEngine.CitedResponse | app/services/rag_engine.py:77-130 | With a model, the citation path never fails: it always returns a result. |
| RagEngine.CitationsComeWithDocuments | app/services/rag_engine.py:94-130 | With a model, the result is one of two things. Either it is the plain `generate_response` answer with no citations and no documents, or it carries exactly one document per hit in retrieval order. |
| RagEngine.GenerateResponseWithCitations | app/services/rag_engine.py:77-130 | The document loop, the model call and both fallbacks compute the citation specification. |
| RagEngine.Answer | app/services/rag_engine.py:211-228 | Citations and documents are empty unless citations are requested and there is a model. |
| RagEngine.SaveTurnIsTwoPushes | app/services/rag_engine.py:230-242 | Saving the user's message and then the assistant's leaves the session's list as [assistant, user] followed by the older entries. |
| RagEngine.TurnReadsBack | app/services/rag_engine.py:230-242 | After a turn, the history reads the older messages, then the user's message, then the answer. |
| RagEngine.RagEngine.constructor | app/services/rag_engine.py:11-19 | The engine keeps its store, memory and model client. |
| RagEngine.RagEngine.RetrieveRelevantChunks | app/services/rag_engine.py:21-39 | Retrieval is the store's unfiltered top-`top_k` search for the query's embedding. |
| RagEngine.RagEngine.AnswerQuery | app/services/rag_engine.py:211-228 | The branch calls the citation path when citations are requested and there is a model, and `generate_response` with no citations otherwise. |
| RagEngine.RagEngine.ProcessChatQuery | app/services/rag_engine.py:179-257 | On booking intent: the fixed booking reply, with no retrieval and no memory change. Otherwise, a context rendering error propagates with no memory change. If rendering succeeds, the result has intent "general_query" and lists the retrieved hits in order. Memory gains the user's message and then the assistant's, which records the number of retrieved chunks. |
| Metrics.PrecisionRecallF1 | app/evaluation/metrics.py:6-36 | Either de-duplicated list empty gives (0, 0, 0). Otherwise precision times \|R\| and recall times \|G\| both equal \|R∩G\|, and F1 comes from `F1`. Its bounds are in `Metrics.ScoresInUnitInterval`, its closed form in `Metrics.F1OfCounts`, and its independence of order and duplicates in `Metrics.ScoresIgnoreOrderAndDuplicates`. |
| Metrics.EmptyListsScoreZero | app/evaluation/metrics.py:12-19 | An empty retrieved or relevant list scores (0, 0, 0). |
| Metrics.ScoresIgnoreOrderAndDuplicates | app/evaluation/metrics.py:12-13 | Lists with the same items score the same, whatever their order and duplicates. |
| Metrics.F1OfCounts | app/evaluation/metrics.py:25-34 | With `t > 0` common items, F1 = 2t/(\|R\|+\|G\|), the harmonic mean of precision and recall. |
| Metrics.CountScoresInUnit | app/evaluation/metrics.py:22-34 | For counts `t ≤ a, b` the three scores lie in [0, 1], and F1 is 0 exactly when `t` = 0. |
| Metrics.ScoresInUnitInterval | app/evaluation/metrics.py:12-36 | Precision, recall and F1 lie in [0, 1], and F1 is 0 exactly when no retrieved item is relevant. |
| Metrics.Correct | app/evaluation/metrics.py:44 | The count of equal positions is at most the length, and equals it exactly when the lists are equal. |
| Metrics.Accuracy | app/evaluation/metrics.py:38-45 | Lists of different lengths give 0. Two empty lists raise `ZeroDivisionError`. Otherwise the result lies in [0, 1] and is 1 exactly when the lists are equal. |
| Metrics.FirstRelevant | app/evaluation/metrics.py:54-57 | The result is the index of the first item in `relevant`, or None when there is none. |
| Metrics.ReciprocalRank | app/evaluation/metrics.py:53-58 | The value lies in [0, 1]. It is 1 exactly when the first item is relevant and 0 exactly when none is. |
| Metrics.ReciprocalRanks | app/evaluation/metrics.py:52-58 | There is one reciprocal rank per ranking, in order. |
| Metrics.SumBounds | app/evaluation/metrics.py:60 | A sum of values in [0, 1] lies between 0 and their count. |
| Metrics.MeanReciprocalRankInUnit | app/evaluation/metrics.py:50-60 | The MRR lies in [0, 1]. |
| Metrics.ReciprocalRankOf | app/evaluation/metrics.py:53-57 | The loop with `break` computes the reciprocal rank. |
| Metrics.FirstRelevantIs | app/evaluation/metrics.py:54-57 | An index where the loop breaks is the first relevant one. |
| Metrics.MeanReciprocalRank | app/evaluation/metrics.py:47-60 | For a non-empty list of rankings, the loop returns the mean of the reciprocal ranks. |

## Left out

- **Floating point.** Scores, similarities and metrics are exact `real`s. The cosine similarity (numpy/sklearn) and the `:.3f` formatting are uninterpreted functions.
- **Storage codec and timing.** JSON encoding of chat messages is treated as the identity: message values are scalars. The Redis `EXPIRE`/TTL refresh is not modelled.
- **Foreign calls.** The language model, the embedding service and `uuid4` are oracles or parameters. `RagEngine.RagEngine.ProcessChatQuery` takes the two `utcnow()` timestamps as arguments. Retrieval uses the in-memory store: the Qdrant store, `get_vector_store` and its configuration are not part of this model.
- **Unused parameter.** The `similarity_algorithm` parameter of `retrieve_relevant_chunks`/`process_chat_query` is ignored by the code and is not modelled.
- **Concurrency.** `async`/`await` is modelled as sequential execution.
- **Out-of-scope metrics and services.** `calculate_ndcg` (uses `log2`), the evaluator, document processing, email and the HTTP layer are not part of this model.
- **Metrics.MeanReciprocalRank:** requires a non-empty list of rankings, because `np.mean([])` is `nan` with a warning rather than a number.
- **Text.Lower, Text.Title:** change ASCII letters only. Python's full Unicode case mapping is not modelled.
- **Chunking.FixedSizeChunkContents, Chunking.FixedSizeChunkMetadata:** are stated for `chunk_size ≥ 1`. With a smaller size, `words[i:i + chunk_size]` is empty for a size of 0. For a negative size it counts its end from the back of the word list (`chunk_size=-1, overlap=-5` on "a b c" gives the one chunk "a b"). Those sizes are covered only by `Chunking.FixedSizeChunkText`, `Chunking.WindowEnd` and `Chunking.FixedSizeWindowStarts`, through Python's slice bounds.
- **VectorStore.InMemoryVectorStore.AddVectors:** `generated` stands for the `uuid4` ids. Their freshness and uniqueness are not modelled.
- **VectorStore.InMemoryVectorStore.DeleteVectors:** always returns True. `dict.pop` with a default cannot raise, so the `except` branch is unreachable and is not modelled.
- **Message values.** Messages and metadata hold only `None`, booleans, integers and strings. Nested lists, dictionaries and floats are not modelled.
- **Citations.** The model's citation objects are passed through as dictionaries.
- **VectorStore.InMemoryVectorStore:** stores the caller's metadata dictionary by value. In the source, `search` returns the same dictionary object that `add_vectors` stored, so later changes by the caller show through. That aliasing is not modelled.
