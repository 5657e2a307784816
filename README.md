# chatgpt-history-search, modelled in Dafny

This project models the core of chatgpt-history-search. The tool indexes an
exported ChatGPT history and searches it by embedding similarity. The model
covers these parts of the tool:

- **Indexing an export** (`prepare_conversations` in main.py). Each kept
  message's text is extracted (`get_content`). Long texts are cut into
  overlapping token windows (`get_chunks`). Every chunk is upserted into the
  content-addressed chunk cache. A per-conversation index entry is written.
- **Fetching embeddings** (`generate_embeddings`). This plans one request per
  chunk that has no embedding, confirms, merges the results back and rebuilds
  the vector table.
- **Answering a query** (`search`). This scores every vector row, sorts by
  score and collects up to `SEARCH_LIMIT` distinct conversation titles. A
  cache of earlier searches is consulted first.
- **Token-bucket rate limiters.** The gpt package refills in whole tokens;
  the openai_client package refills exactly.
- **Token counting and usage/cost parsing.** This covers the gpt tokenizer
  and the openai_client calculator. Both count tokens the same way, so one
  member, `Tokenizer.CountTokens`, models both `count_tokens` methods.
- **The two HTTP clients.** The gpt client retries on 5xx and keeps
  backlogs. The openai_client client retries, charges the limiter before each
  attempt and runs a request pool.
- **`justified_print`**, the greedy line filler of utilities/helpers.py.

External collaborators are parameters of the model:

| Collaborator | Modelled as |
|---|---|
| tiktoken's encoder and decoder | `Encoder` / `Decoder` |
| SHA-256 | `digest` |
| `uuid4` | `freshId` / `uuids` |
| the embedding batch of `generate_embeddings` | `fetch` |
| the query embedding of `search` | `queryOutput` (None when the request failed) |
| scipy's cosine distance | `distance` |
| the exception scipy raises on a missing query vector | `distanceError` |
| `time.time()` | a sequence of clock readings |
| the HTTP endpoint | a script of replies |

Running out of clock readings or replies yields an explicit
"still waiting" / "unfinished" outcome.

The constants come from core.py:

- `IGNORE_THRESHOLD` = 60
- `CHUNK_BREAK_LINE` = 1024
- `CHUNK_TRIM_OVERLAP` = 128
- `SEARCH_LIMIT` = 10

Two behaviours of the code are worth stating up front:

- In gpt/client.py a 503 reply also decrements `max_attempts`. It is still
  retried whatever the count.
- `consume` never takes the level below zero. It waits for the refill, or
  raises `ValueError` when the amount exceeds the bucket size.

Modules:

| Module | File | Models |
|---|---|---|
| Wrappers | wrappers.dfy | Option and Result |
| Text | text.dfy | Python's `split`, `strip`, `join` |
| Tokenizer | tokenizer.dfy | gpt/tokenizer.py |
| Calculator | calculator.dfy | openai_client/calculator.py |
| Chunker | chunker.dfy | `get_chunks` |
| ChunkCache | chunk_cache.dfy | `self.cache` |
| Content | content.dfy | `get_content`, title, message filter |
| Indexing | indexing.dfy | `prepare_conversations` as functions |
| Ranking | ranking.dfy | sort and title collection of `search` |
| Engine | engine.dfy | the `ChatGPTSearchEngine` class |
| Buckets | buckets.dfy | the token bucket as functions of its state |
| GptLimiter | gpt_limiter.dfy | gpt/limiter.py |
| NativeLimiter | native_limiter.dfy | openai_client/limiter.py |
| GptClient | gpt_client.dfy | gpt/client.py |
| NativeClient | native_client.dfy | openai_client/client.py |
| Helpers | wrap.dfy | utilities/helpers.py |

## Model

| member | source | states |
|---|---|---|
| Tokenizer.TokenCount | gpt/tokenizer.py:30-47 | Reference definition of the count: a string counts its encoded length, a message list 4 per message plus its fields' encoded lengths plus 3, anything else the encoded length of its string form, and any failure 0. |
| Tokenizer.CountTokens | gpt/tokenizer.py:30-47 | The nested counting loop computes `TokenCount`, with the same accounting as openai_client/calculator.py:13-30. A string counts its encoded length. A message list counts 4 per message plus each field's encoded length, plus 3. Anything else counts the length of its string form. Any failure gives 0. |
| Tokenizer.EmptyListCountsThree | gpt/tokenizer.py:34-42 | An empty message list still costs the 3 reply-priming tokens. |
| Tokenizer.AppendMessage | gpt/tokenizer.py:37-41 | Appending a message adds 4 plus its fields' token lengths. If a field cannot be encoded, the whole count falls back to 0. |
| Tokenizer.NonStringFieldFails | gpt/tokenizer.py:39-40 | A message field that is not a string makes the count fail. |
| Tokenizer.FailureSticks | gpt/tokenizer.py:37-47 | A failure on any message makes the whole list fail. |
| Tokenizer.PrefixFailureSticks | gpt/tokenizer.py:37-47 | A failure in a prefix of the list fails the whole list. |
| Tokenizer.ListCountLowerBound | gpt/tokenizer.py:35-41 | A successful list count is at least 4 tokens per message. |
| Tokenizer.ParserFor | gpt/tokenizer.py:13-21 | Without specs there is no parser. "completions" and "embeddings" select their parsers. Any other category is an error, and only that. |
| Tokenizer.ParseCompletionsUsage | gpt/tokenizer.py:49-78 | Succeeds iff costs are set and all three token keys and both prices are present. Empty costs raise ValueError. On success it reports the three token counts, each cost as tokens/1000 × price, and total cost = input + output. |
| Tokenizer.ParseEmbeddingsUsage | gpt/tokenizer.py:80-96 | Succeeds iff costs are set and the prompt tokens and input price are present. It then reports the prompt tokens and their cost. |
| Calculator.CalcUsage | openai_client/calculator.py:32-65 | Falsy usage gives `{}`. A name with neither "gpt" nor "embedding" gives None, and only then. A "gpt" name yields completion usage iff the keys are present, with the listed values. Otherwise an "embedding" name yields embedding usage iff its keys are present. Every failing lookup gives `{}`. |
| Calculator.CompletionAgreesWithTokenizer | openai_client/calculator.py:36-55 | For a "gpt" model, the calculator's result equals the gpt tokenizer's completion parser when that succeeds, and is `{}` when it raises. |
| Calculator.EmbeddingAgreesWithTokenizer | openai_client/calculator.py:56-60 | For an embedding model, the calculator's result equals the gpt tokenizer's embedding parser when that succeeds, and is `{}` when it raises. |
| Chunker.KeepsWhole | main.py:96-99 | Reference definition of the keep-whole test: with s segments, `abs(n - b) <= abs(n / s - b)`. |
| Chunker.Window | main.py:104-105 | Reference definition of one window: it starts `overlap` before the stride start, clamped at 0, and ends `optimal + overlap` after it, clamped at n. |
| Chunker.Strides | main.py:102-106 | Reference definition of the `range(0, n, optimal)` loop: one `Window` slice per stride start below n, in order. |
| Chunker.Split | main.py:101-110 | Reference definition of the cut: keep-whole, or the strides with a short tail merged into the window before it. |
| Chunker.ChunkText | main.py:91-115 | Reference definition of `get_chunks`: the text kept whole, or its decoded windows, or the whole text after an encoding or decoding error. |
| Chunker.RoundHalfEven | main.py:96 | Python's `round(n / b)`: the result is within half a unit of n / b, and ties go to the even neighbour. |
| Chunker.SegmentCount | main.py:96 | There is always at least one segment. |
| Chunker.OptimalPositive | main.py:98-101 | When the text is not kept whole, there are 2 to n segments and the stride `n // segments` is positive, so the window loop advances. |
| Chunker.OneSegmentKeepsWhole | main.py:96-99 | A single segment always passes the keep-whole test. |
| Chunker.MergeTail | main.py:108-110 | A last window shorter than the stride is appended to the one before it. Otherwise the windows are unchanged. |
| Chunker.DecodeAll | main.py:112 | The list comprehension succeeds exactly when every window decodes. The i-th string is then the i-th window's decoding. |
| Chunker.SplitTokens | main.py:101-110 | Computes `Split`: the window cut with the tail merge, or keep-whole. |
| Chunker.CutWindows | main.py:102-106 | The `range` loop produces exactly the windows `Strides` describes. |
| Chunker.GetChunks | main.py:91-115 | Computes `ChunkText`. The text is kept whole, or cut and decoded, or returned whole after an encoding or decoding error. Never returns an empty list. |
| Chunker.StridesAt | main.py:103-106 | Window j starts `overlap` tokens before `j × optimal` (clamped at 0). It ends `optimal + overlap` after it (clamped at n). |
| Chunker.StridesCount | main.py:103 | There is a window for each stride start below n, and no more. |
| Chunker.Coverage | main.py:101-106 | Every token lies inside the window of its stride. |
| Chunker.MergeTailKeepsTokens | main.py:108-110 | The tail merge keeps the concatenated tokens and removes at most one window. |
| Chunker.SplitNonEmpty | main.py:101-110 | A successful split yields at least one segment. |
| Chunker.MergeTailKeepsElement | main.py:108-110 | Every token of every window survives the tail merge. |
| Chunker.SplitCoversEveryToken | main.py:101-110 | Every token of the message appears in some segment. |
| Chunker.SingleSegmentKeepsWhole | main.py:96-99 | A message that rounds to one segment is kept as one chunk. |
| Chunker.EmptyIsSingleSegment | main.py:96 | An empty token list rounds to one segment (`max(1, 0)`). |
| Chunker.ShortMessageIsOneChunk | main.py:96-99 | A 512-token text with the default limits is a single chunk equal to the text. |
| Chunker.TwoWindowScenario | main.py:101-110 | 2050 tokens with the default limits give the two overlapping windows [0,1153) and [897,2050). |
| ChunkCache.Cache.Upsert | main.py:143-150 | A new digest gets an entry with its one address, at the end of the key order. A known digest gains the address only if it is absent. Content, embedding and all other entries are unchanged. |
| ChunkCache.EmptyValid | main.py:143-150 | The empty cache is well formed. |
| ChunkCache.UpsertValid | main.py:145-150 | An upsert keeps every key listed once in insertion order and every address list duplicate-free. |
| ChunkCache.UpsertIdempotent | main.py:149 | A repeated upsert of the same digest and address changes nothing. |
| ChunkCache.UpsertAllValid | main.py:143-150 | A run of upserts keeps the cache well formed. |
| ChunkCache.UpsertAllSnoc | main.py:143-150 | Upserting a run plus one more occurrence is upserting the run, then that occurrence. |
| ChunkCache.UpsertAllAppend | main.py:143-150 | Upserting `a + b` is upserting `a`, then `b`. |
| ChunkCache.UpsertAllGrows | main.py:143-150 | Upserts never drop a key or an address. |
| ChunkCache.UpsertAllRecords | main.py:143-150 | After the upserts, every occurrence's address is recorded under its digest. |
| ChunkCache.UpsertAllRecorded | main.py:149 | Upserting occurrences that are already recorded changes nothing. |
| ChunkCache.ReinsertIdempotent | main.py:143-150 | Reprocessing the same chunks leaves the cache as the first pass did. |
| Content.CodeLanguage | main.py:55-56 | Reference definition of the shown language: "unknown" becomes "python" for the python recipient and "code" otherwise; any other language is kept. |
| Content.WebResults | main.py:66-69 | Reference definition of the browser results: one "Type/URL/Title/Result" block per cited result, in order. |
| Content.FileResults | main.py:71-74 | Reference definition of the file browser results: one "Type/Name/Result" block per cited result, in order. |
| Content.RawContent | main.py:49-82 | Reference definition of the extracted text per content type, before the threshold test; skipped types give `''`. |
| Content.FormatTitle | main.py:118-119 | Reference definition of the title: "Chat k - " and the raw title's words, or "Chat k" when it has none. |
| Content.Strings | main.py:54 | Each kept string is the text of a text part, and the text of every text part is kept. |
| Content.StringsAppend | main.py:54 | The text parts are kept in their order: the filter distributes over concatenation. |
| Content.StrippedNonBlank | main.py:54 | Every kept string is non-empty, and there are no more of them than parts. |
| Content.NonBlank | main.py:54 | The `if m.strip()` filter: every kept string is non-empty, and there are no more of them than inputs. |
| Content.NonBlankContents | main.py:54 | The filter keeps only strings of its input, and every non-empty one. |
| Content.NonBlankAppend | main.py:54 | The filter keeps the non-empty strings in their order: it distributes over concatenation. |
| Content.StrippedNonBlankContents | main.py:54 | Each kept string is `strip()` of one of the parts, and every part that is not blank once stripped is kept, stripped. |
| Content.StrippedNonBlankAppend | main.py:54 | The surviving parts are kept in their order: the filter distributes over concatenation. |
| Content.GetContent | main.py:49-89 | The result is either `''` or the extracted text, which is then at least the threshold long. Any extracted text that long is returned. |
| Content.Kept | main.py:125-139 | A message is kept exactly when it is present, not a system message, finished successfully and its `get_content` text is non-empty. It is then kept with exactly that text. |
| Content.WordsOfStrippedNonBlank | main.py:54 | Dropping blank parts and stripping the rest loses no word. |
| Content.TextKeepsWords | main.py:53-54 | A text message's content has exactly the words of its string parts, in order. |
| Content.UnknownTypeIsSkipped | main.py:80-84 | An unknown content type is never indexed. |
| Content.UnknownCodeLanguage | main.py:55-58 | An "unknown" code language is shown as "python" when the recipient is python, and as "code" otherwise. |
| Content.TitleKeepsWords | main.py:118-119 | The title is "Chat k - " plus the raw title's words joined by single spaces, or "Chat k" when there are none. It keeps the raw title's words. |
| Content.JoinNonEmpty | main.py:118-119 | Joining words starting with a real word gives a non-empty title. |
| Indexing.ModelOf | main.py:152 | A non-assistant message is labelled "user". An assistant message is labelled with its model slug, or "gpt" when it has none. |
| Indexing.ChunkOccurrences | main.py:143-147 | Each chunk becomes one upsert of its digest at the message's address, in order. |
| Indexing.ScanMessages | main.py:124-166 | Kept messages are numbered 0, 1, … and carry the conversation's title and id. They are never system messages and are at least the threshold long. Every upsert addresses a kept message under that title, with its content's digest. |
| Indexing.ScanStep | main.py:125-166 | One more message node either is dropped by the filter or adds one numbered message and its chunks' upserts at that message's address. |
| Indexing.EntryOf | main.py:171-176 | The entry's URL is `https://chatgpt.com/c/` followed by the conversation id. |
| Indexing.ScanConversation | main.py:117-166 | Reference definition of one conversation's scan: its messages under its formatted title and id. |
| Indexing.PrepareAll | main.py:117-176 | Reference definition of indexing an export: all its chunk occurrences upserted into the cache, and all its entries written to the index. |
| Indexing.IndexWrites | main.py:168-176 | Only conversations with at least one kept message are written to the index. |
| Indexing.Reverse | main.py:117 | The export is visited newest first: element i of the result is element n-1-i of the input. |
| Indexing.PrepareStepCache | main.py:117-150 | Processing one more conversation upserts exactly its chunks into the cache. |
| Indexing.PrepareStepIndex | main.py:168-176 | One more conversation writes its entry under its formatted title if it kept messages. Otherwise the index is left alone. |
| Indexing.ApplyElsewhere | main.py:171 | Index keys not written by a run keep their old entries. |
| Indexing.ApplyWritten | main.py:171 | A written key holds the run's last write, whatever the index held before. |
| Indexing.ApplyTwice | main.py:171 | Writing the same entries twice equals writing them once. |
| Indexing.ApplyKeepsNoEmptyEntries | main.py:168-171 | Writing non-empty entries keeps every entry non-empty. |
| Indexing.PrepareKeepsNoEmptyEntries | main.py:168-169 | Indexing never stores a conversation with no messages. |
| Indexing.PrepareKeepsCacheValid | main.py:143-150 | Indexing a whole export keeps the chunk cache well formed. |
| Indexing.PrepareIdempotent | main.py:117-176 | Indexing the same export twice leaves cache and index as one pass does. |
| Indexing.ScanCountsKept | main.py:125-139 | The number of indexed messages is the number the filter keeps. |
| Ranking.InsertRow | main.py:239 | Insertion keeps the rows as a multiset plus the new row. |
| Ranking.InsertRowDescending | main.py:239 | Insertion keeps a descending sequence of rows descending. |
| Ranking.InsertRowAtLeast | main.py:239 | Inserting a row that scores at least x among rows that all do keeps every row at least x. |
| Ranking.WithScoreSnoc | main.py:239 | The rows of one score in `rows + [r]` are those of `rows`, then r if it has that score. |
| Ranking.SortByScore | main.py:239 | The sort is a permutation into descending score order. |
| Ranking.InsertRowStable | main.py:239 | Insertion keeps rows of equal score in their original order. |
| Ranking.SortIsStable | main.py:239 | The sort is stable: rows of equal score keep their original order, as Python's `sorted` does. |
| Ranking.Dedup | main.py:242-244 | Reference definition of the titles in first-seen order, without duplicates. |
| Ranking.Collect | main.py:240-246 | Reference definition of the collection loop: each row adds its new titles, and after a row the loop stops once `limit` titles are held. |
| Ranking.SearchResults | main.py:240-248 | Reference definition of the results: the collected titles cut to the limit. |
| Ranking.TitlesOf | main.py:242-244 | Lists the titles of the addresses, in order. |
| Ranking.CollectTitles | main.py:240-248 | The collection loop with its early `break` and the final slice returns `SearchResults`. |
| Ranking.AddRowTitles | main.py:242-244 | The inner loop appends each title of a row that is not yet collected, in order. |
| Ranking.CollectStep | main.py:240-246 | While the limit is not reached, one more row adds its titles to those collected. |
| Ranking.CollectStops | main.py:245-246 | Once the limit is reached, later rows change nothing. |
| Ranking.AddTitlesExtends | main.py:242-244 | Adding titles keeps the earlier list as a prefix and keeps it duplicate-free. It contains exactly the old and new titles. |
| Ranking.AddTitlesAppend | main.py:242-244 | Adding two lists of titles is adding one, then the other. |
| Ranking.CollectIsDedupPrefix | main.py:240-246 | The collected titles are a prefix of all titles in first-seen order. They are all of them unless the limit was reached. |
| Ranking.SearchResultsAreFirstSeen | main.py:240-248 | The results are the first `limit` distinct titles in ranked order. |
| Ranking.AllTitlesFrom | main.py:241-244 | Every collected title is the title of some address of some ranked row. |
| Ranking.SearchResultsShape | main.py:240-248 | At most `limit` results, no duplicates, each from some ranked row. When fewer than `limit`, every title of the ranking is present. |
| Engine.Filled | main.py:180-185 | Reference definition of the planning loop's effect on the cache: each entry without an embedding takes the vector cache's, when there is one. |
| Engine.Pending | main.py:180-191 | Reference definition of the planned requests: one per key, in order, whose entry has no embedding and is not in the vector cache. |
| Engine.MergeAll | main.py:211-216 | Reference definition of the merge loop: a truthy output is stored, an empty one recorded as failed, and an unknown identifier stops the merge with KeyError. |
| Engine.VectorTable | main.py:218-221 | Row i of the vector table is the cache entry of the i-th key in insertion order: its hash, content, addresses and embedding. |
| Engine.VectorTableRowPerEntry | main.py:218-221 | On a well-formed cache every entry has exactly one row, and that row carries the entry's embedding. |
| Engine.Scored | main.py:232-235 | One row per vector row, in table order. Each row carries that row's addresses and hash and the score `1 - distance(query, embedding)`. |
| Engine.NearestRankedFirst | main.py:232-239 | On a non-empty table the top-ranked row is a vector row whose embedding is nearest to the query. |
| Engine.SearchEngine.constructor | main.py:23-36 | The engine starts from the loaded stores, which must be well formed. |
| Engine.SearchEngine.PrepareConversations | main.py:117-176 | The chunk cache and index become `PrepareAll` over the reversed export. The cache stays well formed. The vector table and the vector and search caches are untouched. |
| Engine.IndexConversation | main.py:124-166 | Returns the kept messages of one conversation and upserts exactly its chunk occurrences. |
| Engine.UpsertChunks | main.py:143-150 | Upserts each chunk of a message at the message's address, in order. |
| Engine.IndexExport | main.py:117-176 | The loop over the conversations computes `PrepareAll`: cache and index after every conversation in order. |
| Engine.Plan | main.py:179-191 | The planning loop leaves the cache `Filled` from the vector cache. It plans exactly the `Pending` requests, each with its content's token count. |
| Engine.MergeResults | main.py:211-216 | The merge loop computes `MergeAll` and keeps the cache well formed. |
| Engine.FillUpToElsewhere | main.py:180-185 | The planning loop keeps the cache's keys and order. An entry not yet visited is unchanged. |
| Engine.FillUpToAt | main.py:180-185 | A visited entry takes the vector cache's embedding iff it had none and the vector cache has one. |
| Engine.FillUpToAll | main.py:180-185 | Visiting every key of a well-formed cache gives `Filled`. |
| Engine.SearchEngine.PlanEmbeddings | main.py:179-191 | Copies vector-cache embeddings into the cache. Plans exactly the pending requests, with one token count per request. |
| Engine.SearchEngine.MergeEmbeddings | main.py:211-221 | Stores each non-empty output under its digest and lists the failures. An unknown digest raises KeyError. The vector table is rebuilt unless there were no results. |
| Engine.SearchEngine.GenerateEmbeddings | main.py:178-221 | Plans the pending requests. Without requests or confirmation only the vector-cache copy happens, and the vector table is untouched. Otherwise the fetched embeddings are merged with no missing key, and the vector table is rebuilt. |
| Engine.SearchEngine.Search | main.py:223-252 | A cached identifier is answered from the cache without a model call. Otherwise one call is made. If it returned no embedding and there is a row to score, the distance call raises (`distanceError`) and nothing is cached. Otherwise the record stores the query, the embedding and the first `cfg.searchLimit` (`SEARCH_LIMIT`, 10 by default) distinct titles by descending score, and it is cached. No other store changes. |
| Engine.UpsertChunkStep | main.py:143-150 | Upserting one more chunk is one more cache upsert. |
| Engine.FilledKeepsValid | main.py:184-185 | Copying vector-cache embeddings keeps the cache well formed. |
| Engine.SetEmbeddingKeepsValid | main.py:214 | Setting an embedding keeps the cache well formed. |
| Engine.MergeStopsAtMissing | main.py:212-214 | After a result with an unknown identifier, later results change nothing, because the KeyError ends the merge. |
| Engine.PendingExactly | main.py:180-191 | A request is planned iff its digest is in the cache, has no embedding and is not in the vector cache. Its content is the chunk's. |
| Engine.PendingDistinct | main.py:180-191 | Planned requests have distinct identifiers, all from the cache's key order. |
| Engine.MergeNoMissing | main.py:211-216 | Results for known digests merge without KeyError and keep the cache's keys and order. |
| Engine.MergeUntouched | main.py:211-216 | An entry no result names is left unchanged. |
| Engine.MergeEntry | main.py:212-216 | A non-empty output becomes the entry's embedding. An empty one leaves the entry and records a failure. |
| Engine.PlanThenMerge | main.py:180-216 | After planning and merging, every chunk's embedding is its old one if it had one. Otherwise it is the vector cache's, or else the freshly fetched one. Keys, order, contents and addresses are unchanged. |
| Buckets.Refill | gpt/limiter.py:52-56 | Reference definition of the refill amount: elapsed time times rate, truncated to whole tokens in the gpt package and exact in openai_client. |
| Buckets.Settled | gpt/limiter.py:39-41 | Reference definition of the wait loop: refill on each clock reading until the amount fits, or report that the clock ran out. |
| Buckets.Consumed | gpt/limiter.py:21-43 | Reference definition of `consume`: zero returns, an amount above the size raises, otherwise refill, wait until the amount fits and take it. A clock that runs out leaves it waiting. |
| Buckets.Trunc | gpt/limiter.py:54 | Python's `int()` truncates toward zero. |
| Buckets.Refilled | gpt/limiter.py:45-56 | After a refill the level is at most the maximum and the fill time is `now`. |
| Buckets.Fresh | gpt/limiter.py:15-18 | A new bucket starts full. |
| Buckets.RefillNeverLowers | openai_client/limiter.py:29-34 | With time not going back, a refill keeps the level in `[0, max]` and never lowers it. |
| Buckets.TruncatedRefillDropsFraction | gpt/limiter.py:52-56 | With truncation, an interval worth less than one token adds nothing. |
| Buckets.ExactRefillKeepsFraction | openai_client/limiter.py:29-34 | Without truncation, any positive interval raises a bucket below its maximum. |
| Buckets.SettledInRange | gpt/limiter.py:39-41 | The wait loop keeps the level in range and never lowers it. It exits only once the amount fits. |
| Buckets.ConsumeKeepsRange | gpt/limiter.py:37-43 | A consume keeps the level in `[0, max]`. When it completes, it takes exactly the amount from the refilled level. |
| Buckets.RejectedLeavesBucket | gpt/limiter.py:30-35 | `consume(0)` returns at once. An amount above the size raises ValueError. Neither touches the bucket. |
| Buckets.FullBucketServes | gpt/limiter.py:21-43 | A full bucket serves any amount up to its size on the first reading. |
| GptLimiter.TokenBucket.constructor | gpt/limiter.py:15-18 | A new bucket is full and refills `size / 60` per second. |
| GptLimiter.TokenBucket.Refill | gpt/limiter.py:45-56 | `_refill` sets the state to `Refilled` with whole-token truncation. |
| GptLimiter.TokenBucket.Consume | gpt/limiter.py:21-43 | `consume` moves the state and outcome to `Consumed`: zero returns, too much raises, otherwise refill, wait, take. |
| GptLimiter.Limiter.constructor | gpt/limiter.py:69-70 | Two separate buckets, at 90% of the token and request limits. |
| GptLimiter.Limiter.Create | gpt/limiter.py:69-70 | Missing rate limits raise KeyError("rate_limits"). Otherwise the two buckets are created at 90% of the limits. |
| GptLimiter.Limiter.Limit | gpt/limiter.py:82-85 | The token and request buckets each consume their amount, independently. |
| NativeLimiter.TokenBucket.constructor | openai_client/limiter.py:6-10 | A new bucket is full and refills `size / 60` per second. |
| NativeLimiter.TokenBucket.Refill | openai_client/limiter.py:29-34 | `_refill` sets the state to `Refilled` without truncation. |
| NativeLimiter.TokenBucket.Consume | openai_client/limiter.py:13-27 | `consume` moves the state and outcome to `Consumed` with the exact refill. |
| GptClient.Route | gpt/client.py:26-31 | Completion model names route to completions. Embedding names route to embeddings. Anything else raises `ValueError("Model <name> not supported")`, and only then. |
| GptClient.BodyKey | gpt/client.py:159 | The key written into the body is the model type's title with its final "s" dropped. |
| GptClient.IdFor | gpt/client.py:124 | An empty identifier is replaced by a fresh uuid. Any other is kept. |
| GptClient.Calls | gpt/client.py:144-156 | The number of calls made never exceeds the replies available, and is at least one when a reply exists. |
| GptClient.Retried | gpt/client.py:144-146 | Reference definition of the retry test: a status of 500 or more, retried if it is 503 or `max_attempts` is not yet below zero. |
| GptClient.Final | gpt/client.py:144-161 | Reference definition of the response: the first reply that is not retried, with its output filed in a truthy body below 500, or none if the replies run out. |
| GptClient.Trail | gpt/client.py:134-142 | One saved response per call, each the call's reply under the request's identifier and body. |
| GptClient.Backoffs | gpt/client.py:148-153 | The waits start at the given backoff and double each retry. |
| GptClient.Saved | gpt/client.py:85-98 | Saving appends the responses to the identifier's backlog and leaves every other backlog alone. |
| GptClient.SavedTwice | gpt/client.py:96-98 | Saving twice appends both batches in order. |
| GptClient.Client.constructor | gpt/client.py:24-37 | Backlogs are saved iff a directory is given. The pool starts empty. |
| GptClient.Client.Create | gpt/client.py:26-31 | Fails exactly when routing fails, with routing's error. Otherwise the client has the routed model type. |
| GptClient.Client.SaveResp | gpt/client.py:85-98 | Appends the response to its identifier's backlog when saving is on. |
| GptClient.Client.GetResponse | gpt/client.py:100-161 | The result is the last attempt's response (`Final`). The waits double from the backoff. With saving on, every attempt is appended to the backlog. |
| GptClient.Client.AddGetResponse | gpt/client.py:185 | Appends one request to the pool. |
| GptClient.Client.BatchGetResponse | gpt/client.py:187-212 | One response per pooled request, in pool order, each the request's `Final`. Backlogs are saved per request. The pool is then empty. |
| GptClient.BatchStep | gpt/client.py:197-207 | One more pooled request appends its `Final` to the responses. It saves its trail on top of the previous requests' backlogs. |
| GptClient.FinalsAt | gpt/client.py:197-212 | The batch holds one response per pooled request. Response i is request i's `Final` on its own replies and uuid. |
| GptClient.AttemptStep | gpt/client.py:134-161 | A retried reply costs one call and one logged response, and the rest of the replies decide. Any other reply ends the call: one call, one logged response, and that reply as the result, with its output filed in a truthy body when below 500. |
| GptClient.FinalIsLastAttempt | gpt/client.py:144-161 | There is no response iff the replies ran out while still retrying. Otherwise the response is the last reply under the request's identifier. Below 500, a truthy body also gets the output under the model's key. |
| GptClient.BelowFiveHundredIsFinal | gpt/client.py:158-161 | A reply below 500 ends the request after one call, and the body records the output. |
| GptClient.PersistentServerError | gpt/client.py:144-156 | Repeated non-503 server errors with `max_attempts = m` give exactly m + 2 calls. |
| GptClient.PersistentServerErrorReturns | gpt/client.py:145-146 | Such errors return the (m+2)-th reply. |
| GptClient.ServiceUnavailableNeverGivesUp | gpt/client.py:144-156 | A 503 is retried whatever `max_attempts` is. |
| NativeClient.KindOf | openai_client/client.py:156-162 | "chat" selects completions and "embedding" selects embeddings, and only those. |
| NativeClient.Finish | openai_client/client.py:54-66 | A non-200 reply keeps no output or usage. A 200 embedding reply keeps output and usage. A 200 chat reply succeeds iff its usage parses as completion usage. |
| NativeClient.Retries | openai_client/client.py:54-57 | Reference definition of the retry test: a server error, or a 429 for embeddings, with attempts left. |
| NativeClient.OutputCharge | openai_client/client.py:111-116 | Reference definition of the output charge: a completion that succeeded charges its output tokens and no request. |
| NativeClient.Outcome | openai_client/client.py:26-78 | Reference definition of what a request ends with: the first reply that is not retried, finished by `Finish`, or none if the replies run out. |
| NativeClient.Charges | openai_client/client.py:33-38 | Reference definition of the limiter charges: one per attempt, then the output charge. |
| NativeClient.Calls | openai_client/client.py:57-64 | The number of calls made never exceeds the replies available. |
| NativeClient.Native.constructor | openai_client/client.py:15-24 | The client starts with no charges, saves or pending requests. |
| NativeClient.Native.Request | openai_client/client.py:26-141 | The outcome is `Outcome`. Every attempt charges its input tokens and one request, plus a 200 chat's output tokens. An embedding result is saved once. |
| NativeClient.Native.AddRequest | openai_client/client.py:156-162 | A valid engine appends one pending request. Otherwise it raises `ValueError("Invalid engine type: <engine>")` and leaves the pool alone. |
| NativeClient.Native.CallModel | openai_client/client.py:164-172 | An invalid engine yields `{}` with no charge. Otherwise it makes the one request. |
| NativeClient.Native.RunBatch | openai_client/client.py:147-150 | The gathered requests run in queue order: the outcomes are `BatchOutcomes`, the limiter is charged `BatchCharges` and the cache receives `BatchSaved`. A request whose coroutine was already awaited raises `RuntimeError` and charges and saves nothing. The pool is untouched. |
| NativeClient.Native.TriggerRequests | openai_client/client.py:143-154 | One outcome per pending request, in pool order. The limiter is charged each request's `Charges` and the cache receives each request's saves, both in pool order (`BatchCharges`, `BatchSaved`). The pool is cleared unless a request raised. Then it keeps its coroutines, all marked awaited. |
| NativeClient.RetriggerRaises | openai_client/client.py:143-154 | Triggering a pool that is already awaited raises `RuntimeError` for every request, charges nothing and saves nothing. |
| NativeClient.BatchBounds | openai_client/client.py:143-154 | A batch of fresh requests charges the limiter at least once per request. Any batch saves at most one result per request. A batch of completions saves nothing. |
| NativeClient.CallsBound | openai_client/client.py:57-64 | At most `attempts + 1` calls are made. |
| NativeClient.EveryAttemptCharged | openai_client/client.py:33-38 | Each attempt is charged its input tokens and one request before it is sent. A finished request adds only the output charge. |
| NativeClient.TooManyRequests | openai_client/client.py:57-129 | A 429 is retried for embeddings but ends a chat request with no output. |
| NativeClient.FailedRequestHasNoOutput | openai_client/client.py:65-75 | A finished non-200 request has no output or usage. Its status is the last reply's. |
| Helpers.Step | utilities/helpers.py:9-13 | Reference definition of one word of the inner loop: flush and restart on overflow, otherwise append. |
| Helpers.Justified | utilities/helpers.py:2-18 | Reference definition of the printed lines: each input line broken greedily and printed. |
| Helpers.Trailing | utilities/helpers.py:11-13 | A built line is empty iff it has no words, and otherwise ends in a space. |
| Helpers.Fill | utilities/helpers.py:8-13 | A non-empty word list leaves a current line. |
| Helpers.Rendered | utilities/helpers.py:10 | One printed line per broken line. |
| Helpers.LineOut | utilities/helpers.py:5-18 | Each input line prints at least one line. |
| Helpers.JustifiedLines | utilities/helpers.py:5-18 | At least one printed line per input line. |
| Helpers.JustifiedPrint | utilities/helpers.py:2-18 | The loops print exactly `Justified(text, length_thr)`. |
| Helpers.FillLine | utilities/helpers.py:8-13 | The inner loop emits the rendered broken lines and leaves the current line. |
| Helpers.FillLineStep | utilities/helpers.py:9-13 | A word that overflows flushes the current line and starts a new one with it. Any other word is appended, followed by a space. |
| Helpers.LastLineKeepsWords | utilities/helpers.py:15-16 | The right-stripped last line holds exactly the current line's words. |
| Helpers.FillKeepsWords | utilities/helpers.py:8-13 | The broken lines followed by the current line hold all the words, in order. |
| Helpers.FillIsGreedy | utilities/helpers.py:9-13 | Every break happens only when the next word would overflow. |
| Helpers.GreedyLinesFit | utilities/helpers.py:9-13 | A line of two or more words fits the threshold. |
| Helpers.LineKeepsWords | utilities/helpers.py:6-16 | The printed lines hold exactly the line's words, in order. |
| Helpers.LinesFit | utilities/helpers.py:9-13 | Every printed line of two or more words is at most the threshold long. |
| Helpers.BlankLine | utilities/helpers.py:15-18 | A blank line prints one empty line. |
| Helpers.LineEndings | utilities/helpers.py:10-16 | Broken lines are printed with their trailing space. The last line is right-stripped. |
| Helpers.LongFirstWord | utilities/helpers.py:9-11 | A first word longer than the threshold is preceded by an empty printed line. |
| Helpers.EveryLineAnswered | utilities/helpers.py:3-18 | Every line of the text prints at least one line. |

## Left out

- Floating point: scores, costs and the refill arithmetic use exact reals. float32 rounding and the `round(…, 4)` cost display are not modelled.
- Timestamps: creation and message timestamps (`strftime`), and `init_ts`, `last_ts` and `duration` in the gpt client, are not modelled.
- tiktoken, SHA-256, `uuid4`, scipy's cosine distance and the HTTP endpoints are parameters. Their own behaviour is not modelled.
- Concurrency: `asyncio.gather`, the `asyncio.Lock` and `asyncio.sleep` are modelled sequentially. Pooled requests run one after another in pool order, so interleaved limiter charges and backlog writes are not captured.
- The native client's retry waits, including the random jitter of `get_completion`, are not modelled. The gpt client's doubling waits are.
- File I/O (`load_data`, `save_data`, backlog and cache files, the search log write at main.py:249-250) is not modelled. The loaded stores are constructor inputs, required to be well formed.
- The pandas vector table is a sequence of rows.
- Scoring a row that has no embedding is not modelled. scipy raises on it; `distance` is total on vectors. A query embedding that is missing is modelled (see `Engine.SearchEngine.Search`).
- Interactive input at main.py:203 is the `confirmed` parameter. Printing is not modelled.
- `chat_logic`, `search_logic` and `prep_logic` of main.py are not part of this model.
- The in-place rewrite of `content['language']` at main.py:57 is not modelled. Only the displayed text is.
- Malformed exports are out of scope: missing keys and a None title (`.split()` on None) are not modelled, and inputs are assumed well typed.
- `GptLimiter.TokenBucket.Consume`: an exhausted clock ends the wait as `Waiting` instead of waiting forever.
- `NativeLimiter.TokenBucket.Consume`: likewise.
- `GptClient.Client.GetResponse`: a script that runs out while retrying gives no response instead of a further call.
- `NativeClient.Native.Request`: likewise. It uses the limiter charges as a log rather than the limiter's buckets.
- The gpt-4-turbo entry of gpt/models.py uses the key "limits". gpt/models.py is not part of this model; `GptLimiter.Limiter.Create` states the KeyError such an entry meets.
- `json.loads` on a `json_object` chat response (openai_client/client.py:113-114) is not modelled. The output is kept as text.
- The base64 float32 decoding of embeddings is not modelled. The native client keeps a reply's output as text, and the engine receives embeddings as real vectors.
- `Engine.Fetched`: the engine takes the embedding batch as a function from request to vector, applied in request order. It is not derived from `NativeClient.Native.TriggerRequests`, whose outputs are text, so the failure of a request reaches the engine only as an empty vector.
- Aliasing of the caller's body dict is not modelled. The gpt client writes the output into a copy of the body.
- Completion results of the native client are not saved; the save call at openai_client/client.py:139 is commented out in the source.
- Awaited coroutines: a pooled request that was already awaited is modelled by a flag on the pending request. Its `RuntimeError` message is the interpreter's, and no statement of the model depends on its text.
