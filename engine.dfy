/**
 * `ChatGPTSearchEngine` of main.py: the stores it keeps (chunk cache, index,
 * vector table, vector cache, search cache) and the three operations that
 * change them: indexing an export (`prepare_conversations`), fetching
 * embeddings for new chunks (`generate_embeddings`), and answering a query
 * (`search`).
 */
module Engine {
  import opened Wrappers
  import Tokenizer
  import Chunker
  import opened ChunkCache
  import opened Content
  import opened Indexing
  import opened Ranking

  /** One row of the vector table `self.vector`: a cache entry with its hash. */
  datatype VectorRow = VectorRow(hash: Hash, content: string, addresses: seq<Address>, embedding: seq<real>)

  /** A search record as stored in the search cache; `output` is None when the query embedding failed. */
  datatype SearchRecord = SearchRecord(identifier: string, output: Option<seq<real>>, searchQuery: string, results: seq<string>)

  /** An embedding request: identifier and text. */
  datatype Request = Request(identifier: Hash, content: string)

  /** One result of the embedding batch; `output` is empty where the result's output is falsy. */
  datatype EmbedResult = EmbedResult(identifier: Hash, output: seq<real>)

  // ----- embedding planning and merging ---------------------------------------------------

  /** An entry without an embedding takes the vector cache's stored output when there is one. */
  function FillOne(h: Hash, e: Chunk, vectorCache: map<Hash, seq<real>>): Chunk {
    if e.embedding == [] && h in vectorCache then e.(embedding := vectorCache[h]) else e
  }

  /** The cache after the planning loop. */
  function Filled(c: Cache, vectorCache: map<Hash, seq<real>>): Cache {
    Cache(map h | h in c.entries :: FillOne(h, c.entries[h], vectorCache), c.order)
  }

  /** The cache after the planning loop has visited the hashes `hs`, in order. */
  function FillUpTo(c0: Cache, vectorCache: map<Hash, seq<real>>, hs: seq<Hash>): Cache
    decreases |hs|
  {
    if hs == [] then c0
    else
      var p := FillUpTo(c0, vectorCache, hs[..|hs| - 1]);
      var h := hs[|hs| - 1];
      if h in p.entries && p.entries[h].embedding == [] && h in vectorCache
      then Cache(p.entries[h := p.entries[h].(embedding := vectorCache[h])], p.order)
      else p
  }

  /** The requests the planning loop enqueues for the hashes `hs`, in order. */
  function Pending(c: Cache, vectorCache: map<Hash, seq<real>>, hs: seq<Hash>): seq<Request>
    decreases |hs|
  {
    if hs == [] then []
    else
      var h := hs[|hs| - 1];
      Pending(c, vectorCache, hs[..|hs| - 1])
        + (if h in c.entries && c.entries[h].embedding == [] && h !in vectorCache
           then [Request(h, c.entries[h].content)] else [])
  }

  /** The batch results, one per request and in request order. */
  function Fetched(requests: seq<Request>, fetch: Request -> seq<real>): (rs: seq<EmbedResult>)
    ensures |rs| == |requests|
    ensures forall i :: 0 <= i < |rs| ==> rs[i] == EmbedResult(requests[i].identifier, fetch(requests[i]))
  {
    seq(|requests|, i requires 0 <= i < |requests| => EmbedResult(requests[i].identifier, fetch(requests[i])))
  }

  function SetEmbedding(c: Cache, h: Hash, v: seq<real>): Cache
    requires h in c.entries
  {
    Cache(c.entries[h := c.entries[h].(embedding := v)], c.order)
  }

  /** The state of the merge loop: the cache, the identifiers that failed, and the identifier that raised KeyError. */
  datatype Merge = Merge(cache: Cache, failed: seq<Hash>, missing: Option<Hash>)

  /** The merge loop over `rs`: stored when the output is truthy, reported as failed otherwise. */
  function MergeAll(c: Cache, rs: seq<EmbedResult>): Merge
    decreases |rs|
  {
    if rs == [] then Merge(c, [], None)
    else
      var m := MergeAll(c, rs[..|rs| - 1]);
      var r := rs[|rs| - 1];
      if m.missing.Some? then m
      else if r.output == [] then m.(failed := m.failed + [r.identifier])
      else if r.identifier !in m.cache.entries then m.(missing := Some(r.identifier))
      else m.(cache := SetEmbedding(m.cache, r.identifier, r.output))
  }

  /** The vector table rebuilt from the cache, in insertion order. */
  function VectorTable(c: Cache): (rows: seq<VectorRow>)
    requires forall i :: 0 <= i < |c.order| ==> c.order[i] in c.entries
    ensures |rows| == |c.order|
    ensures forall i :: 0 <= i < |rows| ==>
              && rows[i].hash == c.order[i]
              && rows[i].content == c.entries[c.order[i]].content
              && rows[i].addresses == c.entries[c.order[i]].addresses
              && rows[i].embedding == c.entries[c.order[i]].embedding
  {
    seq(|c.order|, i requires 0 <= i < |c.order| =>
      var e := c.entries[c.order[i]]; VectorRow(c.order[i], e.content, e.addresses, e.embedding))
  }

  /** On a valid cache every entry has exactly one row, and that row carries the entry's embedding. */
  lemma VectorTableRowPerEntry(c: Cache, h: Hash) returns (i: nat)
    requires c.Valid() && h in c.entries
    ensures i < |VectorTable(c)| && VectorTable(c)[i].hash == h
    ensures VectorTable(c)[i].embedding == c.entries[h].embedding
    ensures forall j :: 0 <= j < |VectorTable(c)| && VectorTable(c)[j].hash == h ==> j == i
  {
    assert h in c.order;
    i :| 0 <= i < |c.order| && c.order[i] == h;
  }

  /** The ranking rows of a query: score `1 - cosine distance` between the query and each row's embedding. */
  function Scored(vector: seq<VectorRow>, query: seq<real>, distance: (seq<real>, seq<real>) -> real): (rows: seq<Row>)
    ensures |rows| == |vector|
    ensures forall i :: 0 <= i < |vector| ==>
              rows[i] == Row(vector[i].addresses, vector[i].hash, 1.0 - distance(query, vector[i].embedding))
  {
    seq(|vector|, i requires 0 <= i < |vector| =>
      Row(vector[i].addresses, vector[i].hash, 1.0 - distance(query, vector[i].embedding)))
  }

  /**
   * Ranking by score is ranking by distance: the first ranked row is the row
   * of a vector entry nearest to the query.
   */
  lemma NearestRankedFirst(vector: seq<VectorRow>, query: seq<real>, distance: (seq<real>, seq<real>) -> real)
    returns (j: nat)
    requires vector != []
    ensures j < |vector|
    ensures SortByScore(Scored(vector, query, distance))[0]
              == Row(vector[j].addresses, vector[j].hash, 1.0 - distance(query, vector[j].embedding))
    ensures forall i :: 0 <= i < |vector| ==> distance(query, vector[j].embedding) <= distance(query, vector[i].embedding)
  {
    var rows := Scored(vector, query, distance);
    var ranked := SortByScore(rows);
    assert |ranked| == |rows| by {
      assert |multiset(ranked)| == |multiset(rows)|;
    }
    assert ranked[0] in multiset(rows);
    j :| 0 <= j < |rows| && rows[j] == ranked[0];
    forall i | 0 <= i < |vector|
      ensures distance(query, vector[j].embedding) <= distance(query, vector[i].embedding)
    {
      assert rows[i] in multiset(ranked);
      var k :| 0 <= k < |ranked| && ranked[k] == rows[i];
      assert ranked[0].score >= ranked[k].score;
    }
  }

  function RequestIds(requests: seq<Request>): seq<Hash> {
    seq(|requests|, i requires 0 <= i < |requests| => requests[i].identifier)
  }

  /** The cache upsert of every chunk of one message, at one address. */
  method UpsertChunks(c0: Cache, digest: string -> Hash, chunks: seq<string>, at: Address) returns (c: Cache)
    ensures c == c0.UpsertAll(ChunkOccurrences(digest, chunks, at))
  {
    c := c0;
    for k := 0 to |chunks|
      invariant c == c0.UpsertAll(ChunkOccurrences(digest, chunks[..k], at))
    {
      UpsertChunkStep(c0, digest, chunks, k, at);
      c := c.Upsert(Occurrence(digest(chunks[k]), chunks[k], at));
    }
    assert chunks[..|chunks|] == chunks;
  }

  /** The loop over one conversation's nodes: the kept messages, with their chunks upserted into `c0`. */
  method IndexConversation(cfg: Config, c0: Cache, title: string, conv: Conversation)
    returns (messages: seq<IndexedMessage>, c: Cache)
    ensures messages == ScanMessages(cfg, title, conv.conversationId, conv.mapping).messages
    ensures c == c0.UpsertAll(ScanMessages(cfg, title, conv.conversationId, conv.mapping).occurrences)
  {
    messages := [];
    c := c0;
    for j := 0 to |conv.mapping|
      invariant messages == ScanMessages(cfg, title, conv.conversationId, conv.mapping[..j]).messages
      invariant c == c0.UpsertAll(ScanMessages(cfg, title, conv.conversationId, conv.mapping[..j]).occurrences)
    {
      ScanStep(cfg, title, conv.conversationId, conv.mapping, j);
      ghost var before := ScanMessages(cfg, title, conv.conversationId, conv.mapping[..j]).occurrences;
      var node := conv.mapping[j];
      if node.Some? && node.value.role != "system" && node.value.status == "finished_successfully" {
        var m := node.value;
        var content := GetContent(m, cfg.ignoreThreshold);
        if content != [] {
          var chunks := Chunker.GetChunks(cfg.encode, cfg.decode, content, cfg.breakLine, cfg.overlap);
          var at := Address(title, |messages|);
          c := UpsertChunks(c, cfg.digest, chunks, at);
          UpsertAllAppend(c0, before, ChunkOccurrences(cfg.digest, chunks, at));
          messages := messages + [IndexedMessage(m.role, content, ModelOf(m), m.createdAt, conv.conversationId, |messages|, title)];
        }
      }
    }
    assert conv.mapping[..|conv.mapping|] == conv.mapping;
  }

  /** The loop of `prepare_conversations()` over the export (already reversed), on the cache and index. */
  method IndexExport(cfg: Config, st0: Store, convs: seq<Conversation>) returns (st: Store)
    ensures st == PrepareAll(cfg, st0, convs)
  {
    var c, ix := st0.cache, st0.index;
    for idx := 0 to |convs|
      invariant Store(c, ix) == PrepareAll(cfg, st0, convs[..idx])
    {
      var conv := convs[idx];
      assert convs[..idx + 1] == convs[..idx] + [conv];
      PrepareStepCache(cfg, st0, convs[..idx], conv);
      PrepareStepIndex(cfg, st0, convs[..idx], conv);
      var title := FormatTitle(idx, conv.title);
      var messages;
      messages, c := IndexConversation(cfg, c, title, conv);
      if messages != [] {
        ix := ix[title := EntryOf(conv, messages)];
      }
    }
    assert convs[..|convs|] == convs;
    st := Store(c, ix);
  }

  /** One more visited hash: the planning loop's cache and requests grow by that hash's step. */
  lemma PlanStep(c0: Cache, vectorCache: map<Hash, seq<real>>, hs: seq<Hash>, i: nat)
    requires i < |hs|
    ensures var p := FillUpTo(c0, vectorCache, hs[..i]);
            var h := hs[i];
            FillUpTo(c0, vectorCache, hs[..i + 1])
              == if h in p.entries && p.entries[h].embedding == [] && h in vectorCache
                 then Cache(p.entries[h := p.entries[h].(embedding := vectorCache[h])], p.order)
                 else p
    ensures var h := hs[i];
            Pending(c0, vectorCache, hs[..i + 1])
              == Pending(c0, vectorCache, hs[..i])
                 + (if h in c0.entries && c0.entries[h].embedding == [] && h !in vectorCache
                    then [Request(h, c0.entries[h].content)] else [])
  {
    assert hs[..i + 1][..i] == hs[..i];
  }

  /**
   * The planning loop of `generate_embeddings()`: entries that already have
   * an embedding are skipped, entries found in the vector cache take its
   * output, and the rest are enqueued with their token counts.
   */
  method Plan(c0: Cache, vectorCache: map<Hash, seq<real>>, encode: Tokenizer.Encoder)
    returns (c: Cache, requests: seq<Request>, tokens: seq<nat>)
    requires c0.Valid()
    ensures c == Filled(c0, vectorCache)
    ensures requests == Pending(c0, vectorCache, c0.order)
    ensures |tokens| == |requests|
    ensures forall k :: 0 <= k < |tokens| ==> tokens[k] == Tokenizer.TokenCount(encode, Tokenizer.Text(requests[k].content))
  {
    c := c0;
    var order := c0.order;
    requests, tokens := [], [];
    for i := 0 to |order|
      invariant c == FillUpTo(c0, vectorCache, order[..i])
      invariant requests == Pending(c0, vectorCache, order[..i])
      invariant |tokens| == |requests|
      invariant forall k :: 0 <= k < |tokens| ==> tokens[k] == Tokenizer.TokenCount(encode, Tokenizer.Text(requests[k].content))
    {
      var h := order[i];
      PlanStep(c0, vectorCache, order, i);
      FillUpToElsewhere(c0, vectorCache, order[..i], h);
      var e := c.entries[h];
      if e.embedding != [] {
      } else if h in vectorCache {
        c := Cache(c.entries[h := e.(embedding := vectorCache[h])], c.order);
      } else {
        requests := requests + [Request(h, e.content)];
        var n := Tokenizer.CountTokens(encode, Tokenizer.Text(e.content));
        tokens := tokens + [n];
      }
    }
    assert order[..|order|] == order;
    FillUpToAll(c0, vectorCache);
  }

  /**
   * The merge loop of `generate_embeddings()`: each truthy output is stored as
   * its entry's embedding, each falsy one is reported; an identifier the cache
   * does not hold raises KeyError and ends the loop.
   */
  method MergeResults(c0: Cache, results: seq<EmbedResult>) returns (m: Merge)
    requires c0.Valid()
    ensures m == MergeAll(c0, results) && m.cache.Valid()
  {
    var c := c0;
    var failed: seq<Hash> := [];
    for i := 0 to |results|
      invariant MergeAll(c0, results[..i]) == Merge(c, failed, None)
      invariant c.Valid()
    {
      assert results[..i + 1][..i] == results[..i];
      var r := results[i];
      if r.output == [] {
        failed := failed + [r.identifier];
      } else if r.identifier !in c.entries {
        MergeStopsAtMissing(c0, results, i + 1);
        assert results[..|results|] == results;
        return Merge(c, failed, Some(r.identifier));
      } else {
        SetEmbeddingKeepsValid(c, r.identifier, r.output);
        c := SetEmbedding(c, r.identifier, r.output);
      }
    }
    assert results[..|results|] == results;
    m := Merge(c, failed, None);
  }

  class SearchEngine {
    const cfg: Config
    var cache: Cache
    var index: Index
    var vectorCache: map<Hash, seq<real>>
    var vector: seq<VectorRow>
    var searchCache: map<string, SearchRecord>

    /** The chunk cache is well formed and no index entry is empty. */
    ghost predicate Valid()
      reads this
    {
      cache.Valid() && NoEmptyEntries(index)
    }

    /** The engine with the stores `load_data` read. */
    constructor (cfg: Config, index: Index, cache: Cache, vectorCache: map<Hash, seq<real>>,
                 vector: seq<VectorRow>, searchCache: map<string, SearchRecord>)
      requires cache.Valid() && NoEmptyEntries(index)
      ensures Valid()
      ensures this.cfg == cfg && this.index == index && this.cache == cache && this.vectorCache == vectorCache
      ensures this.vector == vector && this.searchCache == searchCache
    {
      this.cfg := cfg;
      this.index := index;
      this.cache := cache;
      this.vectorCache := vectorCache;
      this.vector := vector;
      this.searchCache := searchCache;
    }

    /**
     * `prepare_conversations()`: index the export newest first, upserting every
     * chunk of every kept message into the chunk cache and writing one index
     * entry per conversation that kept a message.
     */
    method PrepareConversations(exported: seq<Conversation>)
      requires Valid()
      modifies this
      ensures Valid()
      ensures Store(cache, index) == PrepareAll(cfg, Store(old(cache), old(index)), Reverse(exported))
      ensures vectorCache == old(vectorCache) && vector == old(vector) && searchCache == old(searchCache)
    {
      var st0 := Store(cache, index);
      var st := IndexExport(cfg, st0, Reverse(exported));
      PrepareKeepsNoEmptyEntries(cfg, st0, Reverse(exported));
      PrepareKeepsCacheValid(cfg, st0, Reverse(exported));
      cache, index := st.cache, st.index;
    }

    /** The planning loop of `generate_embeddings()`, applied to the cache. */
    method PlanEmbeddings() returns (requests: seq<Request>, tokens: seq<nat>)
      requires Valid()
      modifies this
      ensures Valid()
      ensures cache == Filled(old(cache), vectorCache)
      ensures requests == Pending(old(cache), vectorCache, old(cache).order)
      ensures |tokens| == |requests|
      ensures forall k :: 0 <= k < |tokens| ==>
                tokens[k] == Tokenizer.TokenCount(cfg.encode, Tokenizer.Text(requests[k].content))
      ensures index == old(index) && vectorCache == old(vectorCache) && vector == old(vector)
      ensures searchCache == old(searchCache)
    {
      FilledKeepsValid(cache, vectorCache);
      var c;
      c, requests, tokens := Plan(cache, vectorCache, cfg.encode);
      cache := c;
    }

    /**
     * The merge loop of `generate_embeddings()`, applied to the cache. A
     * non-empty batch that merges completely rebuilds the vector table.
     */
    method MergeEmbeddings(results: seq<EmbedResult>) returns (outcome: Result<seq<Hash>>)
      requires Valid()
      modifies this
      ensures Valid()
      ensures cache == MergeAll(old(cache), results).cache
      ensures MergeAll(old(cache), results).missing.Some? ==>
                outcome == Err(KeyError(MergeAll(old(cache), results).missing.value)) && vector == old(vector)
      ensures MergeAll(old(cache), results).missing.None? ==>
                && outcome == Ok(MergeAll(old(cache), results).failed)
                && vector == (if results == [] then old(vector) else VectorTable(cache))
      ensures index == old(index) && vectorCache == old(vectorCache) && searchCache == old(searchCache)
    {
      var m := MergeResults(cache, results);
      cache := m.cache;
      if m.missing.Some? {
        return Err(KeyError(m.missing.value));
      }
      if results != [] {
        vector := VectorTable(m.cache);
      }
      return Ok(m.failed);
    }

    /**
     * `generate_embeddings()`: plan; when something is pending and the user
     * confirms, fetch one embedding per request (`fetch` is the endpoint, its
     * results in request order) and merge them.
     */
    method GenerateEmbeddings(confirmed: bool, fetch: Request -> seq<real>) returns (requests: seq<Request>, failed: seq<Hash>)
      requires Valid()
      modifies this
      ensures Valid()
      ensures requests == Pending(old(cache), old(vectorCache), old(cache).order)
      ensures requests == [] || !confirmed ==>
                cache == Filled(old(cache), old(vectorCache)) && failed == [] && vector == old(vector)
      ensures requests != [] && confirmed ==>
                var m := MergeAll(Filled(old(cache), old(vectorCache)), Fetched(requests, fetch));
                m.missing.None? && cache == m.cache && failed == m.failed && vector == VectorTable(cache)
      ensures index == old(index) && vectorCache == old(vectorCache) && searchCache == old(searchCache)
    {
      ghost var c0 := cache;
      var tokens;
      requests, tokens := PlanEmbeddings();
      failed := [];
      if tokens == [] || !confirmed {
        return;
      }
      PlanThenMerge(c0, vectorCache, fetch);
      var outcome := MergeEmbeddings(Fetched(requests, fetch));
      failed := outcome.value;
    }

    /**
     * `search(query, identifier)`: a stored identifier returns its record
     * without calling the model; otherwise the query embedding `queryOutput`
     * is fetched (`dispatched`; None when the request failed), the vector table
     * ranked against it, and the record with the first SEARCH_LIMIT distinct
     * titles stored and returned. A failed embedding makes the distance raise
     * `distanceError` as soon as there is a row to rank, before anything is
     * stored.
     */
    method Search(query: string, identifier: string, queryOutput: Option<seq<real>>,
                  distance: (seq<real>, seq<real>) -> real, distanceError: Error)
      returns (r: Result<SearchRecord>, dispatched: bool)
      modifies this
      ensures dispatched <==> identifier !in old(searchCache)
      ensures !dispatched ==> r == Ok(old(searchCache)[identifier]) && searchCache == old(searchCache)
      ensures dispatched && queryOutput.None? && vector != [] ==>
                r == Err(distanceError) && searchCache == old(searchCache)
      ensures dispatched && (queryOutput.Some? || vector == []) ==>
                && r == Ok(SearchRecord(identifier, queryOutput, query,
                                        SearchResults(SortByScore(Scored(vector, queryOutput.GetOr([]), distance)),
                                                      cfg.searchLimit)))
                && searchCache == old(searchCache)[identifier := r.value]
      ensures cache == old(cache) && index == old(index) && vectorCache == old(vectorCache) && vector == old(vector)
    {
      if identifier in searchCache {
        return Ok(searchCache[identifier]), false;
      }
      dispatched := true;
      if queryOutput.None? && vector != [] {
        return Err(distanceError), true;
      }
      var data := Scored(vector, queryOutput.GetOr([]), distance);
      var ranked := SortByScore(data);
      var titles := CollectTitles(ranked, cfg.searchLimit);
      var record := SearchRecord(identifier, queryOutput, query, titles);
      searchCache := searchCache[identifier := record];
      r := Ok(record);
    }
  }

  // ----- properties ---------------------------------------------------------------------

  /** The planning loop changes no key, no order, and no entry it has not visited yet. */
  lemma {:induction false} FillUpToElsewhere(c0: Cache, vectorCache: map<Hash, seq<real>>, hs: seq<Hash>, h: Hash)
    ensures FillUpTo(c0, vectorCache, hs).order == c0.order
    ensures FillUpTo(c0, vectorCache, hs).entries.Keys == c0.entries.Keys
    ensures h in c0.entries && h !in hs ==> FillUpTo(c0, vectorCache, hs).entries[h] == c0.entries[h]
    decreases |hs|
  {
    if hs != [] {
      FillUpToElsewhere(c0, vectorCache, hs[..|hs| - 1], h);
    }
  }

  /** A visited entry holds what `FillOne` makes of it. */
  lemma {:induction false} FillUpToAt(c0: Cache, vectorCache: map<Hash, seq<real>>, hs: seq<Hash>, h: Hash)
    requires h in c0.entries
    ensures h in FillUpTo(c0, vectorCache, hs).entries
    ensures FillUpTo(c0, vectorCache, hs).entries[h] ==
              if h in hs then FillOne(h, c0.entries[h], vectorCache) else c0.entries[h]
    decreases |hs|
  {
    FillUpToElsewhere(c0, vectorCache, hs, h);
    if hs != [] {
      var init := hs[..|hs| - 1];
      FillUpToAt(c0, vectorCache, init, h);
      FillUpToElsewhere(c0, vectorCache, init, h);
      assert h in hs <==> h in init || h == hs[|hs| - 1];
    }
  }

  /** Visiting every key of a well-formed cache is `Filled`. */
  lemma FillUpToAll(c0: Cache, vectorCache: map<Hash, seq<real>>)
    requires c0.Valid()
    ensures FillUpTo(c0, vectorCache, c0.order) == Filled(c0, vectorCache)
  {
    var f := FillUpTo(c0, vectorCache, c0.order);
    FillUpToElsewhere(c0, vectorCache, c0.order, "");
    forall h | h in c0.entries
      ensures f.entries[h] == Filled(c0, vectorCache).entries[h]
    {
      FillUpToAt(c0, vectorCache, c0.order, h);
    }
    assert f.entries == Filled(c0, vectorCache).entries;
  }

  lemma UpsertChunkStep(c0: Cache, digest: string -> Hash, chunks: seq<string>, c: nat, at: Address)
    requires c < |chunks|
    ensures c0.UpsertAll(ChunkOccurrences(digest, chunks[..c + 1], at))
            == c0.UpsertAll(ChunkOccurrences(digest, chunks[..c], at)).Upsert(Occurrence(digest(chunks[c]), chunks[c], at))
  {
    var o := Occurrence(digest(chunks[c]), chunks[c], at);
    assert chunks[..c + 1][..c] == chunks[..c];
    assert ChunkOccurrences(digest, chunks[..c + 1], at) == ChunkOccurrences(digest, chunks[..c], at) + [o];
    UpsertAllSnoc(c0, ChunkOccurrences(digest, chunks[..c], at), o);
  }

  lemma FilledKeepsValid(c: Cache, vectorCache: map<Hash, seq<real>>)
    requires c.Valid()
    ensures Filled(c, vectorCache).Valid()
  {
  }

  lemma SetEmbeddingKeepsValid(c: Cache, h: Hash, v: seq<real>)
    requires c.Valid() && h in c.entries
    ensures SetEmbedding(c, h, v).Valid()
  {
  }

  /** Once an identifier is missing, later results change nothing. */
  lemma {:induction false} MergeStopsAtMissing(c: Cache, rs: seq<EmbedResult>, i: nat)
    requires 1 <= i <= |rs| && MergeAll(c, rs[..i]).missing.Some?
    ensures MergeAll(c, rs) == MergeAll(c, rs[..i])
    decreases |rs| - i
  {
    if i < |rs| {
      assert rs[..i + 1][..i] == rs[..i];
      MergeStopsAtMissing(c, rs, i + 1);
    } else {
      assert rs[..i] == rs;
    }
  }

  /**
   * The planning loop enqueues exactly the entries with no embedding that the
   * vector cache does not hold, each once.
   */
  lemma {:induction false} PendingExactly(c: Cache, vectorCache: map<Hash, seq<real>>, hs: seq<Hash>, r: Request)
    ensures r in Pending(c, vectorCache, hs) <==>
              (&& r.identifier in hs
               && r.identifier in c.entries
               && c.entries[r.identifier].embedding == []
               && r.identifier !in vectorCache
               && r.content == c.entries[r.identifier].content)
    decreases |hs|
  {
    if hs != [] {
      PendingExactly(c, vectorCache, hs[..|hs| - 1], r);
      assert hs == hs[..|hs| - 1] + [hs[|hs| - 1]];
    }
  }

  lemma {:induction false} PendingDistinct(c: Cache, vectorCache: map<Hash, seq<real>>, hs: seq<Hash>)
    requires Distinct(hs)
    ensures Distinct(RequestIds(Pending(c, vectorCache, hs)))
    ensures forall i :: 0 <= i < |Pending(c, vectorCache, hs)| ==> Pending(c, vectorCache, hs)[i].identifier in hs
    decreases |hs|
  {
    if hs != [] {
      var init := hs[..|hs| - 1];
      var h := hs[|hs| - 1];
      assert Distinct(init);
      PendingDistinct(c, vectorCache, init);
      var p := Pending(c, vectorCache, init);
      assert h !in init;
      var ids := RequestIds(Pending(c, vectorCache, hs));
      forall i, j | 0 <= i < j < |ids| ensures ids[i] != ids[j] {
        if j == |p| {
          assert p[i].identifier in init;
        } else {
          assert ids[i] == RequestIds(p)[i] && ids[j] == RequestIds(p)[j];
        }
      }
    }
  }

  /** Merging results whose identifiers are all cached raises nothing and keeps the cache's keys and order. */
  lemma {:induction false} MergeNoMissing(c: Cache, rs: seq<EmbedResult>)
    requires forall i :: 0 <= i < |rs| ==> rs[i].identifier in c.entries
    ensures MergeAll(c, rs).missing.None?
    ensures MergeAll(c, rs).cache.order == c.order && MergeAll(c, rs).cache.entries.Keys == c.entries.Keys
    decreases |rs|
  {
    if rs != [] {
      MergeNoMissing(c, rs[..|rs| - 1]);
    }
  }

  /** An entry no result names is left as it was. */
  lemma {:induction false} MergeUntouched(c: Cache, rs: seq<EmbedResult>, h: Hash)
    requires forall i :: 0 <= i < |rs| ==> rs[i].identifier in c.entries
    requires h in c.entries && forall i :: 0 <= i < |rs| ==> rs[i].identifier != h
    ensures h in MergeAll(c, rs).cache.entries && MergeAll(c, rs).cache.entries[h] == c.entries[h]
    decreases |rs|
  {
    if rs != [] {
      MergeUntouched(c, rs[..|rs| - 1], h);
      MergeNoMissing(c, rs[..|rs| - 1]);
    }
  }

  /**
   * With distinct identifiers, all cached, the result at position `i` decides
   * its entry: a truthy output becomes the embedding, a falsy one leaves the
   * entry unchanged and is reported as failed.
   */
  lemma {:induction false} MergeEntry(c: Cache, rs: seq<EmbedResult>, i: nat)
    requires forall k :: 0 <= k < |rs| ==> rs[k].identifier in c.entries
    requires forall k, l :: 0 <= k < l < |rs| ==> rs[k].identifier != rs[l].identifier
    requires i < |rs|
    ensures var m := MergeAll(c, rs); var h := rs[i].identifier;
            && h in m.cache.entries
            && (rs[i].output != [] ==> m.cache.entries[h] == c.entries[h].(embedding := rs[i].output))
            && (rs[i].output == [] ==> m.cache.entries[h] == c.entries[h] && h in m.failed)
    decreases |rs|
  {
    var init := rs[..|rs| - 1];
    MergeNoMissing(c, init);
    if i == |rs| - 1 {
      MergeUntouched(c, init, rs[i].identifier);
    } else {
      MergeEntry(c, init, i);
    }
  }

  /**
   * Reference definition of embedding generation: after planning and merging
   * a confirmed batch, each entry's embedding is its old one if it had one,
   * else the vector cache's stored output if there is one, else what the
   * endpoint returned for it (empty when that failed). No KeyError arises.
   */
  lemma PlanThenMerge(c: Cache, vectorCache: map<Hash, seq<real>>, fetch: Request -> seq<real>)
    requires c.Valid()
    ensures var f := Filled(c, vectorCache);
            var m := MergeAll(f, Fetched(Pending(c, vectorCache, c.order), fetch));
            && m.missing.None?
            && m.cache.Valid()
            && m.cache.order == c.order && m.cache.entries.Keys == c.entries.Keys
            && forall h :: h in c.entries ==>
                 && m.cache.entries[h].content == c.entries[h].content
                 && m.cache.entries[h].addresses == c.entries[h].addresses
                 && m.cache.entries[h].embedding ==
                      (if c.entries[h].embedding != [] then c.entries[h].embedding
                       else if h in vectorCache then vectorCache[h]
                       else fetch(Request(h, c.entries[h].content)))
  {
    var f := Filled(c, vectorCache);
    var reqs := Pending(c, vectorCache, c.order);
    var rs := Fetched(reqs, fetch);
    PendingDistinct(c, vectorCache, c.order);
    forall i, j | 0 <= i < j < |rs| ensures rs[i].identifier != rs[j].identifier {
      assert RequestIds(reqs)[i] != RequestIds(reqs)[j];
    }
    forall i | 0 <= i < |rs| ensures rs[i].identifier in f.entries {
      assert reqs[i].identifier in c.order;
    }
    MergeNoMissing(f, rs);
    var m := MergeAll(f, rs);
    forall h | h in c.entries
      ensures m.cache.entries[h].content == c.entries[h].content
      ensures m.cache.entries[h].addresses == c.entries[h].addresses
      ensures m.cache.entries[h].embedding ==
                (if c.entries[h].embedding != [] then c.entries[h].embedding
                 else if h in vectorCache then vectorCache[h]
                 else fetch(Request(h, c.entries[h].content)))
    {
      var req := Request(h, c.entries[h].content);
      PendingExactly(c, vectorCache, c.order, req);
      if req in reqs {
        var i :| 0 <= i < |reqs| && reqs[i] == req;
        assert rs[i] == EmbedResult(h, fetch(req));
        MergeEntry(f, rs, i);
      } else {
        forall i | 0 <= i < |rs| ensures rs[i].identifier != h {
          PendingExactly(c, vectorCache, c.order, reqs[i]);
        }
        MergeUntouched(f, rs, h);
      }
    }
    assert m.cache.Valid();
  }
}
