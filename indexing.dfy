/**
 * What one pass of `prepare_conversations` (main.py) computes: for every
 * conversation of the export, newest first, the indexed messages, the chunk
 * occurrences upserted into the chunk cache, and the index entry written under
 * the conversation's title.
 */
module Indexing {
  import opened Wrappers
  import Tokenizer
  import Chunker
  import opened ChunkCache
  import opened Content

  /**
   * The pipeline's collaborators and settings: the tokenizer's encode and
   * decode, the SHA-256 hex digest, CHUNK_BREAK_LINE, CHUNK_TRIM_OVERLAP,
   * IGNORE_THRESHOLD and SEARCH_LIMIT.
   */
  datatype Config = Config(
    encode: Tokenizer.Encoder,
    decode: Tokenizer.Decoder,
    digest: string -> Hash,
    breakLine: nat,
    overlap: nat,
    ignoreThreshold: nat,
    searchLimit: nat)

  /** The shipped settings: 1024-token chunks, 128 tokens of overlap, 60 characters, 10 results. */
  function DefaultConfig(encode: Tokenizer.Encoder, decode: Tokenizer.Decoder, digest: string -> Hash): Config {
    Config(encode, decode, digest, 1024, 128, 60, 10)
  }

  /** One element of an index entry's `messages`: its `context` and `metadata`. */
  datatype IndexedMessage = IndexedMessage(
    role: string,
    content: string,
    model: string,
    createdAt: string,
    conversationId: string,
    messageIndex: nat,
    conversationTitle: string)

  datatype IndexEntry = IndexEntry(messages: seq<IndexedMessage>, createdAt: string, conversationId: string, url: string)

  type Index = map<string, IndexEntry>

  /** The model recorded for a message: the model slug (default `gpt`) for the assistant, `user` otherwise. */
  function ModelOf(m: ExportedMessage): (model: string)
    ensures m.role != "assistant" ==> model == "user"
    ensures m.role == "assistant" && m.metadata.modelSlug.None? ==> model == "gpt"
    ensures m.role == "assistant" && m.metadata.modelSlug.Some? ==> model == m.metadata.modelSlug.value
  {
    if m.role == "assistant" then m.metadata.modelSlug.GetOr("gpt") else "user"
  }

  /** The upserts for the chunks of one message, all at the same address. */
  function ChunkOccurrences(digest: string -> Hash, chunks: seq<string>, at: Address): (occs: seq<Occurrence>)
    ensures |occs| == |chunks|
    ensures forall i :: 0 <= i < |chunks| ==> occs[i] == Occurrence(digest(chunks[i]), chunks[i], at)
  {
    if chunks == [] then []
    else ChunkOccurrences(digest, chunks[..|chunks| - 1], at)
           + [Occurrence(digest(chunks[|chunks| - 1]), chunks[|chunks| - 1], at)]
  }

  /** The chunks `get_chunks()` makes of a message's text. */
  function ChunksOf(cfg: Config, text: string): seq<string> {
    Chunker.ChunkText(cfg.encode, cfg.decode, text, cfg.breakLine, cfg.overlap)
  }

  datatype Scan = Scan(messages: seq<IndexedMessage>, occurrences: seq<Occurrence>)

  /**
   * The inner loop over a conversation's nodes: skipped nodes contribute
   * nothing; a kept message is recorded at index `len(messages)`, and its
   * chunks are upserted at address `[title, len(messages)]`.
   */
  function ScanMessages(cfg: Config, title: string, conversationId: string, nodes: seq<Option<ExportedMessage>>): (r: Scan)
    ensures forall i :: 0 <= i < |r.messages| ==>
              && r.messages[i].messageIndex == i
              && r.messages[i].conversationTitle == title
              && r.messages[i].conversationId == conversationId
              && r.messages[i].role != "system"
              && |r.messages[i].content| >= cfg.ignoreThreshold
              && r.messages[i].content != []
    ensures forall i :: 0 <= i < |r.occurrences| ==>
              && r.occurrences[i].address.title == title
              && r.occurrences[i].address.messageIndex < |r.messages|
              && r.occurrences[i].hash == cfg.digest(r.occurrences[i].content)
    ensures |r.messages| <= |nodes|
    decreases |nodes|
  {
    if nodes == [] then Scan([], [])
    else
      var prev := ScanMessages(cfg, title, conversationId, nodes[..|nodes| - 1]);
      var node := nodes[|nodes| - 1];
      match Kept(node, cfg.ignoreThreshold)
      case None => prev
      case Some(text) =>
        var k := |prev.messages|;
        var m := node.value;
        Scan(prev.messages + [IndexedMessage(m.role, text, ModelOf(m), m.createdAt, conversationId, k, title)],
             prev.occurrences + ChunkOccurrences(cfg.digest, ChunksOf(cfg, text), Address(title, k)))
  }

  /** The index entry of a conversation whose kept messages are `messages`. */
  function EntryOf(conv: Conversation, messages: seq<IndexedMessage>): (e: IndexEntry)
    ensures e.url == "https://chatgpt.com/c/" + conv.conversationId
  {
    IndexEntry(messages, conv.createdAt, conv.conversationId, "https://chatgpt.com/c/" + conv.conversationId)
  }

  /** The scan of the conversation at position `idx` of the newest-first export. */
  function ScanConversation(cfg: Config, idx: nat, conv: Conversation): Scan {
    ScanMessages(cfg, FormatTitle(idx, conv.title), conv.conversationId, conv.mapping)
  }

  /** All chunk upserts of the pass, conversation after conversation. */
  function AllOccurrences(cfg: Config, convs: seq<Conversation>): seq<Occurrence>
    decreases |convs|
  {
    if convs == [] then []
    else AllOccurrences(cfg, convs[..|convs| - 1]) + ScanConversation(cfg, |convs| - 1, convs[|convs| - 1]).occurrences
  }

  /** All index writes of the pass; a conversation without kept messages writes nothing. */
  function IndexWrites(cfg: Config, convs: seq<Conversation>): (ws: seq<(string, IndexEntry)>)
    ensures forall i :: 0 <= i < |ws| ==> ws[i].1.messages != []
    decreases |convs|
  {
    if convs == [] then []
    else
      var idx := |convs| - 1;
      var s := ScanConversation(cfg, idx, convs[idx]);
      IndexWrites(cfg, convs[..idx])
        + (if s.messages == [] then [] else [(FormatTitle(idx, convs[idx].title), EntryOf(convs[idx], s.messages))])
  }

  /** `d[k] = v` for each write in order. */
  function Apply(d: Index, ws: seq<(string, IndexEntry)>): Index
    decreases |ws|
  {
    if ws == [] then d else Apply(d, ws[..|ws| - 1])[ws[|ws| - 1].0 := ws[|ws| - 1].1]
  }

  function Written(ws: seq<(string, IndexEntry)>): set<string> {
    set i | 0 <= i < |ws| :: ws[i].0
  }

  /** The chunk cache and the index, the state `prepare_conversations` updates. */
  datatype Store = Store(cache: Cache, index: Index)

  /** The state after `prepare_conversations` over `convs`, the export already reversed. */
  function PrepareAll(cfg: Config, st: Store, convs: seq<Conversation>): Store {
    Store(st.cache.UpsertAll(AllOccurrences(cfg, convs)), Apply(st.index, IndexWrites(cfg, convs)))
  }

  /** Every index entry holds at least one message. */
  ghost predicate NoEmptyEntries(index: Index) {
    forall t :: t in index ==> index[t].messages != []
  }

  function Reverse<T>(s: seq<T>): (r: seq<T>)
    ensures |r| == |s|
    ensures forall i :: 0 <= i < |s| ==> r[i] == s[|s| - 1 - i]
  {
    if s == [] then [] else [s[|s| - 1]] + Reverse(s[..|s| - 1])
  }

  // ----- properties ---------------------------------------------------------------------

  /** One more node extends the scan by what `Kept` makes of it. */
  lemma ScanStep(cfg: Config, title: string, conversationId: string, nodes: seq<Option<ExportedMessage>>, j: nat)
    requires j < |nodes|
    ensures var prev := ScanMessages(cfg, title, conversationId, nodes[..j]);
            ScanMessages(cfg, title, conversationId, nodes[..j + 1]) ==
              match Kept(nodes[j], cfg.ignoreThreshold)
              case None => prev
              case Some(text) =>
                Scan(prev.messages + [IndexedMessage(nodes[j].value.role, text, ModelOf(nodes[j].value), nodes[j].value.createdAt,
                                                     conversationId, |prev.messages|, title)],
                     prev.occurrences + ChunkOccurrences(cfg.digest, ChunksOf(cfg, text), Address(title, |prev.messages|)))
  {
    assert nodes[..j + 1][..j] == nodes[..j];
  }

  lemma PrepareStepCache(cfg: Config, st: Store, convs: seq<Conversation>, conv: Conversation)
    ensures PrepareAll(cfg, st, convs + [conv]).cache
            == PrepareAll(cfg, st, convs).cache.UpsertAll(ScanConversation(cfg, |convs|, conv).occurrences)
  {
    var all := convs + [conv];
    assert all[..|all| - 1] == convs;
    assert AllOccurrences(cfg, all) == AllOccurrences(cfg, convs) + ScanConversation(cfg, |convs|, conv).occurrences;
    UpsertAllAppend(st.cache, AllOccurrences(cfg, convs), ScanConversation(cfg, |convs|, conv).occurrences);
  }

  /** One more conversation: it writes its entry under its title when it kept a message. */
  lemma PrepareStepIndex(cfg: Config, st: Store, convs: seq<Conversation>, conv: Conversation)
    ensures ScanConversation(cfg, |convs|, conv).messages == [] ==>
              PrepareAll(cfg, st, convs + [conv]).index == PrepareAll(cfg, st, convs).index
    ensures ScanConversation(cfg, |convs|, conv).messages != [] ==>
              PrepareAll(cfg, st, convs + [conv]).index
              == PrepareAll(cfg, st, convs).index[FormatTitle(|convs|, conv.title)
                                                 := EntryOf(conv, ScanConversation(cfg, |convs|, conv).messages)]
  {
    var all := convs + [conv];
    assert all[..|all| - 1] == convs;
    var ws := IndexWrites(cfg, convs);
    if ScanConversation(cfg, |convs|, conv).messages == [] {
      assert IndexWrites(cfg, all) == ws;
    } else {
      var w := (FormatTitle(|convs|, conv.title), EntryOf(conv, ScanConversation(cfg, |convs|, conv).messages));
      assert IndexWrites(cfg, all) == ws + [w];
      assert (ws + [w])[..|ws|] == ws;
    }
  }

  lemma {:induction false} ApplyElsewhere(d: Index, ws: seq<(string, IndexEntry)>, k: string)
    requires k !in Written(ws)
    ensures (k in Apply(d, ws) <==> k in d) && (k in d ==> Apply(d, ws)[k] == d[k])
    decreases |ws|
  {
    if ws != [] {
      assert ws[..|ws| - 1][..] == ws[..|ws| - 1];
      assert Written(ws[..|ws| - 1]) <= Written(ws) by {
        forall t | t in Written(ws[..|ws| - 1]) ensures t in Written(ws) {
          var i :| 0 <= i < |ws| - 1 && ws[..|ws| - 1][i].0 == t;
          assert ws[i].0 == t;
        }
      }
      assert ws[|ws| - 1].0 in Written(ws);
      ApplyElsewhere(d, ws[..|ws| - 1], k);
    }
  }

  /** A written key holds the last value written to it, whatever the starting map. */
  lemma {:induction false} ApplyWritten(d1: Index, d2: Index, ws: seq<(string, IndexEntry)>, k: string)
    requires k in Written(ws)
    ensures k in Apply(d1, ws) && k in Apply(d2, ws) && Apply(d1, ws)[k] == Apply(d2, ws)[k]
    decreases |ws|
  {
    var last := ws[|ws| - 1];
    if last.0 != k {
      var i :| 0 <= i < |ws| && ws[i].0 == k;
      assert i < |ws| - 1 && ws[..|ws| - 1][i].0 == k;
      ApplyWritten(d1, d2, ws[..|ws| - 1], k);
    }
  }

  /** Replaying the same index writes changes nothing. */
  lemma ApplyTwice(d: Index, ws: seq<(string, IndexEntry)>)
    ensures Apply(Apply(d, ws), ws) == Apply(d, ws)
  {
    var once := Apply(d, ws);
    var twice := Apply(once, ws);
    forall k ensures (k in twice <==> k in once) && (k in once ==> twice[k] == once[k]) {
      if k in Written(ws) {
        ApplyWritten(once, d, ws, k);
      } else {
        ApplyElsewhere(once, ws, k);
      }
    }
  }

  /** Writes that only store non-empty entries keep the index free of empty entries. */
  lemma {:induction false} ApplyKeepsNoEmptyEntries(d: Index, ws: seq<(string, IndexEntry)>)
    requires NoEmptyEntries(d)
    requires forall i :: 0 <= i < |ws| ==> ws[i].1.messages != []
    ensures NoEmptyEntries(Apply(d, ws))
    decreases |ws|
  {
    if ws != [] {
      ApplyKeepsNoEmptyEntries(d, ws[..|ws| - 1]);
    }
  }

  /** A conversation with no kept message never gets an index entry: the index stays free of empty entries. */
  lemma PrepareKeepsNoEmptyEntries(cfg: Config, st: Store, convs: seq<Conversation>)
    requires NoEmptyEntries(st.index)
    ensures NoEmptyEntries(PrepareAll(cfg, st, convs).index)
  {
    ApplyKeepsNoEmptyEntries(st.index, IndexWrites(cfg, convs));
  }

  /** The pass keeps the chunk cache well formed. */
  lemma PrepareKeepsCacheValid(cfg: Config, st: Store, convs: seq<Conversation>)
    requires st.cache.Valid()
    ensures PrepareAll(cfg, st, convs).cache.Valid()
  {
    UpsertAllValid(st.cache, AllOccurrences(cfg, convs));
  }

  /**
   * Re-running the pass over the same export (as a database update does, on
   * the saved cache and index) changes neither the chunk cache nor the index.
   */
  lemma PrepareIdempotent(cfg: Config, st: Store, convs: seq<Conversation>)
    ensures PrepareAll(cfg, PrepareAll(cfg, st, convs), convs) == PrepareAll(cfg, st, convs)
  {
    ReinsertIdempotent(st.cache, AllOccurrences(cfg, convs));
    ApplyTwice(st.index, IndexWrites(cfg, convs));
  }

  /** The messages of a scan are exactly the kept nodes, in order. */
  lemma {:induction false} ScanCountsKept(cfg: Config, title: string, id: string, nodes: seq<Option<ExportedMessage>>)
    ensures |ScanMessages(cfg, title, id, nodes).messages| == KeptCount(nodes, cfg.ignoreThreshold)
    decreases |nodes|
  {
    if nodes != [] {
      ScanCountsKept(cfg, title, id, nodes[..|nodes| - 1]);
    }
  }

  function KeptCount(nodes: seq<Option<ExportedMessage>>, threshold: nat): nat
    decreases |nodes|
  {
    if nodes == [] then 0
    else KeptCount(nodes[..|nodes| - 1], threshold) + (if Kept(nodes[|nodes| - 1], threshold).Some? then 1 else 0)
  }
}
