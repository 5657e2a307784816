/**
 * Text extraction from one exported ChatGPT message (`get_content` in
 * main.py), the conversation title normalisation, and the filter that decides
 * which messages of a conversation are indexed.
 */
module Content {
  import opened Wrappers
  import opened Text

  /** An element of `content["parts"]` or `metadata["args"]`: only strings are used. */
  datatype Part = TextPart(s: string) | OtherPart

  /** One entry of `_cite_metadata["metadata_list"]`. */
  datatype CiteResult = CiteResult(kind: string, url: string, title: string, name: string, text: string)

  datatype MessageContent = MessageContent(
    contentType: string,
    parts: seq<Part>,
    language: string,
    text: string,
    domain: string)

  /**
   * The message metadata. `command` and `modelSlug` are None when the key is
   * absent; `citeResults` is None when `_cite_metadata` is absent or empty,
   * and otherwise holds its `metadata_list`.
   */
  datatype Metadata = Metadata(
    command: Option<string>,
    citeResults: Option<seq<CiteResult>>,
    args: seq<Part>,
    modelSlug: Option<string>)

  /** One exported message. Timestamps are carried already formatted. */
  datatype ExportedMessage = ExportedMessage(
    role: string,
    authorName: Option<string>,
    status: string,
    recipient: string,
    content: MessageContent,
    metadata: Metadata,
    createdAt: string)

  /** One exported conversation; `mapping` lists each node's `message`, None when missing or empty. */
  datatype Conversation = Conversation(
    title: string,
    createdAt: string,
    conversationId: string,
    mapping: seq<Option<ExportedMessage>>)

  /** The strings among `parts`, in order. */
  function Strings(parts: seq<Part>): (r: seq<string>)
    ensures |r| <= |parts|
    ensures forall i :: 0 <= i < |r| ==> TextPart(r[i]) in parts
    ensures forall j :: 0 <= j < |parts| && parts[j].TextPart? ==> parts[j].s in r
  {
    if parts == [] then []
    else (if parts[0].TextPart? then [parts[0].s] else []) + Strings(parts[1..])
  }

  /** `[f(m) for m in ps]` */
  function Mapped(f: string -> string, ps: seq<string>): seq<string> {
    seq(|ps|, j requires 0 <= j < |ps| => f(ps[j]))
  }

  /** `[m.strip() for m in ps]` */
  function StripAll(ps: seq<string>): seq<string> {
    Mapped(Strip, ps)
  }

  /** The non-empty strings among `xs`, in order. */
  function NonBlank(xs: seq<string>): (r: seq<string>)
    ensures |r| <= |xs|
    ensures forall i :: 0 <= i < |r| ==> r[i] != []
  {
    if xs == [] then [] else (if xs[0] == [] then [] else [xs[0]]) + NonBlank(xs[1..])
  }

  /** `NonBlank` keeps exactly the non-empty strings of `xs`. */
  lemma {:induction false} NonBlankContents(xs: seq<string>)
    ensures forall i :: 0 <= i < |NonBlank(xs)| ==> NonBlank(xs)[i] in xs
    ensures forall j :: 0 <= j < |xs| && xs[j] != [] ==> xs[j] in NonBlank(xs)
    decreases |xs|
  {
    if xs != [] {
      NonBlankContents(xs[1..]);
      var rest := NonBlank(xs[1..]);
      if xs[0] == [] {
        assert NonBlank(xs) == rest;
      } else {
        assert NonBlank(xs) == [xs[0]] + rest;
      }
      forall j | 0 < j < |xs| && xs[j] != []
        ensures xs[j] in NonBlank(xs)
      {
        assert xs[j] == xs[1..][j - 1];
      }
    }
  }

  /** The stripped, non-blank strings among `ps`: `[m.strip() for m in ps if m.strip()]`. */
  function StrippedNonBlank(ps: seq<string>): (r: seq<string>)
    ensures |r| <= |ps|
    ensures forall i :: 0 <= i < |r| ==> r[i] != []
  {
    NonBlank(StripAll(ps))
  }

  /** Each kept string is one of the parts, stripped; every part that is not blank once stripped is kept. */
  lemma StrippedNonBlankContents(ps: seq<string>)
    ensures forall i :: 0 <= i < |StrippedNonBlank(ps)| ==>
              exists j :: 0 <= j < |ps| && StrippedNonBlank(ps)[i] == Strip(ps[j])
    ensures forall j :: 0 <= j < |ps| && Strip(ps[j]) != [] ==> Strip(ps[j]) in StrippedNonBlank(ps)
  {
    var stripped, r := StripAll(ps), StrippedNonBlank(ps);
    NonBlankContents(stripped);
    forall i | 0 <= i < |r|
      ensures exists j :: 0 <= j < |ps| && r[i] == Strip(ps[j])
    {
      var j :| 0 <= j < |stripped| && stripped[j] == r[i];
      assert r[i] == Strip(ps[j]);
    }
    forall j | 0 <= j < |ps| && Strip(ps[j]) != []
      ensures Strip(ps[j]) in r
    {
      assert stripped[j] == Strip(ps[j]);
    }
  }

  /** `Strings` keeps the text parts in their order: it distributes over concatenation. */
  lemma {:induction false} StringsAppend(a: seq<Part>, b: seq<Part>)
    ensures Strings(a + b) == Strings(a) + Strings(b)
    decreases |a|
  {
    if a == [] {
      assert a + b == b;
    } else {
      assert (a + b)[1..] == a[1..] + b;
      StringsAppend(a[1..], b);
    }
  }

  /** `StrippedNonBlank` keeps the surviving parts in their order: it distributes over concatenation. */
  lemma StrippedNonBlankAppend(a: seq<string>, b: seq<string>)
    ensures StrippedNonBlank(a + b) == StrippedNonBlank(a) + StrippedNonBlank(b)
  {
    MappedAppend(Strip, a, b);
    NonBlankAppend(StripAll(a), StripAll(b));
  }

  /** Mapping distributes over concatenation. */
  lemma MappedAppend(f: string -> string, a: seq<string>, b: seq<string>)
    ensures Mapped(f, a + b) == Mapped(f, a) + Mapped(f, b)
  {
    var l, r := Mapped(f, a + b), Mapped(f, a) + Mapped(f, b);
    forall k | 0 <= k < |l|
      ensures l[k] == r[k]
    {
      if k < |a| {
        assert (a + b)[k] == a[k];
      } else {
        assert (a + b)[k] == b[k - |a|];
      }
    }
  }

  /** `NonBlank` keeps the non-empty strings in their order: it distributes over concatenation. */
  lemma {:induction false} NonBlankAppend(a: seq<string>, b: seq<string>)
    ensures NonBlank(a + b) == NonBlank(a) + NonBlank(b)
    decreases |a|
  {
    if a == [] {
      assert a + b == b;
    } else {
      assert (a + b)[1..] == a[1..] + b;
      NonBlankAppend(a[1..], b);
    }
  }

  /** The language shown for a code block: `unknown` becomes `python` or `code` by recipient. */
  function CodeLanguage(language: string, recipient: string): string {
    if language == "unknown" then (if recipient == "python" then "python" else "code") else language
  }

  /** `' '.join(s for s in args if isinstance(s, str))` */
  function SearchQuery(args: seq<Part>): string {
    Join(Strings(args), " ")
  }

  function QueryLine(query: string): string {
    if query == [] then [] else "\n\nSearch Query: " + query
  }

  /** The per-result paragraphs of web browsing results. */
  function WebResults(rs: seq<CiteResult>): string {
    if rs == [] then []
    else
      var r := rs[0];
      "\n\nType: " + r.kind + "\nURL: " + r.url + "\nTitle: " + r.title + "\nResult: " + r.text + WebResults(rs[1..])
  }

  /** The per-result paragraphs of file browsing results. */
  function FileResults(rs: seq<CiteResult>): string {
    if rs == [] then []
    else
      var r := rs[0];
      "\n\nType: " + r.kind + "\nName: " + r.name + "\nResult: " + r.text + FileResults(rs[1..])
  }

  /** The text a message contributes before the length filter; "" where the source returns ''. */
  function RawContent(m: ExportedMessage): string {
    var c := m.content;
    if c.contentType == "text" || c.contentType == "multimodal_text" then
      Join(StrippedNonBlank(Strings(c.parts)), " ")
    else if c.contentType == "code" then
      "Code Snippet: " + CodeLanguage(c.language, m.recipient) + "\n\n" + c.text
    else if c.contentType == "execution_output" then
      "Execution Output: " + c.text
    else if c.contentType == "tether_browsing_display" || c.contentType == "tether_quote" then
      if m.metadata.command == Some("context_stuff") then
        "Context Stuff\n\nTitle: " + c.domain + "\n\n" + c.text
      else if m.metadata.citeResults.Some? then
        var query := SearchQuery(m.metadata.args);
        if m.authorName == Some("browser") then
          "Web Browsing Results" + QueryLine(query) + WebResults(m.metadata.citeResults.value)
        else if m.authorName == Some("myfiles_browser") then
          "Files Browsing Results" + QueryLine(query) + FileResults(m.metadata.citeResults.value)
        else []
      else []
    else []
  }

  /** `get_content()`: the message's text, or "" when it is shorter than `threshold` characters. */
  function GetContent(m: ExportedMessage, threshold: nat): (r: string)
    ensures r == [] || (|r| >= threshold && r == RawContent(m))
    ensures |RawContent(m)| >= threshold ==> r == RawContent(m)
  {
    var text := RawContent(m);
    if text == [] || |text| < threshold then [] else text
  }

  /** The conversation title as indexed: `Chat <n>`, then ` - ` and the title with its whitespace collapsed. */
  function FormatTitle(idx: nat, raw: string): (t: string)
  {
    var body := Join(Words(raw), " ");
    var head := "Chat " + NatToString(idx + 1);
    if body == [] then head else head + " - " + body
  }

  /** The text of a message that is indexed, or None when the message is skipped. */
  function Kept(node: Option<ExportedMessage>, threshold: nat): (r: Option<string>)
    ensures r.Some? <==> (&& node.Some?
                          && node.value.role != "system"
                          && node.value.status == "finished_successfully"
                          && GetContent(node.value, threshold) != [])
    ensures r.Some? ==> r.value == GetContent(node.value, threshold)
    ensures r.Some? ==> (&& node.Some?
                         && node.value.role != "system"
                         && node.value.status == "finished_successfully"
                         && r.value != []
                         && |r.value| >= threshold)
    ensures (&& node.Some?
             && node.value.role != "system"
             && node.value.status == "finished_successfully"
             && GetContent(node.value, threshold) != []) ==> r == Some(GetContent(node.value, threshold))
  {
    if node.None? then None
    else
      var m := node.value;
      if m.role == "system" || m.status != "finished_successfully" then None
      else
        var text := GetContent(m, threshold);
        if text == [] then None else Some(text)
  }

  // ----- properties ---------------------------------------------------------------------

  lemma {:induction false} WordsOfStrippedNonBlank(ps: seq<string>)
    ensures WordsOfAll(StrippedNonBlank(ps)) == WordsOfAll(ps)
  {
    WordsOfNonBlank(StripAll(ps));
    WordsOfStripAll(ps);
  }

  /** Dropping empty strings loses no word. */
  lemma {:induction false} WordsOfNonBlank(xs: seq<string>)
    ensures WordsOfAll(NonBlank(xs)) == WordsOfAll(xs)
  {
    if xs != [] {
      WordsOfNonBlank(xs[1..]);
      var rest := NonBlank(xs[1..]);
      if xs[0] == [] {
        assert NonBlank(xs) == rest;
        assert Words(xs[0]) == [];
      } else {
        var r := [xs[0]] + rest;
        assert NonBlank(xs) == r;
        assert r[0] == xs[0] && r[1..] == rest;
      }
    }
  }

  /** Mapping a function that keeps the words of every string loses no word. */
  lemma {:induction false} WordsOfMapped(f: string -> string, ps: seq<string>)
    requires forall s :: Words(f(s)) == Words(s)
    ensures WordsOfAll(Mapped(f, ps)) == WordsOfAll(ps)
    decreases |ps|
  {
    if ps != [] {
      WordsOfMapped(f, ps[1..]);
      var m := Mapped(f, ps);
      assert m[0] == f(ps[0]) && m[1..] == Mapped(f, ps[1..]);
    }
  }

  /** Stripping every string loses no word. */
  lemma WordsOfStripAll(ps: seq<string>)
    ensures WordsOfAll(StripAll(ps)) == WordsOfAll(ps)
  {
    forall s
      ensures Words(Strip(s)) == Words(s)
    {
      StripKeepsWords(s);
    }
    WordsOfMapped(Strip, ps);
  }

  /**
   * A text message loses no word: the words of its extracted text are
   * exactly the words of its string parts, in order.
   */
  lemma TextKeepsWords(m: ExportedMessage)
    requires m.content.contentType == "text" || m.content.contentType == "multimodal_text"
    ensures Words(RawContent(m)) == WordsOfAll(Strings(m.content.parts))
  {
    var ps := Strings(m.content.parts);
    WordsOfSpaceJoin(StrippedNonBlank(ps));
    WordsOfStrippedNonBlank(ps);
  }

  /** System errors and content types the extractor does not know yield no text. */
  lemma UnknownTypeIsSkipped(m: ExportedMessage, threshold: nat)
    requires m.content.contentType !in
      {"text", "multimodal_text", "code", "execution_output", "tether_browsing_display", "tether_quote"}
    ensures Kept(Some(m), threshold) == None
  {
  }

  /** A code block of unknown language is labelled by where it was sent. */
  lemma UnknownCodeLanguage(m: ExportedMessage)
    requires m.content.contentType == "code" && m.content.language == "unknown"
    ensures RawContent(m) == "Code Snippet: " + (if m.recipient == "python" then "python" else "code")
                               + "\n\n" + m.content.text
  {
  }

  /** Title normalisation keeps the words of the raw title and collapses runs of whitespace. */
  lemma TitleKeepsWords(idx: nat, raw: string)
    ensures Words(raw) != [] ==> FormatTitle(idx, raw) == "Chat " + NatToString(idx + 1) + " - " + Join(Words(raw), " ")
    ensures Words(raw) == [] ==> FormatTitle(idx, raw) == "Chat " + NatToString(idx + 1)
    ensures Words(Join(Words(raw), " ")) == Words(raw)
  {
    WordsAreWords(raw);
    WordsOfJoin(Words(raw));
    if Words(raw) != [] {
      assert |Join(Words(raw), " ")| > 0 by {
        JoinNonEmpty(Words(raw));
      }
    }
  }

  lemma JoinNonEmpty(ws: seq<string>)
    requires ws != [] && IsWord(ws[0])
    ensures Join(ws, " ") != []
  {
  }
}
