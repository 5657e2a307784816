/**
 * Length and usage accounting of the `gpt` package's Tokenizer (gpt/tokenizer.py).
 *
 * The byte-pair encoder itself (tiktoken, cl100k_base) is not modelled: it is an
 * `Encoder`, a function from text to token ids that yields None where encoding
 * raises. Dollar costs are reals.
 */
module Tokenizer {
  import opened Wrappers

  type Token = nat

  /** tiktoken's `encode`; None where it raises. */
  type Encoder = string -> Option<seq<Token>>

  /** tiktoken's `decode`; None where it raises. */
  type Decoder = seq<Token> -> Option<string>

  /** A value of a chat message field: a string, or anything else (which the encoder rejects). */
  datatype Value = Str(s: string) | NonStr

  /** One element of a message list: a dict (its items, in order) or something without `.items()`. */
  datatype Message = Dict(items: seq<(string, Value)>) | NotDict

  /** What `count_tokens` may be handed: a string, a list of messages, or anything else (by its `str()`). */
  datatype Context = Text(text: string) | Messages(messages: seq<Message>) | Other(repr: string)

  const PerMessage: nat := 4
  const ReplyPriming: nat := 3

  /** The encoded length of `s`, None where encoding raises. */
  function EncodedLength(encode: Encoder, s: string): Option<nat> {
    match encode(s)
    case Some(ts) => Some(|ts|)
    case None => None
  }

  /** The summed encoded length of the values of a message's fields, None on any failure. */
  function FieldsTokens(encode: Encoder, items: seq<(string, Value)>): Option<nat>
    decreases |items|
  {
    if items == [] then Some(0)
    else
      match FieldsTokens(encode, items[..|items| - 1])
      case None => None
      case Some(k) =>
        match items[|items| - 1].1
        case NonStr => None
        case Str(s) =>
          match EncodedLength(encode, s)
          case None => None
          case Some(m) => Some(k + m)
  }

  /** The per-message accounting of a message list without the final 3, None on any failure. */
  function ListTokens(encode: Encoder, messages: seq<Message>): Option<nat>
    decreases |messages|
  {
    if messages == [] then Some(0)
    else
      match ListTokens(encode, messages[..|messages| - 1])
      case None => None
      case Some(k) =>
        match messages[|messages| - 1]
        case NotDict => None
        case Dict(items) =>
          match FieldsTokens(encode, items)
          case None => None
          case Some(m) => Some(k + PerMessage + m)
  }

  /** `count_tokens` as a value: any exception yields 0. */
  function TokenCount(encode: Encoder, context: Context): nat {
    match context
    case Text(s) => EncodedLength(encode, s).GetOr(0)
    case Other(repr) => EncodedLength(encode, repr).GetOr(0)
    case Messages(ms) =>
      match ListTokens(encode, ms)
      case None => 0
      case Some(k) => k + ReplyPriming
  }

  /** `Tokenizer.count_tokens`: the accumulating loops of the source. */
  method CountTokens(encode: Encoder, context: Context) returns (count: nat)
    ensures count == TokenCount(encode, context)
  {
    match context {
      case Text(s) =>
        var ts := encode(s);
        count := if ts.Some? then |ts.value| else 0;
      case Other(repr) =>
        var ts := encode(repr);
        count := if ts.Some? then |ts.value| else 0;
      case Messages(ms) =>
        var num: nat := 0;
        var i := 0;
        while i < |ms|
          invariant 0 <= i <= |ms|
          invariant ListTokens(encode, ms[..i]) == Some(num)
        {
          assert ms[..i + 1][..i] == ms[..i];
          match ms[i] {
            case NotDict =>
              FailureSticks(encode, ms, i + 1);
              return 0;
            case Dict(items) =>
              num := num + PerMessage;
              var j := 0;
              while j < |items|
                invariant 0 <= j <= |items|
                invariant FieldsTokens(encode, items[..j]).Some?
                invariant num == ListTokens(encode, ms[..i]).value + PerMessage + FieldsTokens(encode, items[..j]).value
              {
                assert items[..j + 1][..j] == items[..j];
                match items[j].1 {
                  case NonStr =>
                    assert FieldsTokens(encode, items[..j + 1]).None?;
                    FieldsFailureSticks(encode, items, j + 1);
                    FailureSticks(encode, ms, i + 1);
                    return 0;
                  case Str(s) =>
                    var ts := encode(s);
                    if ts.None? {
                      assert FieldsTokens(encode, items[..j + 1]).None?;
                      FieldsFailureSticks(encode, items, j + 1);
                      FailureSticks(encode, ms, i + 1);
                      return 0;
                    }
                    num := num + |ts.value|;
                }
                j := j + 1;
              }
              assert items[..j] == items;
          }
          i := i + 1;
        }
        assert ms[..i] == ms;
        count := num + ReplyPriming;
    }
  }

  lemma {:induction false} FieldsFailureSticks(encode: Encoder, items: seq<(string, Value)>, j: nat)
    requires j <= |items|
    requires FieldsTokens(encode, items[..j]).None?
    ensures FieldsTokens(encode, items).None?
    decreases |items| - j
  {
    if j < |items| {
      assert items[..j + 1][..j] == items[..j];
      FieldsFailureSticks(encode, items, j + 1);
    } else {
      assert items[..j] == items;
    }
  }

  lemma {:induction false} FailureSticks(encode: Encoder, ms: seq<Message>, i: nat)
    requires 0 < i <= |ms|
    requires ms[i - 1].NotDict? || FieldsTokens(encode, ms[i - 1].items).None? || ListTokens(encode, ms[..i - 1]).None?
    ensures ListTokens(encode, ms).None?
  {
    assert ms[..i][..i - 1] == ms[..i - 1];
    PrefixFailureSticks(encode, ms, i);
  }

  lemma {:induction false} PrefixFailureSticks(encode: Encoder, ms: seq<Message>, i: nat)
    requires i <= |ms|
    requires ListTokens(encode, ms[..i]).None?
    ensures ListTokens(encode, ms).None?
    decreases |ms| - i
  {
    if i < |ms| {
      assert ms[..i + 1][..i] == ms[..i];
      PrefixFailureSticks(encode, ms, i + 1);
    } else {
      assert ms[..i] == ms;
    }
  }

  // ----- properties of the accounting ------------------------------------------

  /** An empty message list costs exactly the 3 reply-priming tokens. */
  lemma EmptyListCountsThree(encode: Encoder)
    ensures TokenCount(encode, Messages([])) == 3
  {
  }

  /**
   * Appending one all-string message adds exactly 4 plus the encoded lengths of
   * its field values; appending one with a non-string value makes the whole count 0.
   */
  lemma AppendMessage(encode: Encoder, ms: seq<Message>, items: seq<(string, Value)>)
    requires ListTokens(encode, ms).Some?
    ensures FieldsTokens(encode, items).Some? ==>
      TokenCount(encode, Messages(ms + [Dict(items)]))
        == TokenCount(encode, Messages(ms)) + 4 + FieldsTokens(encode, items).value
    ensures FieldsTokens(encode, items).None? ==> TokenCount(encode, Messages(ms + [Dict(items)])) == 0
  {
    assert (ms + [Dict(items)])[..|ms|] == ms;
  }

  /** A string field counts its encoded length; a field that is not a string fails the message. */
  lemma {:induction false} NonStringFieldFails(encode: Encoder, items: seq<(string, Value)>, j: nat)
    requires j < |items| && items[j].1 == NonStr
    ensures FieldsTokens(encode, items).None?
  {
    if FieldsTokens(encode, items[..j]).Some? {
      assert items[..j + 1][..j] == items[..j];
      assert FieldsTokens(encode, items[..j + 1]).None?;
    } else {
      assert items[..j + 1][..j] == items[..j];
    }
    FieldsFailureSticks(encode, items, j + 1);
  }

  /** The count of a successfully counted list is at least the fixed overhead 4*|ms| + 3. */
  lemma {:induction false} ListCountLowerBound(encode: Encoder, ms: seq<Message>)
    requires ListTokens(encode, ms).Some?
    ensures ListTokens(encode, ms).value >= PerMessage * |ms|
    decreases |ms|
  {
    if ms != [] {
      ListCountLowerBound(encode, ms[..|ms| - 1]);
    }
  }

  // ----- usage parsing ------------------------------------------------------------

  /** The structured usage accounting the clients attach to a result. */
  datatype Usage =
    | CompletionUsage(inputTokens: int, outputTokens: int, totalTokens: int,
                      inputCost: real, outputCost: real, totalCost: real)
    | EmbeddingUsage(inputTokens: int, inputCost: real)

  /** The model categories the Tokenizer knows how to parse usage for. */
  datatype Category = Completions | Embeddings

  /** The parts of a model's specification the Tokenizer reads. */
  datatype TokenizerSpecs = TokenizerSpecs(usageCosts: map<string, real>, category: string)

  /**
   * The category dispatch of `Tokenizer.__init__`: no specs means no parser;
   * a category other than "completions" or "embeddings" raises ValueError.
   */
  function ParserFor(specs: Option<TokenizerSpecs>): (r: Result<Option<Category>>)
    ensures specs.None? ==> r == Ok(None)
    ensures specs.Some? && specs.value.category == "completions" ==> r == Ok(Some(Completions))
    ensures specs.Some? && specs.value.category == "embeddings" ==> r == Ok(Some(Embeddings))
    ensures r.Err? <==> specs.Some? && specs.value.category != "completions" && specs.value.category != "embeddings"
  {
    match specs
    case None => Ok(None)
    case Some(sp) =>
      if sp.category == "completions" then Ok(Some(Completions))
      else if sp.category == "embeddings" then Ok(Some(Embeddings))
      else Err(ValueError("Invalid model type."))
  }

  /** `usage[key] / 1000 * cost`, the per-1000-token price of a token count. */
  function Cost(tokens: int, price: real): real {
    tokens as real / 1000.0 * price
  }

  /**
   * `_parse_completions_usage`: copies the three token counts and prices the
   * prompt and completion tokens, total cost being their sum. Empty costs raise
   * ValueError; a missing usage or cost key raises KeyError.
   */
  function ParseCompletionsUsage(costs: map<string, real>, usage: map<string, int>): (r: Result<Usage>)
    ensures r.Ok? <==> (|costs| > 0 && "prompt_tokens" in usage && "completion_tokens" in usage
                        && "total_tokens" in usage && "input" in costs && "output" in costs)
    ensures |costs| == 0 ==> r.Err? && r.error.ValueError?
    ensures r.Ok? ==> (
              && r.value.CompletionUsage?
              && r.value.inputTokens == usage["prompt_tokens"]
              && r.value.outputTokens == usage["completion_tokens"]
              && r.value.totalTokens == usage["total_tokens"]
              && r.value.inputCost == Cost(usage["prompt_tokens"], costs["input"])
              && r.value.outputCost == Cost(usage["completion_tokens"], costs["output"])
              && r.value.totalCost == r.value.inputCost + r.value.outputCost)
  {
    if |costs| == 0 then Err(ValueError("Usage costs not defined for the model."))
    else if "prompt_tokens" !in usage then Err(KeyError("prompt_tokens"))
    else if "completion_tokens" !in usage then Err(KeyError("completion_tokens"))
    else if "total_tokens" !in usage then Err(KeyError("total_tokens"))
    else if "input" !in costs then Err(KeyError("input"))
    else if "output" !in costs then Err(KeyError("output"))
    else
      var inCost := Cost(usage["prompt_tokens"], costs["input"]);
      var outCost := Cost(usage["completion_tokens"], costs["output"]);
      Ok(CompletionUsage(usage["prompt_tokens"], usage["completion_tokens"], usage["total_tokens"],
                         inCost, outCost, inCost + outCost))
  }

  /**
   * `_parse_embeddings_usage`: input tokens are the prompt tokens. Empty costs
   * raise ValueError; a missing prompt count fails the division (TypeError); a
   * missing input price raises KeyError.
   */
  function ParseEmbeddingsUsage(costs: map<string, real>, usage: map<string, int>): (r: Result<Usage>)
    ensures r.Ok? <==> |costs| > 0 && "prompt_tokens" in usage && "input" in costs
    ensures |costs| == 0 ==> r.Err? && r.error.ValueError?
    ensures r.Ok? ==> r.value == EmbeddingUsage(usage["prompt_tokens"], Cost(usage["prompt_tokens"], costs["input"]))
  {
    if |costs| == 0 then Err(ValueError("Usage costs not defined for the model."))
    else if "prompt_tokens" !in usage then Err(TypeError("unsupported operand type(s) for /: 'NoneType' and 'int'"))
    else if "input" !in costs then Err(KeyError("input"))
    else Ok(EmbeddingUsage(usage["prompt_tokens"], Cost(usage["prompt_tokens"], costs["input"])))
  }

  /** `parse_usage` as bound in `__init__` for the given category. */
  function ParseUsage(category: Category, costs: map<string, real>, usage: map<string, int>): Result<Usage> {
    match category
    case Completions => ParseCompletionsUsage(costs, usage)
    case Embeddings => ParseEmbeddingsUsage(costs, usage)
  }
}
