/**
 * Usage accounting of the native client (openai_client/calculator.py).
 *
 * `TokenCalculator.count_tokens` is the same per-message accounting as the
 * `gpt` package's `Tokenizer.count_tokens` and is modelled once, by
 * `Tokenizer.CountTokens`. `calc_usage` differs from the Tokenizer's parsers:
 * it picks the parser from the model's name and turns every failure into `{}`.
 */
module Calculator {
  import opened Wrappers
  import opened Text
  import opened Tokenizer

  /** The parts of a model table entry `calc_usage` reads: its name and its prices. */
  datatype ModelSpec = ModelSpec(name: string, cost: map<string, real>)

  /**
   * What `calc_usage` returns: a usage mapping, the empty dict `{}` (falsy usage
   * or a caught exception), or None (a name mentioning neither "gpt" nor "embedding").
   */
  datatype UsageOutcome = Parsed(usage: Usage) | EmptyDict | NoneValue

  /** A usage value is falsy when it is None or an empty dict. */
  predicate Falsy(usage: Option<map<string, int>>) {
    usage.None? || |usage.value| == 0
  }

  /** `calc_usage(usage, model)` */
  function CalcUsage(usage: Option<map<string, int>>, model: ModelSpec): (r: UsageOutcome)
    ensures Falsy(usage) ==> r == EmptyDict
    ensures r == NoneValue <==> !Falsy(usage) && !Contains(model.name, "gpt") && !Contains(model.name, "embedding")
    ensures r.Parsed? && r.usage.CompletionUsage? <==> (
              && !Falsy(usage) && Contains(model.name, "gpt")
              && "prompt_tokens" in usage.value && "completion_tokens" in usage.value && "total_tokens" in usage.value
              && "input" in model.cost && "output" in model.cost)
    ensures r.Parsed? && r.usage.CompletionUsage? ==> (
              && r.usage.inputCost == Cost(usage.value["prompt_tokens"], model.cost["input"])
              && r.usage.outputCost == Cost(usage.value["completion_tokens"], model.cost["output"])
              && r.usage.inputTokens == usage.value["prompt_tokens"]
              && r.usage.outputTokens == usage.value["completion_tokens"]
              && r.usage.totalTokens == usage.value["total_tokens"]
              && r.usage.totalCost == r.usage.inputCost + r.usage.outputCost)
    ensures r.Parsed? && r.usage.EmbeddingUsage? <==> (
              && !Falsy(usage) && !Contains(model.name, "gpt") && Contains(model.name, "embedding")
              && "prompt_tokens" in usage.value && "input" in model.cost)
    ensures r.Parsed? && r.usage.EmbeddingUsage? ==> (
              && r.usage.inputTokens == usage.value["prompt_tokens"]
              && r.usage.inputCost == Cost(usage.value["prompt_tokens"], model.cost["input"]))
  {
    if Falsy(usage) then EmptyDict
    else
      var u := usage.value;
      if Contains(model.name, "gpt") then
        if "prompt_tokens" !in u || "completion_tokens" !in u || "total_tokens" !in u
           || "input" !in model.cost || "output" !in model.cost
        then EmptyDict
        else
          var inCost := Cost(u["prompt_tokens"], model.cost["input"]);
          var outCost := Cost(u["completion_tokens"], model.cost["output"]);
          Parsed(CompletionUsage(u["prompt_tokens"], u["completion_tokens"], u["total_tokens"],
                                 inCost, outCost, inCost + outCost))
      else if Contains(model.name, "embedding") then
        if "prompt_tokens" !in u || "input" !in model.cost then EmptyDict
        else Parsed(EmbeddingUsage(u["prompt_tokens"], Cost(u["prompt_tokens"], model.cost["input"])))
      else NoneValue
  }

  // ----- agreement with the Tokenizer's parsers ----------------------------------

  /**
   * For a chat model with prices, `calc_usage` and the Tokenizer's
   * `_parse_completions_usage` agree: both succeed on the same usage dicts and
   * produce the same mapping; where the parser raises, `calc_usage` gives `{}`.
   */
  lemma CompletionAgreesWithTokenizer(usage: map<string, int>, model: ModelSpec)
    requires |usage| > 0 && |model.cost| > 0 && Contains(model.name, "gpt")
    ensures ParseCompletionsUsage(model.cost, usage).Ok? ==>
              CalcUsage(Some(usage), model) == Parsed(ParseCompletionsUsage(model.cost, usage).value)
    ensures ParseCompletionsUsage(model.cost, usage).Err? ==> CalcUsage(Some(usage), model) == EmptyDict
  {
  }

  /**
   * For an embedding model with prices, `calc_usage` and the Tokenizer's
   * `_parse_embeddings_usage` agree in the same way.
   */
  lemma EmbeddingAgreesWithTokenizer(usage: map<string, int>, model: ModelSpec)
    requires |usage| > 0 && |model.cost| > 0 && !Contains(model.name, "gpt") && Contains(model.name, "embedding")
    ensures ParseEmbeddingsUsage(model.cost, usage).Ok? ==>
              CalcUsage(Some(usage), model) == Parsed(ParseEmbeddingsUsage(model.cost, usage).value)
    ensures ParseEmbeddingsUsage(model.cost, usage).Err? ==> CalcUsage(Some(usage), model) == EmptyDict
  {
  }
}
