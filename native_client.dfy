/**
 * The native client's requests (openai_client/client.py): every attempt first
 * charges the rate limiter for the context's tokens and one request, then
 * calls the endpoint; server errors (and, for embeddings, 429) are retried
 * while attempts remain. A completion that succeeds also charges its output
 * tokens. Embedding results are saved to the cache once, from the attempt
 * that ends the call.
 *
 * The endpoint is a script of replies, one per attempt; when it runs out
 * while the call would still retry, the call has not finished. The limiter is
 * observed through the log of charges made to it. Requests of a batch are
 * modelled one after the other, in pool order.
 */
module NativeClient {
  import opened Wrappers
  import opened Tokenizer
  import opened Calculator
  import GptClient

  /** The two engines, "chat" and "embedding". */
  datatype Kind = Chat | Embedding

  /** The engine an `engine` argument names, None for any other string. */
  function KindOf(engine: string): (k: Option<Kind>)
    ensures k == Some(Chat) <==> engine == "chat"
    ensures k == Some(Embedding) <==> engine == "embedding"
  {
    if engine == "embedding" then Some(Embedding)
    else if engine == "chat" then Some(Chat)
    else None
  }

  /** What the endpoint returns to one attempt: the status, the decoded output and the usage dict. */
  datatype Reply = Reply(status: int, output: string, usage: Option<map<string, int>>)

  /** The result dict of a finished call. A request that failed has neither output nor usage. */
  datatype CallResult = CallResult(identifier: string, output: Option<string>, usage: Option<UsageOutcome>, status: int)

  /** One `limit(model, tokens, requests)` call. */
  datatype Charge = Charge(kind: Kind, tokens: int, requests: nat)

  /** Whether an attempt that got `status` is retried with `attempts` left. */
  predicate Retries(kind: Kind, status: int, attempts: int) {
    attempts > 0 && status != 200 && (status >= 500 || (kind == Embedding && status == 429))
  }

  /**
   * The result of the attempt that ends a call. A chat completion's usage must
   * be a completion mapping: reading `output_tokens` from anything else raises.
   */
  function Finish(kind: Kind, model: ModelSpec, id: string, reply: Reply): (r: Result<CallResult>)
    ensures reply.status != 200 ==> r == Ok(CallResult(id, None, None, reply.status))
    ensures reply.status == 200 && kind == Embedding ==>
              r == Ok(CallResult(id, Some(reply.output), Some(CalcUsage(reply.usage, model)), 200))
    ensures reply.status == 200 && kind == Chat ==>
              (r.Ok? <==> CalcUsage(reply.usage, model).Parsed? && CalcUsage(reply.usage, model).usage.CompletionUsage?)
  {
    if reply.status != 200 then Ok(CallResult(id, None, None, reply.status))
    else
      var usage := CalcUsage(reply.usage, model);
      if kind == Embedding || (usage.Parsed? && usage.usage.CompletionUsage?) then
        Ok(CallResult(id, Some(reply.output), Some(usage), 200))
      else if usage.NoneValue? then Err(TypeError("'NoneType' object is not subscriptable"))
      else Err(KeyError("output_tokens"))
  }

  /** The charge a completion that succeeded makes for its output tokens, after the call. */
  function OutputCharge(kind: Kind, r: Result<CallResult>): seq<Charge> {
    if kind == Chat && r.Ok? && r.value.status == 200 && r.value.usage.Some?
       && r.value.usage.value.Parsed? && r.value.usage.value.usage.CompletionUsage?
    then [Charge(Chat, r.value.usage.value.usage.outputTokens, 0)]
    else []
  }

  /** The number of endpoint calls one request makes on `replies`. */
  function Calls(kind: Kind, replies: seq<Reply>, attempts: int): (n: nat)
    ensures n <= |replies|
    decreases |replies|
  {
    if replies == [] then 0
    else if Retries(kind, replies[0].status, attempts) then 1 + Calls(kind, replies[1..], attempts - 1)
    else 1
  }

  /** What the request ends with: None while it would still retry. */
  function Outcome(kind: Kind, model: ModelSpec, replies: seq<Reply>, attempts: int, id: string): Option<Result<CallResult>>
    decreases |replies|
  {
    if replies == [] then None
    else if Retries(kind, replies[0].status, attempts) then Outcome(kind, model, replies[1..], attempts - 1, id)
    else Some(Finish(kind, model, id, replies[0]))
  }

  /** The charges made to the limiter, attempt by attempt, then for the output. */
  function Charges(kind: Kind, model: ModelSpec, tokens: int, replies: seq<Reply>, attempts: int, id: string): seq<Charge>
    decreases |replies|
  {
    if replies == [] then [Charge(kind, tokens, 1)]
    else if Retries(kind, replies[0].status, attempts) then
      [Charge(kind, tokens, 1)] + Charges(kind, model, tokens, replies[1..], attempts - 1, id)
    else [Charge(kind, tokens, 1)] + OutputCharge(kind, Finish(kind, model, id, replies[0]))
  }

  /**
   * A queued `add_request` call: the coroutine `get_embedding` or
   * `get_completion` returned. `spent` once a `gather` has awaited it.
   */
  datatype Pending = Pending(kind: Kind, context: Context, identifier: string, attempts: int, backoff: real, spent: bool)

  /** What awaiting a coroutine a second time raises. */
  const Reused := RuntimeError("cannot reuse already awaited coroutine")

  /** The pool after a `gather` that raised: every coroutine in it has been awaited. */
  function Spend(entries: seq<Pending>): seq<Pending>
    decreases |entries|
  {
    if entries == [] then [] else [entries[0].(spent := true)] + Spend(entries[1..])
  }

  /** What `call_model` returns: the request's outcome, or `{}` for an unknown engine. */
  datatype Dispatch = Dispatched(outcome: Option<Result<CallResult>>) | InvalidEngine

  function ModelFor(kind: Kind, chatModel: ModelSpec, embeddingModel: ModelSpec): ModelSpec {
    if kind == Chat then chatModel else embeddingModel
  }

  /** The results a finished embedding request saves: itself. */
  function SavedBy(kind: Kind, outcome: Option<Result<CallResult>>): seq<CallResult> {
    if kind == Embedding && outcome.Some? && outcome.value.Ok? then [outcome.value.value] else []
  }

  class Native {
    const encode: Encoder
    const chatModel: ModelSpec
    const embeddingModel: ModelSpec
    /** Every `limit` call made, in order. */
    var charges: seq<Charge>
    /** Every `save_cache` call made, in order. */
    var saved: seq<CallResult>
    /** `_req_pool` */
    var pool: seq<Pending>

    constructor (encode: Encoder, chatModel: ModelSpec, embeddingModel: ModelSpec)
      ensures this.encode == encode && this.chatModel == chatModel && this.embeddingModel == embeddingModel
      ensures charges == [] && saved == [] && pool == []
    {
      this.encode := encode;
      this.chatModel := chatModel;
      this.embeddingModel := embeddingModel;
      charges := [];
      saved := [];
      pool := [];
    }

    function Model(kind: Kind): ModelSpec {
      ModelFor(kind, chatModel, embeddingModel)
    }

    /**
     * What a queued request ends with, on its script `replies` and fresh UUID
     * `freshId`; a spent coroutine raises at once.
     */
    function OutcomeOf(e: Pending, replies: seq<Reply>, freshId: string): Option<Result<CallResult>> {
      if e.spent then Some(Err(Reused))
      else Outcome(e.kind, Model(e.kind), replies, e.attempts, GptClient.IdFor(e.identifier, freshId))
    }

    /** The limiter charges of a queued request; a spent coroutine makes none. */
    function ChargesOf(e: Pending, replies: seq<Reply>, freshId: string): seq<Charge> {
      if e.spent then []
      else Charges(e.kind, Model(e.kind), TokenCount(encode, e.context), replies, e.attempts,
                   GptClient.IdFor(e.identifier, freshId))
    }

    /** The outcomes of a batch, one per queued request, in queue order. */
    function BatchOutcomes(entries: seq<Pending>, endpoint: nat -> seq<Reply>, uuids: nat -> string)
      : (os: seq<Option<Result<CallResult>>>)
      ensures |os| == |entries|
      ensures forall k :: 0 <= k < |os| ==> os[k] == OutcomeOf(entries[k], endpoint(k), uuids(k))
      decreases |entries|
    {
      if entries == [] then []
      else
        var n := |entries| - 1;
        BatchOutcomes(entries[..n], endpoint, uuids) + [OutcomeOf(entries[n], endpoint(n), uuids(n))]
    }

    /** The limiter charges of a batch: each request's charges, in queue order. */
    function BatchCharges(entries: seq<Pending>, endpoint: nat -> seq<Reply>, uuids: nat -> string): seq<Charge>
      decreases |entries|
    {
      if entries == [] then []
      else
        var n := |entries| - 1;
        BatchCharges(entries[..n], endpoint, uuids) + ChargesOf(entries[n], endpoint(n), uuids(n))
    }

    /** The cache saves of a batch: each finished embedding request's result, in queue order. */
    function BatchSaved(entries: seq<Pending>, endpoint: nat -> seq<Reply>, uuids: nat -> string): seq<CallResult>
      decreases |entries|
    {
      if entries == [] then []
      else
        var n := |entries| - 1;
        BatchSaved(entries[..n], endpoint, uuids) + SavedBy(entries[n].kind, OutcomeOf(entries[n], endpoint(n), uuids(n)))
    }

    /**
     * `get_embedding` (kind Embedding) and `get_completion` (kind Chat): the
     * retrying request, with `backoff` doubled before every retry. The UUID an
     * empty identifier is replaced by is `freshId`.
     */
    method Request(kind: Kind, context: Context, identifier: string, attempts: int, backoff: real,
                   replies: seq<Reply>, freshId: string)
      returns (outcome: Option<Result<CallResult>>)
      modifies this
      decreases |replies|
      ensures outcome == Outcome(kind, Model(kind), replies, attempts, GptClient.IdFor(identifier, freshId))
      ensures charges == old(charges) + Charges(kind, Model(kind), TokenCount(encode, context), replies, attempts,
                                                  GptClient.IdFor(identifier, freshId))
      ensures saved == old(saved) + SavedBy(kind, outcome)
      ensures pool == old(pool)
    {
      var id := GptClient.IdFor(identifier, freshId);
      var inputTokens := CountTokens(encode, context);
      charges := charges + [Charge(kind, inputTokens, 1)];
      if replies == [] {
        return None;
      }
      var reply := replies[0];
      if reply.status == 200 {
        var usage := CalcUsage(reply.usage, Model(kind));
        if kind == Chat {
          if usage.NoneValue? {
            return Some(Err(TypeError("'NoneType' object is not subscriptable")));
          }
          if !(usage.Parsed? && usage.usage.CompletionUsage?) {
            return Some(Err(KeyError("output_tokens")));
          }
          charges := charges + [Charge(Chat, usage.usage.outputTokens, 0)];
          return Some(Ok(CallResult(id, Some(reply.output), Some(usage), 200)));
        }
        var result := CallResult(id, Some(reply.output), Some(usage), 200);
        saved := saved + [result];
        return Some(Ok(result));
      } else if (500 <= reply.status || (kind == Embedding && reply.status == 429)) && attempts > 0 {
        outcome := Request(kind, context, id, attempts - 1, backoff * 2.0, replies[1..], freshId);
        assert GptClient.IdFor(id, freshId) == id;
        return;
      }
      var result := CallResult(id, None, None, reply.status);
      if kind == Embedding {
        saved := saved + [result];
      }
      return Some(Ok(result));
    }

    /** `add_request`: queue a request; an unknown engine raises ValueError and queues nothing. */
    method AddRequest(context: Context, identifier: string, engine: string, attempts: int, backoff: real)
      returns (r: Result<Kind>)
      modifies this
      ensures r.Err? <==> KindOf(engine).None?
      ensures r.Err? ==> r.error == ValueError("Invalid engine type: " + engine) && pool == old(pool)
      ensures r.Ok? ==> r.value == KindOf(engine).value
                        && pool == old(pool) + [Pending(r.value, context, identifier, attempts, backoff, false)]
      ensures charges == old(charges) && saved == old(saved)
    {
      var kind := KindOf(engine);
      if kind.None? {
        return Err(ValueError("Invalid engine type: " + engine));
      }
      pool := pool + [Pending(kind.value, context, identifier, attempts, backoff, false)];
      return Ok(kind.value);
    }

    /** `call_model`: one request by engine name; an unknown engine gives `{}` without calling anything. */
    method CallModel(context: Context, identifier: string, engine: string, attempts: int, backoff: real,
                     replies: seq<Reply>, freshId: string)
      returns (d: Dispatch)
      modifies this
      ensures KindOf(engine).None? ==> d == InvalidEngine && charges == old(charges) && saved == old(saved)
      ensures KindOf(engine).Some? ==>
                var kind := KindOf(engine).value;
                && d == Dispatched(Outcome(kind, Model(kind), replies, attempts, GptClient.IdFor(identifier, freshId)))
                && charges == old(charges) + Charges(kind, Model(kind), TokenCount(encode, context), replies, attempts,
                                                       GptClient.IdFor(identifier, freshId))
                && saved == old(saved) + SavedBy(kind, d.outcome)
      ensures pool == old(pool)
    {
      var kind := KindOf(engine);
      if kind.None? {
        return InvalidEngine;
      }
      var outcome := Request(kind.value, context, identifier, attempts, backoff, replies, freshId);
      return Dispatched(outcome);
    }

    /** The requests of a batch, made one after the other in queue order. */
    method RunBatch(entries: seq<Pending>, endpoint: nat -> seq<Reply>, uuids: nat -> string)
      returns (outcomes: seq<Option<Result<CallResult>>>)
      modifies this
      ensures outcomes == BatchOutcomes(entries, endpoint, uuids)
      ensures charges == old(charges) + BatchCharges(entries, endpoint, uuids)
      ensures saved == old(saved) + BatchSaved(entries, endpoint, uuids)
      ensures pool == old(pool)
    {
      outcomes := [];
      var i := 0;
      while i < |entries|
        invariant 0 <= i <= |entries| && pool == old(pool)
        invariant outcomes == BatchOutcomes(entries[..i], endpoint, uuids)
        invariant charges == old(charges) + BatchCharges(entries[..i], endpoint, uuids)
        invariant saved == old(saved) + BatchSaved(entries[..i], endpoint, uuids)
      {
        var e := entries[i];
        BatchStep(this, entries, i, endpoint, uuids);
        var o;
        if e.spent {
          o := Some(Err(Reused));
        } else {
          o := Request(e.kind, e.context, e.identifier, e.attempts, e.backoff, endpoint(i), uuids(i));
        }
        ConcatAssoc(old(charges), BatchCharges(entries[..i], endpoint, uuids), ChargesOf(e, endpoint(i), uuids(i)));
        ConcatAssoc(old(saved), BatchSaved(entries[..i], endpoint, uuids), SavedBy(e.kind, o));
        outcomes := outcomes + [o];
        i := i + 1;
      }
      assert entries[..i] == entries;
    }

    /**
     * `trigger_requests`: one outcome per queued request, in queue order. The
     * pool is emptied unless a request raised, which `gather` passes on; the
     * coroutines then left in the pool have all been awaited.
     */
    method TriggerRequests(endpoint: nat -> seq<Reply>, uuids: nat -> string)
      returns (outcomes: seq<Option<Result<CallResult>>>)
      modifies this
      ensures |outcomes| == |old(pool)|
      ensures forall i :: 0 <= i < |outcomes| ==> outcomes[i] == OutcomeOf(old(pool)[i], endpoint(i), uuids(i))
      ensures charges == old(charges) + BatchCharges(old(pool), endpoint, uuids)
      ensures saved == old(saved) + BatchSaved(old(pool), endpoint, uuids)
      ensures pool == if Raised(outcomes) then Spend(old(pool)) else []
    {
      outcomes := RunBatch(pool, endpoint, uuids);
      if Raised(outcomes) {
        pool := Spend(pool);
      } else {
        pool := [];
      }
    }
  }

  lemma ConcatAssoc<T>(a: seq<T>, b: seq<T>, c: seq<T>)
    ensures (a + b) + c == a + (b + c)
  {
  }

  /** Some request of a batch raised. */
  predicate Raised(outcomes: seq<Option<Result<CallResult>>>) {
    exists i :: 0 <= i < |outcomes| && outcomes[i].Some? && outcomes[i].value.Err?
  }

  // ----- properties of the retry policy --------------------------------------------

  /** A request makes at most `attempts + 1` endpoint calls (one when `attempts <= 0`). */
  lemma {:induction false} CallsBound(kind: Kind, replies: seq<Reply>, attempts: int)
    ensures Calls(kind, replies, attempts) <= (if attempts > 0 then attempts else 0) + 1
    decreases |replies|
  {
    if replies != [] && Retries(kind, replies[0].status, attempts) {
      CallsBound(kind, replies[1..], attempts - 1);
    }
  }

  /**
   * Every endpoint call is preceded by a charge of the context's tokens and one
   * request, and these are the first charges made. A request still waiting
   * for its reply has charged for that attempt too; a finished one adds only
   * the output charge of a completion that succeeded.
   */
  lemma {:induction false} EveryAttemptCharged(kind: Kind, model: ModelSpec, tokens: int, replies: seq<Reply>, attempts: int, id: string)
    ensures var cs := Charges(kind, model, tokens, replies, attempts, id);
            var n := Calls(kind, replies, attempts);
            var o := Outcome(kind, model, replies, attempts, id);
            && (o.None? ==> |cs| == n + 1 && forall k :: 0 <= k < |cs| ==> cs[k] == Charge(kind, tokens, 1))
            && (o.Some? ==> (&& |cs| >= n
                             && (forall k :: 0 <= k < n ==> cs[k] == Charge(kind, tokens, 1))
                             && cs[n..] == OutputCharge(kind, o.value)))
    decreases |replies|
  {
    if replies != [] && Retries(kind, replies[0].status, attempts) {
      EveryAttemptCharged(kind, model, tokens, replies[1..], attempts - 1, id);
      var cs := Charges(kind, model, tokens, replies, attempts, id);
      var rest := Charges(kind, model, tokens, replies[1..], attempts - 1, id);
      assert cs == [Charge(kind, tokens, 1)] + rest;
      forall k | 1 <= k < |cs| ensures cs[k] == rest[k - 1] { }
      var n := Calls(kind, replies, attempts);
      if Outcome(kind, model, replies, attempts, id).Some? {
        assert cs[n..] == rest[n - 1..];
      }
    }
  }

  /** One more request of a batch appends its own charges and saves. */
  lemma BatchStep(client: Native, entries: seq<Pending>, i: nat, endpoint: nat -> seq<Reply>, uuids: nat -> string)
    requires i < |entries|
    ensures client.BatchCharges(entries[..i + 1], endpoint, uuids)
              == client.BatchCharges(entries[..i], endpoint, uuids) + client.ChargesOf(entries[i], endpoint(i), uuids(i))
    ensures client.BatchOutcomes(entries[..i + 1], endpoint, uuids)
              == client.BatchOutcomes(entries[..i], endpoint, uuids) + [client.OutcomeOf(entries[i], endpoint(i), uuids(i))]
    ensures client.BatchSaved(entries[..i + 1], endpoint, uuids)
              == client.BatchSaved(entries[..i], endpoint, uuids)
                 + SavedBy(entries[i].kind, client.OutcomeOf(entries[i], endpoint(i), uuids(i)))
  {
    assert entries[..i + 1][..i] == entries[..i];
  }

  /**
   * A batch of fresh requests charges the limiter at least once per request. Any
   * batch saves at most one result per request, and nothing when only
   * completions are queued.
   */
  lemma {:induction false} BatchBounds(client: Native, entries: seq<Pending>, endpoint: nat -> seq<Reply>, uuids: nat -> string)
    ensures (forall k :: 0 <= k < |entries| ==> !entries[k].spent) ==> |client.BatchCharges(entries, endpoint, uuids)| >= |entries|
    ensures |client.BatchSaved(entries, endpoint, uuids)| <= |entries|
    ensures (forall k :: 0 <= k < |entries| ==> entries[k].kind == Chat) ==> client.BatchSaved(entries, endpoint, uuids) == []
    decreases |entries|
  {
    if entries != [] {
      var n := |entries| - 1;
      BatchBounds(client, entries[..n], endpoint, uuids);
      var e := entries[n];
      var replies := endpoint(n);
      var id := GptClient.IdFor(e.identifier, uuids(n));
      var tokens := TokenCount(client.encode, e.context);
      assert Charges(e.kind, client.Model(e.kind), tokens, replies, e.attempts, id)[0] == Charge(e.kind, tokens, 1);
    }
  }

  /**
   * Triggering a pool left by a batch that raised runs nothing: every request
   * raises RuntimeError, nothing is charged and nothing is saved.
   */
  lemma {:induction false} RetriggerRaises(client: Native, entries: seq<Pending>, endpoint: nat -> seq<Reply>, uuids: nat -> string)
    ensures var os := client.BatchOutcomes(Spend(entries), endpoint, uuids);
            && |os| == |entries|
            && (forall k :: 0 <= k < |os| ==> os[k] == Some(Err(Reused)))
            && (entries != [] ==> Raised(os))
    ensures client.BatchCharges(Spend(entries), endpoint, uuids) == []
    ensures client.BatchSaved(Spend(entries), endpoint, uuids) == []
    decreases |entries|
  {
    SpendAll(entries);
    SpentBatchIsIdle(client, Spend(entries), endpoint, uuids);
    var os := client.BatchOutcomes(Spend(entries), endpoint, uuids);
    if entries != [] {
      assert os[0].Some? && os[0].value.Err?;
    }
  }

  /** `Spend` marks every entry spent and changes nothing else. */
  lemma {:induction false} SpendAll(entries: seq<Pending>)
    ensures |Spend(entries)| == |entries|
    ensures forall k :: 0 <= k < |entries| ==> Spend(entries)[k] == entries[k].(spent := true)
    decreases |entries|
  {
    if entries != [] {
      SpendAll(entries[1..]);
    }
  }

  /** A batch of spent coroutines charges and saves nothing. */
  lemma {:induction false} SpentBatchIsIdle(client: Native, entries: seq<Pending>, endpoint: nat -> seq<Reply>, uuids: nat -> string)
    requires forall k :: 0 <= k < |entries| ==> entries[k].spent
    ensures client.BatchCharges(entries, endpoint, uuids) == []
    ensures client.BatchSaved(entries, endpoint, uuids) == []
    decreases |entries|
  {
    if entries != [] {
      SpentBatchIsIdle(client, entries[..|entries| - 1], endpoint, uuids);
    }
  }

  /** A 429 is retried for an embedding with attempts left, never for a completion. */
  lemma TooManyRequests(model: ModelSpec, replies: seq<Reply>, attempts: int, id: string)
    requires |replies| >= 2 && replies[0].status == 429 && attempts > 0
    ensures Calls(Embedding, replies, attempts) >= 2
    ensures Calls(Chat, replies, attempts) == 1
    ensures Outcome(Chat, model, replies, attempts, id) == Some(Ok(CallResult(id, None, None, 429)))
  {
  }

  /** A request that ends on a status other than 200 has neither output nor usage, and records the status. */
  lemma {:induction false} FailedRequestHasNoOutput(kind: Kind, model: ModelSpec, replies: seq<Reply>, attempts: int, id: string)
    requires Outcome(kind, model, replies, attempts, id).Some?
    ensures var r := Outcome(kind, model, replies, attempts, id).value;
            r.Ok? && r.value.status != 200 ==> r.value.output.None? && r.value.usage.None? && r.value.identifier == id
    ensures var r := Outcome(kind, model, replies, attempts, id).value;
            r.Ok? ==> r.value.status == replies[Calls(kind, replies, attempts) - 1].status
    decreases |replies|
  {
    if Retries(kind, replies[0].status, attempts) {
      FailedRequestHasNoOutput(kind, model, replies[1..], attempts - 1, id);
      assert replies[1..][Calls(kind, replies[1..], attempts - 1) - 1] == replies[Calls(kind, replies, attempts) - 1];
    }
  }
}
