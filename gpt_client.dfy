/**
 * The `gpt` package's request dispatcher (gpt/client.py): model routing, the
 * `get_response` retry recursion with its per-attempt backlog, and the request
 * pool for batch processing.
 *
 * The HTTP endpoint is a script: the replies it gives to successive attempts
 * of one call. When the script runs out while the call would still retry,
 * the call has not finished. Timestamps, sleeping and UUID generation are not
 * modelled; a fresh UUID is an input.
 */
module GptClient {
  import opened Wrappers

  /** `OpenAICompletions` or `OpenAIEmbeddings`, by their `model_type`. */
  datatype ModelType = Completions | Embeddings

  const CompletionModels: seq<string> := ["gpt-3.5-turbo", "gpt-4-turbo", "gpt-4o"]
  const EmbeddingModels: seq<string> := ["text-embedding-3-large", "text-embedding-3-small"]

  /** `OpenAI.__init__`: completion names are tried first, then embedding names. */
  function Route(modelName: string): (r: Result<ModelType>)
    ensures r == Ok(Completions) <==> modelName in CompletionModels
    ensures r == Ok(Embeddings) <==> modelName !in CompletionModels && modelName in EmbeddingModels
    ensures r.Err? <==> modelName !in CompletionModels + EmbeddingModels
    ensures r.Err? ==> r.error == ValueError("Model " + modelName + " not supported")
  {
    if modelName in CompletionModels then Ok(Completions)
    else if modelName in EmbeddingModels then Ok(Embeddings)
    else Err(ValueError("Model " + modelName + " not supported"))
  }

  /** `model_type.title()[:-1]`: the body key a response's output is filed under. */
  function BodyKey(t: ModelType): (k: string)
    ensures k + "s" == (if t.Completions? then "Completions" else "Embeddings")
  {
    match t
    case Completions => "Completion"
    case Embeddings => "Embedding"
  }

  /** What the endpoint returns to one attempt. */
  datatype Reply = Reply(status: int, output: string)

  /** The tracking body a caller attaches to a request; None stands for Python's None. */
  type Body = Option<map<string, string>>

  predicate Truthy(body: Body) {
    body.Some? && |body.value| > 0
  }

  /** A response as recorded in the backlog and returned. */
  datatype Response = Response(identifier: string, status: int, output: string, body: Body)

  /** `identifier if identifier else str(uuid.uuid4())` */
  function IdFor(identifier: string, freshId: string): (id: string)
    ensures identifier != "" ==> id == identifier
    ensures identifier == "" ==> id == freshId
  {
    if identifier != "" then identifier else freshId
  }

  /** A status is retried when it is a server error and either 503 or attempts remain (`max_attempts >= 0`). */
  predicate Retried(status: int, maxAttempts: int) {
    status >= 500 && (status == 503 || maxAttempts >= 0)
  }

  /** The number of endpoint calls one `get_response` makes on `replies`. */
  function Calls(replies: seq<Reply>, maxAttempts: int): (n: nat)
    ensures n <= |replies|
    ensures replies != [] ==> n >= 1
    decreases |replies|
  {
    if replies == [] then 0
    else if Retried(replies[0].status, maxAttempts) then 1 + Calls(replies[1..], maxAttempts - 1)
    else 1
  }

  /** The response as the endpoint returned it, before the body is filled in. */
  function Logged(id: string, body: Body, reply: Reply): Response {
    Response(id, reply.status, reply.output, body)
  }

  /** The responses of every attempt, in order, as appended to the backlog. */
  function Trail(replies: seq<Reply>, maxAttempts: int, id: string, body: Body): (t: seq<Response>)
    ensures |t| == Calls(replies, maxAttempts)
    ensures forall k :: 0 <= k < |t| ==> t[k] == Logged(id, body, replies[k])
    decreases |replies|
  {
    if replies == [] then []
    else if Retried(replies[0].status, maxAttempts) then [Logged(id, body, replies[0])] + Trail(replies[1..], maxAttempts - 1, id, body)
    else [Logged(id, body, replies[0])]
  }

  /**
   * The response `get_response` returns, None while the call would still retry.
   * A response below 500 with a truthy body gets its output filed in the body.
   */
  function Final(t: ModelType, replies: seq<Reply>, maxAttempts: int, id: string, body: Body): Option<Response>
    decreases |replies|
  {
    if replies == [] then None
    else if Retried(replies[0].status, maxAttempts) then Final(t, replies[1..], maxAttempts - 1, id, body)
    else if replies[0].status < 500 && Truthy(body) then
      Some(Response(id, replies[0].status, replies[0].output, Some(body.value[BodyKey(t) := replies[0].output])))
    else Some(Logged(id, body, replies[0]))
  }

  /** The waits before each retry: `backoff_time`, doubled before every further retry. */
  function Backoffs(backoff: real, n: nat): (w: seq<real>)
    ensures |w| == n
    ensures n > 0 ==> w[0] == backoff
    ensures forall k :: 0 <= k < n - 1 ==> w[k + 1] == 2.0 * w[k]
    decreases n
  {
    if n == 0 then [] else [backoff] + Backoffs(2.0 * backoff, n - 1)
  }

  lemma BackoffsCons(backoff: real, n: nat)
    ensures Backoffs(backoff, n + 1) == [backoff] + Backoffs(2.0 * backoff, n)
  {
  }

  /** `_save_resp` of several responses to one identifier's backlog file (a missing file reads as `[]`). */
  function Saved(backlogs: map<string, seq<Response>>, id: string, rs: seq<Response>): (b: map<string, seq<Response>>)
    ensures rs != [] ==> b.Keys == backlogs.Keys + {id}
    ensures rs != [] ==> b[id] == (if id in backlogs then backlogs[id] else []) + rs
    ensures forall k :: k in backlogs && k != id ==> k in b && b[k] == backlogs[k]
    ensures rs == [] ==> b == backlogs
  {
    if rs == [] then backlogs
    else backlogs[id := (if id in backlogs then backlogs[id] else []) + rs]
  }

  lemma SavedTwice(backlogs: map<string, seq<Response>>, id: string, a: seq<Response>, b: seq<Response>)
    ensures Saved(Saved(backlogs, id, a), id, b) == Saved(backlogs, id, a + b)
  {
    if a != [] && b != [] {
      var old0 := if id in backlogs then backlogs[id] else [];
      assert old0 + a + b == old0 + (a + b);
    } else if a == [] {
      assert a + b == b;
    } else {
      assert a + b == a;
    }
  }

  /** One queued `add_get_response` call. */
  datatype PoolEntry = PoolEntry(identifier: string, maxAttempts: int, backoff: real, body: Body)

  /** The backlogs after processing `entries` in order, entry `i` meeting `endpoint(i)` and drawing `uuids(i)`. */
  function BatchBacklogs(backlogs: map<string, seq<Response>>, entries: seq<PoolEntry>,
                         endpoint: nat -> seq<Reply>, uuids: nat -> string): map<string, seq<Response>>
    decreases |entries|
  {
    if entries == [] then backlogs
    else
      var i := |entries| - 1;
      var e := entries[i];
      Saved(BatchBacklogs(backlogs, entries[..i], endpoint, uuids), IdFor(e.identifier, uuids(i)),
            Trail(endpoint(i), e.maxAttempts, IdFor(e.identifier, uuids(i)), e.body))
  }

  /** The responses of the queued requests `entries`, in order, entry `i` meeting `endpoint(i)` and drawing `uuids(i)`. */
  function Finals(t: ModelType, entries: seq<PoolEntry>, endpoint: nat -> seq<Reply>, uuids: nat -> string): seq<Option<Response>>
    decreases |entries|
  {
    if entries == [] then []
    else
      var i := |entries| - 1;
      var e := entries[i];
      Finals(t, entries[..i], endpoint, uuids) + [Final(t, endpoint(i), e.maxAttempts, IdFor(e.identifier, uuids(i)), e.body)]
  }

  class Client {
    const modelType: ModelType
    /** `save_backlogs`: a backlog directory was given. */
    const saveBacklogs: bool
    /** The backlog files, by identifier. */
    var backlogs: map<string, seq<Response>>
    /** `_pool` */
    var pool: seq<PoolEntry>

    constructor (t: ModelType, backlogsDir: string)
      ensures modelType == t && saveBacklogs == (backlogsDir != "")
      ensures backlogs == map[] && pool == []
    {
      modelType := t;
      saveBacklogs := backlogsDir != "";
      backlogs := map[];
      pool := [];
    }

    /** `OpenAI(model_name, backlogs_dir)`: an unsupported model raises ValueError. */
    static method Create(modelName: string, backlogsDir: string) returns (r: Result<Client>)
      ensures r.Err? <==> Route(modelName).Err?
      ensures r.Err? ==> r.error == Route(modelName).error
      ensures r.Ok? ==> && fresh(r.value) && Ok(r.value.modelType) == Route(modelName)
                        && r.value.saveBacklogs == (backlogsDir != "")
                        && r.value.backlogs == map[] && r.value.pool == []
    {
      var t := Route(modelName);
      if t.Err? {
        return Err(t.error);
      }
      var c := new Client(t.value, backlogsDir);
      return Ok(c);
    }

    /** `_save_resp(result)` */
    method SaveResp(result: Response)
      modifies this
      ensures backlogs == if saveBacklogs then Saved(old(backlogs), result.identifier, [result]) else old(backlogs)
      ensures pool == old(pool)
    {
      if !saveBacklogs {
        return;
      }
      var cache := (if result.identifier in backlogs then backlogs[result.identifier] else []) + [result];
      backlogs := backlogs[result.identifier := cache];
    }

    /**
     * `get_response`: call the endpoint, log the attempt, retry server errors
     * (503 always, others while `max_attempts >= 0`) with one attempt fewer and
     * twice the backoff, and file the output in a truthy body otherwise.
     * `waits` are the backoffs slept before each retry.
     */
    method GetResponse(identifier: string, freshId: string, maxAttempts: int, backoff: real, body: Body, replies: seq<Reply>)
      returns (response: Option<Response>, waits: seq<real>)
      modifies this
      decreases |replies|
      ensures response == Final(modelType, replies, maxAttempts, IdFor(identifier, freshId), body)
      ensures waits == Backoffs(backoff, Calls(replies, maxAttempts) - (if response.Some? then 1 else 0))
      ensures backlogs == if saveBacklogs
                          then Saved(old(backlogs), IdFor(identifier, freshId), Trail(replies, maxAttempts, IdFor(identifier, freshId), body))
                          else old(backlogs)
      ensures pool == old(pool)
    {
      var id := IdFor(identifier, freshId);
      if replies == [] {
        return None, [];
      }
      var reply := replies[0];
      var result := Logged(id, body, reply);
      AttemptStep(modelType, replies, maxAttempts, id, body);
      SaveResp(result);
      if reply.status >= 500 {
        if reply.status != 503 && maxAttempts < 0 {
          return Some(result), [];
        }
        assert IdFor(id, freshId) == id;
        var rest;
        response, rest := GetResponse(id, freshId, maxAttempts - 1, backoff * 2.0, body, replies[1..]);
        waits := [backoff] + rest;
        BackoffsCons(backoff, |rest|);
        if saveBacklogs {
          SavedTwice(old(backlogs), id, [result], Trail(replies[1..], maxAttempts - 1, id, body));
          assert backlogs == Saved(old(backlogs), id, [result] + Trail(replies[1..], maxAttempts - 1, id, body));
        }
        return;
      }
      if Truthy(body) {
        result := result.(body := Some(body.value[BodyKey(modelType) := reply.output]));
      }
      return Some(result), [];
    }

    /** `add_get_response`: queue a request at the end of the pool. */
    method AddGetResponse(identifier: string, maxAttempts: int, backoff: real, body: Body)
      modifies this
      ensures pool == old(pool) + [PoolEntry(identifier, maxAttempts, backoff, body)]
      ensures backlogs == old(backlogs)
    {
      pool := pool + [PoolEntry(identifier, maxAttempts, backoff, body)];
    }

    /**
     * `batch_get_response`: one response per queued request, in queue order,
     * then an empty pool. The requests are modelled one after the other.
     */
    method BatchGetResponse(endpoint: nat -> seq<Reply>, uuids: nat -> string) returns (responses: seq<Option<Response>>)
      modifies this
      ensures |responses| == |old(pool)|
      ensures forall i :: 0 <= i < |responses| ==>
                responses[i] == Final(modelType, endpoint(i), old(pool)[i].maxAttempts,
                                      IdFor(old(pool)[i].identifier, uuids(i)), old(pool)[i].body)
      ensures backlogs == if saveBacklogs then BatchBacklogs(old(backlogs), old(pool), endpoint, uuids) else old(backlogs)
      ensures pool == []
    {
      var entries := pool;
      responses := [];
      var i := 0;
      while i < |entries|
        invariant 0 <= i <= |entries| && pool == entries
        invariant responses == Finals(modelType, entries[..i], endpoint, uuids)
        invariant backlogs == if saveBacklogs then BatchBacklogs(old(backlogs), entries[..i], endpoint, uuids) else old(backlogs)
      {
        var e := entries[i];
        var r, _ := GetResponse(e.identifier, uuids(i), e.maxAttempts, e.backoff, e.body, endpoint(i));
        BatchStep(modelType, old(backlogs), entries, i, endpoint, uuids);
        responses := responses + [r];
        i := i + 1;
      }
      assert entries[..i] == entries;
      FinalsAt(modelType, entries, endpoint, uuids);
      pool := [];
    }
  }

  /** One attempt of `get_response`: a retried reply is logged and the rest decides; any other reply ends the call. */
  lemma AttemptStep(t: ModelType, replies: seq<Reply>, maxAttempts: int, id: string, body: Body)
    requires replies != []
    ensures Retried(replies[0].status, maxAttempts) ==>
              && Calls(replies, maxAttempts) == 1 + Calls(replies[1..], maxAttempts - 1)
              && Trail(replies, maxAttempts, id, body) == [Logged(id, body, replies[0])] + Trail(replies[1..], maxAttempts - 1, id, body)
              && Final(t, replies, maxAttempts, id, body) == Final(t, replies[1..], maxAttempts - 1, id, body)
    ensures !Retried(replies[0].status, maxAttempts) ==>
              && Calls(replies, maxAttempts) == 1
              && Trail(replies, maxAttempts, id, body) == [Logged(id, body, replies[0])]
              && Final(t, replies, maxAttempts, id, body) ==
                   Some(if replies[0].status < 500 && Truthy(body)
                        then Response(id, replies[0].status, replies[0].output, Some(body.value[BodyKey(t) := replies[0].output]))
                        else Logged(id, body, replies[0]))
  {
  }

  /** One more queued request: its response is appended and its attempts are saved. */
  lemma BatchStep(t: ModelType, backlogs: map<string, seq<Response>>, entries: seq<PoolEntry>, i: nat,
                  endpoint: nat -> seq<Reply>, uuids: nat -> string)
    requires i < |entries|
    ensures Finals(t, entries[..i + 1], endpoint, uuids)
            == Finals(t, entries[..i], endpoint, uuids)
               + [Final(t, endpoint(i), entries[i].maxAttempts, IdFor(entries[i].identifier, uuids(i)), entries[i].body)]
    ensures BatchBacklogs(backlogs, entries[..i + 1], endpoint, uuids)
            == Saved(BatchBacklogs(backlogs, entries[..i], endpoint, uuids), IdFor(entries[i].identifier, uuids(i)),
                     Trail(endpoint(i), entries[i].maxAttempts, IdFor(entries[i].identifier, uuids(i)), entries[i].body))
  {
    assert entries[..i + 1][..i] == entries[..i];
  }

  /** The i-th response of a batch is what `get_response` returns for the i-th queued request. */
  lemma {:induction false} FinalsAt(t: ModelType, entries: seq<PoolEntry>, endpoint: nat -> seq<Reply>, uuids: nat -> string)
    ensures |Finals(t, entries, endpoint, uuids)| == |entries|
    ensures forall i :: 0 <= i < |entries| ==>
              Finals(t, entries, endpoint, uuids)[i]
              == Final(t, endpoint(i), entries[i].maxAttempts, IdFor(entries[i].identifier, uuids(i)), entries[i].body)
    decreases |entries|
  {
    if entries != [] {
      var init := entries[..|entries| - 1];
      FinalsAt(t, init, endpoint, uuids);
      forall i | 0 <= i < |init| ensures init[i] == entries[i] { }
    }
  }

  // ----- properties of the retry policy --------------------------------------------

  /**
   * The call finishes exactly when the last attempt it makes is not retried,
   * and then returns that attempt's response, its output filed in a truthy body
   * when the status is below 500.
   */
  lemma {:induction false} FinalIsLastAttempt(t: ModelType, replies: seq<Reply>, maxAttempts: int, id: string, body: Body)
    ensures var n := Calls(replies, maxAttempts);
            var r := Final(t, replies, maxAttempts, id, body);
            && (r.None? <==> (n == 0 || Retried(replies[n - 1].status, maxAttempts - (n - 1))))
            && (r.Some? ==> (&& r.value.identifier == id
                             && r.value.status == replies[n - 1].status
                             && r.value.output == replies[n - 1].output
                             && r.value.body == if replies[n - 1].status < 500 && Truthy(body)
                                                then Some(body.value[BodyKey(t) := replies[n - 1].output])
                                                else body))
    decreases |replies|
  {
    if replies != [] && Retried(replies[0].status, maxAttempts) {
      FinalIsLastAttempt(t, replies[1..], maxAttempts - 1, id, body);
      if replies[1..] != [] {
        assert replies[1..][Calls(replies[1..], maxAttempts - 1) - 1] == replies[Calls(replies, maxAttempts) - 1];
      }
    }
  }

  /** A response below 500 ends the call after a single endpoint call. */
  lemma BelowFiveHundredIsFinal(t: ModelType, replies: seq<Reply>, maxAttempts: int, id: string, body: Body)
    requires replies != [] && replies[0].status < 500
    ensures Calls(replies, maxAttempts) == 1
    ensures Final(t, replies, maxAttempts, id, body).Some?
    ensures Truthy(body) ==> Final(t, replies, maxAttempts, id, body).value.body.value[BodyKey(t)] == replies[0].output
  {
  }

  /**
   * A server error other than 503 that persists is tried `m + 2` times when
   * `max_attempts == m >= -1`: the counter has to go below zero before the call gives up.
   */
  lemma {:induction false} PersistentServerError(replies: seq<Reply>, m: int)
    requires m >= -1 && |replies| >= m + 2
    requires forall k :: 0 <= k < |replies| ==> replies[k].status >= 500 && replies[k].status != 503
    ensures Calls(replies, m) == m + 2
    decreases m + 1
  {
    if m >= 0 {
      PersistentServerError(replies[1..], m - 1);
    }
  }

  /** The last of the `m + 2` attempts is the response returned. */
  lemma {:induction false} PersistentServerErrorReturns(t: ModelType, replies: seq<Reply>, m: int, id: string, body: Body)
    requires m >= -1 && |replies| >= m + 2
    requires forall k :: 0 <= k < |replies| ==> replies[k].status >= 500 && replies[k].status != 503
    ensures Final(t, replies, m, id, body) == Some(Response(id, replies[m + 1].status, replies[m + 1].output, body))
    decreases m + 1
  {
    if m >= 0 {
      PersistentServerErrorReturns(t, replies[1..], m - 1, id, body);
    }
  }

  /** 503 is retried whatever the attempt counter: a call that only ever sees 503 never finishes, however many replies. */
  lemma {:induction false} ServiceUnavailableNeverGivesUp(t: ModelType, replies: seq<Reply>, m: int, id: string, body: Body)
    requires forall k :: 0 <= k < |replies| ==> replies[k].status == 503
    ensures Calls(replies, m) == |replies|
    ensures Final(t, replies, m, id, body).None?
    decreases |replies|
  {
    if replies != [] {
      ServiceUnavailableNeverGivesUp(t, replies[1..], m - 1, id, body);
    }
  }
}
