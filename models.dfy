/**
 * The chat-model client: the `OpenAI` model, its streaming and retrying calls,
 * and the `Models` registry that looks a model up by name.
 *
 * The remote chat-completion service is an oracle: an `Endpoint` whose n-th
 * call has the outcome `script(n)`, and which records every request it was sent.
 */
module Models {
  import opened Wrappers

  datatype Message = Message(role: string, content: string)

  /** The arguments of one chat-completion call. */
  datatype Request = Request(model: string, messages: seq<Message>, temperature: real, maxTokens: int, stream: bool)

  /** The `delta` of one streamed chunk: whether it carries a `role` key and a `content` key. */
  datatype Delta = Delta(role: Option<string>, content: Option<string>)

  /** What one call to the service does: raise, return one message, or return a stream of chunks. */
  datatype Outcome = Failed | Whole(content: string) | Streamed(chunks: seq<Delta>)

  /** The exceptions the core can raise. */
  datatype Error =
    | RemoteError       // raised by the service call, or a reply of the wrong shape
    | NoModel           // attribute access on a model lookup that returned None
    | InvalidStrategy   // evaluation strategy other than "value" or "vote"
    | UnhashableState   // a list state used as a dictionary key
    | TimeoutNotNumber  // `time.sleep` given the string value of `OPENAI_RATE_TIMEOUT`

  /** The token bookkeeping of one streamed call. */
  datatype Usage = Usage(tokensUsed: nat, sessionTokens: nat)

  class Endpoint {
    /** The outcome of the n-th call made to the service. */
    const script: nat -> Outcome
    /** Every request sent so far, in order; its length is the number of calls made. */
    var sent: seq<Request>

    constructor (script: nat -> Outcome)
      ensures this.script == script && sent == []
    {
      this.script := script;
      sent := [];
    }

    /** `openai.ChatCompletion.create(...)` */
    method Create(request: Request) returns (o: Outcome)
      modifies this
      ensures o == script(|old(sent)|)
      ensures sent == old(sent) + [request]
    {
      o := script(|sent|);
      sent := sent + [request];
    }

    /** At least `n` of the calls still to come are answered with a message. */
    ghost predicate AnswersAhead(n: nat)
      reads this
    {
      exists m: nat :: |Answers(script, |sent|, m)| >= n
    }
  }

  /** The messages answered by whole replies among calls `from` (inclusive) to `to` (exclusive). */
  ghost function Answers(script: nat -> Outcome, from: nat, to: nat): seq<string>
    decreases to
  {
    if to <= from then []
    else Answers(script, from, to - 1) + (if script(to - 1).Whole? then [script(to - 1).content] else [])
  }

  /** Calls none of which is answered with a message add no answer. */
  lemma {:induction false} AnswersNone(script: nat -> Outcome, a: nat, b: nat)
    requires forall j :: a <= j < b ==> !script(j).Whole?
    ensures Answers(script, a, b) == []
    decreases b
  {
    if b > a {
      AnswersNone(script, a, b - 1);
    }
  }

  /** Some call of a range with an answer is answered with a message. */
  lemma {:induction false} AnswersWitness(script: nat -> Outcome, a: nat, b: nat)
    requires |Answers(script, a, b)| >= 1
    ensures exists j :: a <= j < b && script(j).Whole?
    decreases b
  {
    if !script(b - 1).Whole? {
      AnswersWitness(script, a, b - 1);
    }
  }

  /**
   * Once a `run` call has consumed calls `s` to `e`, the first answer among
   * them being the last, one fewer answer remains ahead of `e`.
   */
  lemma AnswersAfterRun(script: nat -> Outcome, s: nat, e: nat, m: nat, n: nat)
    requires s < e && script(e - 1).Whole?
    requires forall j :: s <= j < e - 1 ==> !script(j).Whole?
    requires |Answers(script, s, m)| >= n >= 1
    ensures |Answers(script, e, m)| >= n - 1
  {
    if m < e {
      AnswersNone(script, s, m);
      assert false;
    }
    AnswersNone(script, s, e - 1);
    AnswersSplit(script, s, e, m);
  }

  lemma {:induction false} AnswersSplit(script: nat -> Outcome, a: nat, b: nat, c: nat)
    requires a <= b <= c
    ensures Answers(script, a, c) == Answers(script, a, b) + Answers(script, b, c)
    decreases c
  {
    if c > b {
      AnswersSplit(script, a, b, c - 1);
    }
  }

  /**
   * Calls `from` (inclusive) to `to` (exclusive) are the attempts of one
   * `run` call: every attempt but the last failed, and the last is answered
   * with `answer`, or failed as well when `answer` is `None`.
   */
  ghost predicate RunCalls(script: nat -> Outcome, from: nat, to: nat, answer: Option<string>)
  {
    && from < to
    && (forall j :: from <= j < to - 1 ==> !script(j).Whole?)
    && (if answer.Some? then script(to - 1) == Whole(answer.value) else !script(to - 1).Whole?)
  }

  /** What a `run` call that returned `r` was answered with. */
  function AnswerOf(r: Result<string, Error>): Option<string>
  {
    if r.Ok? then Some(r.value) else None
  }

  /** A chunk adds text to the reply when its delta has no `role` and has `content`. */
  predicate Contributes(d: Delta)
  {
    d.role.None? && d.content.Some?
  }

  /** The `content` of the contributing chunks, in order. */
  function Pieces(chunks: seq<Delta>): seq<string>
  {
    if chunks == [] then []
    else (if Contributes(chunks[0]) then [chunks[0].content.value] else []) + Pieces(chunks[1..])
  }

  /** `"".join(ps)` */
  function Concat(ps: seq<string>): string
  {
    if ps == [] then "" else ps[0] + Concat(ps[1..])
  }

  lemma {:induction false} PiecesAppend(a: seq<Delta>, b: seq<Delta>)
    ensures Pieces(a + b) == Pieces(a) + Pieces(b)
  {
    if a != [] {
      assert (a + b)[1..] == a[1..] + b;
      PiecesAppend(a[1..], b);
    } else {
      assert a + b == b;
    }
  }

  lemma {:induction false} ConcatAppend(p: seq<string>, q: seq<string>)
    ensures Concat(p + q) == Concat(p) + Concat(q)
  {
    if p != [] {
      assert (p + q)[1..] == p[1..] + q;
      ConcatAppend(p[1..], q);
    } else {
      assert p + q == q;
    }
  }

  /** A chunk whose delta has a `role` adds nothing, even when it also has `content`. */
  lemma RoleChunkSkipped(before: seq<Delta>, d: Delta, after: seq<Delta>)
    requires d.role.Some?
    ensures Pieces(before + [d] + after) == Pieces(before + after)
    ensures Concat(Pieces(before + [d] + after)) == Concat(Pieces(before + after))
  {
    PiecesAppend(before + [d], after);
    PiecesAppend(before, [d]);
    PiecesAppend(before, after);
  }

  /** At most one token is counted per chunk. */
  lemma {:induction false} PiecesBound(chunks: seq<Delta>)
    ensures |Pieces(chunks)| <= |chunks|
  {
    if chunks != [] {
      PiecesBound(chunks[1..]);
    }
  }

  /**
   * The chunk loop of `run_with_streaming`: skip chunks whose delta has a
   * `role`, append the `content` of the others and count them.
   */
  method CollectStream(chunks: seq<Delta>) returns (text: string, tokensUsed: nat)
    ensures text == Concat(Pieces(chunks))
    ensures tokensUsed == |Pieces(chunks)|
  {
    text, tokensUsed := "", 0;
    for i := 0 to |chunks|
      invariant text == Concat(Pieces(chunks[..i]))
      invariant tokensUsed == |Pieces(chunks[..i])|
    {
      var delta := chunks[i];
      assert chunks[..i + 1] == chunks[..i] + [delta];
      PiecesAppend(chunks[..i], [delta]);
      ConcatAppend(Pieces(chunks[..i]), Pieces([delta]));
      if delta.role.Some? {
        continue;
      } else if delta.content.Some? {
        tokensUsed := tokensUsed + 1;
        text := text + delta.content.value;
      }
    }
    assert chunks[..|chunks|] == chunks;
  }

  /** What `run_with_streaming` returns for an outcome of the service, in either mode. */
  function Reply(o: Outcome, stream: bool): Result<string, Error>
  {
    if stream then
      (if o.Streamed? then Ok(Concat(Pieces(o.chunks))) else Err(RemoteError))
    else
      (if o.Whole? then Ok(o.content) else Err(RemoteError))
  }

  function Repeat<T>(x: T, n: nat): (r: seq<T>)
    ensures |r| == n && forall i :: 0 <= i < n ==> r[i] == x
  {
    seq(n, _ => x)
  }

  class OpenAI {
    const model: string
    const stream: bool
    /** The length of a text once encoded by `chatEncoding`. */
    const encodedLength: string -> nat
    const strategy: string
    const evaluationStrategy: string
    /** The remote service this client calls. */
    const endpoint: Endpoint
    /** Whether `OPENAI_RATE_TIMEOUT` is set in the environment: `os.environ.get` then returns a string. */
    const rateTimeoutSet: bool

    constructor (endpoint: Endpoint, encodedLength: string -> nat, model: string, stream: bool,
                 strategy: string, evaluationStrategy: string, rateTimeoutSet: bool)
      ensures this.endpoint == endpoint && this.encodedLength == encodedLength
      ensures this.rateTimeoutSet == rateTimeoutSet
      ensures this.model == model && this.stream == stream
      ensures this.strategy == strategy && this.evaluationStrategy == evaluationStrategy
    {
      this.endpoint := endpoint;
      this.encodedLength := encodedLength;
      this.model := model;
      this.stream := stream;
      this.strategy := strategy;
      this.evaluationStrategy := evaluationStrategy;
      this.rateTimeoutSet := rateTimeoutSet;
    }

    /**
     * `n` calls of `run` return: the first failure ends `run` anyway when the
     * timeout is set, and otherwise `n` answers lie ahead.
     */
    ghost predicate Serves(n: nat)
      reads endpoint
    {
      rateTimeoutSet || endpoint.AnswersAhead(n)
    }

    /** The system and user messages of one call. */
    function Memory(systemPrompt: string, query: string): seq<Message>
    {
      [Message("system", systemPrompt), Message("user", query)]
    }

    function ChatRequest(systemPrompt: string, query: string, temperature: real, maxTokens: int, stream: bool): Request
    {
      Request(model, Memory(systemPrompt, query), temperature, maxTokens, stream)
    }

    /** The summed encoded length of the messages sent. */
    function PromptTokens(systemPrompt: string, query: string): nat
    {
      encodedLength(systemPrompt) + encodedLength(query)
    }

    /**
     * `run_with_streaming`: one call to the service; in streaming mode the
     * reply is folded from its chunks and the token counts are reported.
     * The caller's `totalSessionTokens` is overwritten before it is read.
     */
    method RunWithStreaming(query: string, systemPrompt: string, showTokenConsumption: bool,
                            totalSessionTokens: int, temperature: real, maxTokens: int)
      returns (r: Result<string, Error>, usage: Option<Usage>)
      modifies endpoint
      ensures endpoint.sent == old(endpoint.sent) + [ChatRequest(systemPrompt, query, temperature, maxTokens, stream)]
      ensures r == Reply(endpoint.script(|old(endpoint.sent)|), stream)
      ensures usage.Some? <==> stream && r.Ok?
      ensures usage.Some? ==>
        var o := endpoint.script(|old(endpoint.sent)|);
        usage.value.tokensUsed == |Pieces(o.chunks)| &&
        usage.value.sessionTokens == PromptTokens(systemPrompt, query) + usage.value.tokensUsed
    {
      var sessionTokens := PromptTokens(systemPrompt, query);
      var response := endpoint.Create(ChatRequest(systemPrompt, query, temperature, maxTokens, stream));
      if stream {
        if response.Streamed? {
          var text, tokensUsed := CollectStream(response.chunks);
          sessionTokens := sessionTokens + tokensUsed;
          r, usage := Ok(text), Some(Usage(tokensUsed, sessionTokens));
        } else {
          r, usage := Err(RemoteError), None;
        }
      } else {
        r := if response.Whole? then Ok(response.content) else Err(RemoteError);
        usage := None;
      }
    }

    /**
     * `run`: send the same request until a call returns a message, and return
     * its content. After a failed call the sleep raises `TypeError` when
     * `OPENAI_RATE_TIMEOUT` is set, since its value is then a string; only
     * otherwise is the request sent again.
     */
    method Run(query: string, systemPrompt: string, maxTokens: int, temperature: real) returns (r: Result<string, Error>)
      requires Serves(1)
      modifies endpoint
      ensures var s, e := |old(endpoint.sent)|, |endpoint.sent|;
        && s < e
        && endpoint.sent == old(endpoint.sent) + Repeat(ChatRequest(systemPrompt, query, temperature, maxTokens, false), e - s)
        && RunCalls(endpoint.script, s, e, AnswerOf(r))
        && (r.Err? ==> r == Err(TimeoutNotNumber) && rateTimeoutSet)
        && (rateTimeoutSet ==> e == s + 1)
        && Answers(endpoint.script, s, e) == (if r.Ok? then [r.value] else [])
    {
      ghost var start := |endpoint.sent|;
      ghost var target := start;
      if !rateTimeoutSet {
        ghost var m :| |Answers(endpoint.script, start, m)| >= 1;
        AnswersWitness(endpoint.script, start, m);
        target :| start <= target && endpoint.script(target).Whole?;
      }
      var request := ChatRequest(systemPrompt, query, temperature, maxTokens, false);
      while true
        invariant start <= |endpoint.sent| <= target
        invariant !rateTimeoutSet ==> endpoint.script(target).Whole?
        invariant rateTimeoutSet ==> |endpoint.sent| == start
        invariant forall m :: start <= m < |endpoint.sent| ==> !endpoint.script(m).Whole?
        invariant endpoint.sent == old(endpoint.sent) + Repeat(request, |endpoint.sent| - start)
        invariant Answers(endpoint.script, start, |endpoint.sent|) == []
        decreases target - |endpoint.sent|
      {
        var response := endpoint.Create(request);
        if response.Whole? {
          return Ok(response.content);
        }
        if rateTimeoutSet {
          return Err(TimeoutNotNumber);
        }
      }
    }
  }

  /** One member of the `Models` enumeration. */
  datatype Member<T> = Member(name: string, value: T)

  /** The `Models` enumeration: its one member is named "OpenAI". */
  function ModelsEnum<T>(openAI: T): seq<Member<T>>
  {
    [Member("OpenAI", openAI)]
  }

  /** `Models.get_Model`: the value of the first member named `modelName`, or None. */
  method GetModel<T>(members: seq<Member<T>>, modelName: string) returns (r: Option<T>)
    ensures r.None? <==> forall i :: 0 <= i < |members| ==> members[i].name != modelName
    ensures r.Some? ==> exists i :: 0 <= i < |members| && members[i] == Member(modelName, r.value) &&
                                    forall j :: 0 <= j < i ==> members[j].name != modelName
  {
    for i := 0 to |members|
      invariant forall j :: 0 <= j < i ==> members[j].name != modelName
    {
      if members[i].name == modelName {
        return Some(members[i].value);
      }
    }
    return None;
  }
}
