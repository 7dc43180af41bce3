/**
 * Candidate generation and scoring in the style of Tree of Thoughts: the
 * `AlgorithmModelProcesses` and `TreeModelProcesses` drivers, which sample k
 * thoughts from the chat model, ask it for a solution, and score states by
 * value or by vote.
 */
module ModelProcesses {
  import opened Wrappers
  import opened PyStr
  import opened Models

  /**
   * A reasoning state as the drivers receive it: a string, or a chain of
   * thoughts held in a tuple or in a list. Only strings and tuples can be
   * dictionary keys.
   */
  datatype State = Text(text: string) | Tuple(items: seq<string>) | List(items: seq<string>)

  /** `state if type(state) == str else "\n".join(state)` */
  function StateText(state: State): string
  {
    match state
    case Text(t) => t
    case Tuple(items) => Join(items, "\n")
    case List(items) => Join(items, "\n")
  }

  /** `str(state)` of a tuple of strings, quote escaping aside. */
  function TupleRepr(items: seq<string>): string
  {
    var quoted := seq(|items|, i requires 0 <= i < |items| => "'" + items[i] + "'");
    "(" + Join(quoted, ", ") + (if |items| == 1 then ",)" else ")")
  }

  /** `"\n".join(state) if isinstance(state, list) else state`, as `generate_solution` renders a state. */
  function SolutionStateText(state: State): string
  {
    match state
    case List(items) => Join(items, "\n")
    case Text(t) => t
    case Tuple(items) => TupleRepr(items)
  }

  /**
   * Rendering keeps a string state as it is and joins a chain with newlines,
   * so that splitting the text on newlines gives the chain back.
   */
  lemma RenderRoundTrip(state: State)
    requires !state.Text? ==> |state.items| >= 1 && forall i :: 0 <= i < |state.items| ==> Avoids(state.items[i], IsNewline)
    ensures state.Text? ==> StateText(state) == state.text
    ensures !state.Text? ==> Lines(StateText(state)) == state.items
  {
    if !state.Text? {
      LinesOfJoin(state.items);
    }
  }

  /**
   * Every string state and every list state is rendered by `generate_solution`
   * as everywhere else; the text of a non-empty list of newline-free items
   * splits back into the items.
   */
  lemma SolutionRenderAgrees(state: State)
    requires !state.Tuple?
    ensures SolutionStateText(state) == StateText(state)
    ensures state.List? && |state.items| >= 1 && (forall i :: 0 <= i < |state.items| ==> Avoids(state.items[i], IsNewline)) ==>
      Lines(SolutionStateText(state)) == state.items
  {
    if state.List? && |state.items| >= 1 && forall i :: 0 <= i < |state.items| ==> Avoids(state.items[i], IsNewline) {
      LinesOfJoin(state.items);
    }
  }

  // The prompts. Their wording is not modelled; each keeps the inputs it embeds.

  const StepsSystemPrompt := "Break the task into minimal subtasks and solve each."
  const ReActInstruction := "Write down your observations in format 'Observation:xxxx', then write down your thoughts in format 'Thoughts:xxxx'."

  function AlgThoughtPrompt(initialPrompt: string, stateText: string): string
  {
    "#####OBJECTIVE#####\n" + initialPrompt + "\n###CURRENT STATE###\n" + stateText
  }

  function AlgSolutionPrompt(stateText: string, initialPrompt: string, rejected: string): string
  {
    "Reasoning: '" + stateText + "' Task: " + initialPrompt + " Rejected: " + rejected
  }

  function TreeThoughtPrompt(stateText: string, initialPrompt: string, rejected: string): string
  {
    "You're an TreeofThoughts. Reasoning: '" + stateText + "' Task: " + initialPrompt + " Rejected: " + rejected
  }

  function TreeSolutionPrompt(stateText: string, initialPrompt: string, rejected: string): string
  {
    "You're a TreeofThought. Reasoning: '" + stateText + "' Task: " + initialPrompt + " Rejected: " + rejected
  }

  function AlgValuePrompt(initialPrompt: string, stateText: string): string
  {
    "Goal: '" + initialPrompt + "' Value as a float between 0 and 1: " + stateText
  }

  function TreeValuePrompt(initialPrompt: string, stateText: string): string
  {
    "Goal: '" + initialPrompt + "' Value pessimistically as a float between 0 and 1: " + stateText
  }

  function VotePrompt(statesText: string, initialPrompt: string): string
  {
    "Vote for the best state:\n" + statesText + "\nGoal: " + initialPrompt
  }

  /** `" ".join(state)`: the characters of a string, or the items of a chain, separated by spaces. */
  function VoteLine(state: State): string
  {
    match state
    case Text(t) => Join(seq(|t|, i requires 0 <= i < |t| => [t[i]]), " ")
    case Tuple(items) => Join(items, " ")
    case List(items) => Join(items, " ")
  }

  function VoteListing(states: seq<State>): string
  {
    Join(seq(|states|, i requires 0 <= i < |states| => VoteLine(states[i])), "\n")
  }

  // Sampling k thoughts.

  function Prepend(xs: seq<string>, r: Result<seq<string>, Error>): Result<seq<string>, Error>
  {
    match r
    case Ok(ys) => Ok(xs + ys)
    case Err(e) => Err(e)
  }

  /**
   * The result of `k` sampling calls made from the `start`-th call on: the
   * replies in order, or the exception of the first call that raised.
   */
  function Sample(script: nat -> Outcome, start: nat, k: int, stream: bool): Result<seq<string>, Error>
    decreases k
  {
    if k <= 0 then Ok([])
    else
      match Reply(script(start), stream)
      case Err(e) => Err(e)
      case Ok(x) => Prepend([x], Sample(script, start + 1, k - 1, stream))
  }

  /** How many calls `k` samplings make: they stop at the first call that raises. */
  function CallsMade(script: nat -> Outcome, start: nat, k: int, stream: bool): nat
    decreases k
  {
    if k <= 0 then 0
    else if Reply(script(start), stream).Err? then 1
    else 1 + CallsMade(script, start + 1, k - 1, stream)
  }

  function Max(a: int, b: int): int
  {
    if a < b then b else a
  }

  /**
   * Sampling succeeds exactly when each of the `k` calls returns; it then
   * yields `max(k, 0)` replies, the i-th being the reply to the i-th call,
   * after exactly that many calls.
   */
  lemma {:induction false} SampleSucceeds(script: nat -> Outcome, start: nat, k: int, stream: bool)
    ensures Sample(script, start, k, stream).Ok? <==> forall j :: start <= j < start + k ==> Reply(script(j), stream).Ok?
    ensures Sample(script, start, k, stream).Ok? ==>
      var thoughts := Sample(script, start, k, stream).value;
      && |thoughts| == Max(k, 0)
      && (forall i :: 0 <= i < |thoughts| ==> Reply(script(start + i), stream) == Ok(thoughts[i]))
      && CallsMade(script, start, k, stream) == Max(k, 0)
    decreases k
  {
    if k > 0 {
      SampleSucceeds(script, start + 1, k - 1, stream);
      var first := Reply(script(start), stream);
      if first.Ok? {
        var rest := Sample(script, start + 1, k - 1, stream);
        if rest.Ok? {
          var thoughts := [first.value] + rest.value;
          forall i | 0 <= i < |thoughts|
            ensures Reply(script(start + i), stream) == Ok(thoughts[i])
          {
            if i > 0 {
              assert thoughts[i] == rest.value[i - 1];
              assert start + i == (start + 1) + (i - 1);
            }
          }
        } else {
          var j :| start + 1 <= j < start + 1 + (k - 1) && !Reply(script(j), stream).Ok?;
        }
      }
    }
  }

  /**
   * When sampling fails, the last call made is the first that raised, its
   * exception is the result, and every call before it returned.
   */
  lemma {:induction false} SampleFails(script: nat -> Outcome, start: nat, k: int, stream: bool)
    requires Sample(script, start, k, stream).Err?
    ensures var n := CallsMade(script, start, k, stream);
      && 1 <= n <= k
      && Reply(script(start + n - 1), stream) == Err(Sample(script, start, k, stream).error)
      && forall j :: start <= j < start + n - 1 ==> Reply(script(j), stream).Ok?
    decreases k
  {
    if Reply(script(start), stream).Ok? {
      SampleFails(script, start + 1, k - 1, stream);
    }
  }

  /** One sample: the one-element list of the first reply, after exactly one call. */
  lemma SingleSample(script: nat -> Outcome, start: nat, stream: bool)
    ensures Sample(script, start, 1, stream) ==
      match Reply(script(start), stream)
      case Ok(x) => Ok([x])
      case Err(e) => Err(e)
    ensures CallsMade(script, start, 1, stream) == 1
  {
    assert Sample(script, start + 1, 0, stream) == Ok([]);
    match Reply(script(start), stream) {
      case Ok(x) =>
        assert [x] + [] == [x];
      case Err(_) =>
    }
  }

  function EndpointOf(llm: Option<OpenAI>): set<object>
  {
    if llm.Some? then {llm.value.endpoint} else {}
  }

  /**
   * `generate_text` has done its work: with no model it returns `[]` for
   * `k <= 0` and raises otherwise; with a model its result is `Sample` from
   * the calls made so far, and it has sent `CallsMade` copies of one request.
   */
  twostate predicate SampledBy(llm: Option<OpenAI>, systemPrompt: string, prompt: string, maxTokens: int,
                               temperature: real, k: int, new r: Result<seq<string>, Error>)
    reads EndpointOf(llm)
  {
    match llm
    case None => r == (if k <= 0 then Ok([]) else Err(NoModel))
    case Some(c) =>
      var start := |old(c.endpoint.sent)|;
      && r == Sample(c.endpoint.script, start, k, c.stream)
      && c.endpoint.sent == old(c.endpoint.sent) +
           Repeat(c.ChatRequest(systemPrompt, prompt, temperature, maxTokens, c.stream),
                  CallsMade(c.endpoint.script, start, k, c.stream))
  }

  /**
   * `generate_text`: `k` calls of `run_with_streaming` with the same prompt,
   * replies collected in order; an exception ends the loop and propagates.
   */
  method GenerateText(llm: Option<OpenAI>, prompt: string, systemPrompt: string, maxTokens: int,
                      temperature: real, k: int) returns (r: Result<seq<string>, Error>)
    modifies EndpointOf(llm)
    ensures SampledBy(llm, systemPrompt, prompt, maxTokens, temperature, k, r)
  {
    if k <= 0 {
      return Ok([]);
    }
    if llm.None? {
      return Err(NoModel);
    }
    r := SampleCalls(llm.value, prompt, systemPrompt, maxTokens, temperature, k);
  }

  /** The loop of `generate_text` once a model is found and `k` is positive. */
  method SampleCalls(c: OpenAI, prompt: string, systemPrompt: string, maxTokens: int,
                     temperature: real, k: int) returns (r: Result<seq<string>, Error>)
    requires k > 0
    modifies c.endpoint
    ensures var start := |old(c.endpoint.sent)|;
      && r == Sample(c.endpoint.script, start, k, c.stream)
      && c.endpoint.sent == old(c.endpoint.sent) +
           Repeat(c.ChatRequest(systemPrompt, prompt, temperature, maxTokens, c.stream),
                  CallsMade(c.endpoint.script, start, k, c.stream))
  {
    var e := c.endpoint;
    ghost var start := |e.sent|;
    ghost var script := e.script;
    ghost var request := c.ChatRequest(systemPrompt, prompt, temperature, maxTokens, c.stream);
    var thoughts: seq<string> := [];
    var i := 0;
    PrependNothing(Sample(script, start, k, c.stream));
    while i < k
      invariant 0 <= i <= k
      invariant |e.sent| == start + i
      invariant e.sent == old(e.sent) + Repeat(request, i)
      invariant Sample(script, start, k, c.stream) == Prepend(thoughts, Sample(script, start + i, k - i, c.stream))
      invariant CallsMade(script, start, k, c.stream) == i + CallsMade(script, start + i, k - i, c.stream)
    {
      SampleStep(script, start, i, k, c.stream, thoughts);
      RepeatSnoc(request, i);
      var response, _ := c.RunWithStreaming(prompt, systemPrompt, true, 0, temperature, maxTokens);
      assert response == Reply(script(start + i), c.stream);
      if response.Err? {
        return Err(response.error);
      }
      thoughts := thoughts + [response.value];
      i := i + 1;
    }
    assert thoughts + [] == thoughts;
    return Ok(thoughts);
  }

  lemma PrependNothing(r: Result<seq<string>, Error>)
    ensures Prepend([], r) == r
  {
    if r.Ok? {
      assert [] + r.value == r.value;
    }
  }

  /**
   * The (i+1)-th of `k` sampling calls made from the `start`-th call on: a
   * reply extends the collected thoughts, an exception ends the sampling.
   */
  lemma SampleStep(script: nat -> Outcome, start: nat, i: nat, k: int, stream: bool, thoughts: seq<string>)
    requires i < k
    ensures var reply := Reply(script(start + i), stream);
      && (reply.Err? ==> Prepend(thoughts, Sample(script, start + i, k - i, stream)) == Err(reply.error) &&
                         CallsMade(script, start + i, k - i, stream) == 1)
      && (reply.Ok? ==> Prepend(thoughts, Sample(script, start + i, k - i, stream)) ==
                          Prepend(thoughts + [reply.value], Sample(script, start + (i + 1), k - (i + 1), stream)) &&
                        i + CallsMade(script, start + i, k - i, stream) ==
                          (i + 1) + CallsMade(script, start + (i + 1), k - (i + 1), stream))
  {
    var reply := Reply(script(start + i), stream);
    if reply.Ok? {
      var rest := Sample(script, start + (i + 1), k - (i + 1), stream);
      if rest.Ok? {
        assert thoughts + ([reply.value] + rest.value) == (thoughts + [reply.value]) + rest.value;
      }
    }
  }

  /** A proof step for the request logs of the sampling loop, kept as a lemma so that the loop's proof stays small. */
  lemma RepeatSnoc<T>(x: T, n: nat)
    ensures Repeat(x, n + 1) == Repeat(x, n) + [x]
  {
  }

  // Scoring by value.

  /** `float(response)` when it parses, `0` when it raises `ValueError`. */
  function Score(parsed: Option<real>): real
  {
    if parsed.Some? then parsed.value else 0.0
  }

  /** The dictionary the value loop builds: state i is given the score of reply i, later entries overwriting earlier ones. */
  function ValueTable(states: seq<State>, replies: seq<string>, parse: string -> Option<real>): map<State, real>
    requires |replies| == |states|
  {
    if states == [] then map[]
    else
      var n := |states| - 1;
      ValueTable(states[..n], replies[..n], parse)[states[n] := Score(parse(replies[n]))]
  }

  /** A proof step for the value loop: the table of one more state and its reply. */
  lemma ValueTableSnoc(states: seq<State>, i: nat, replies: seq<string>, reply: string, parse: string -> Option<real>)
    requires i < |states| && |replies| == i
    ensures ValueTable(states[..i + 1], replies + [reply], parse) ==
      ValueTable(states[..i], replies, parse)[states[i] := Score(parse(reply))]
  {
    assert states[..i + 1][..i] == states[..i];
    assert (replies + [reply])[..i] == replies;
  }

  /** The value table has one key per distinct input state. */
  lemma {:induction false} ValueTableKeys(states: seq<State>, replies: seq<string>, parse: string -> Option<real>)
    requires |replies| == |states|
    ensures ValueTable(states, replies, parse).Keys == set s | s in states
  {
    if states != [] {
      var n := |states| - 1;
      ValueTableKeys(states[..n], replies[..n], parse);
      assert states == states[..n] + [states[n]];
    }
  }

  /**
   * A state's value is the score of the reply to its last occurrence: the
   * parsed reply when it parses, `0` otherwise.
   */
  lemma {:induction false} ValueTableLastWins(states: seq<State>, replies: seq<string>, parse: string -> Option<real>, i: nat)
    requires |replies| == |states|
    requires i < |states|
    requires forall j :: i < j < |states| ==> states[j] != states[i]
    ensures states[i] in ValueTable(states, replies, parse)
    ensures ValueTable(states, replies, parse)[states[i]] == Score(parse(replies[i]))
  {
    var n := |states| - 1;
    if i < n {
      ValueTableLastWins(states[..n], replies[..n], parse, i);
    }
  }

  /** The index of the first list state, or the number of states when there is none. */
  function FirstList(states: seq<State>): (n: nat)
    ensures n <= |states|
    ensures forall j :: 0 <= j < n ==> !states[j].List?
    ensures n < |states| ==> states[n].List?
  {
    if states == [] || states[0].List? then 0 else 1 + FirstList(states[1..])
  }

  /** How many `run` calls the value loop makes: one per state, up to and including the first list state. */
  function ValueCalls(states: seq<State>): nat
  {
    if FirstList(states) == |states| then |states| else FirstList(states) + 1
  }

  /** The request of a value-mode `run` call for `state`: its value prompt, 10 tokens, temperature 1. */
  function ValueRequest(c: OpenAI, valuePrompt: (string, string) -> string, initialPrompt: string, state: State): Request
  {
    c.ChatRequest("", valuePrompt(initialPrompt, StateText(state)), 1.0, 10, false)
  }

  /** Where the calls for state i begin: where those for state i - 1 ended, or at `start` for the first state. */
  function CallsFrom(start: nat, ends: seq<nat>, i: nat): nat
    requires i <= |ends|
  {
    if i == 0 then start else ends[i - 1]
  }

  /** The reply recorded for state i, if it got one. */
  function ReplyOf(replies: seq<string>, i: nat): Option<string>
  {
    if i < |replies| then Some(replies[i]) else None
  }

  /**
   * State i's `run` call made calls `CallsFrom(start, ends, i)` to `ends[i]`
   * of the service, `tries[i]` of them; all failed but the last, which was
   * answered with `replies[i]` when there is one.
   */
  ghost predicate Aligned(script: nat -> Outcome, start: nat, tries: seq<nat>, ends: seq<nat>, replies: seq<string>)
  {
    && |ends| == |tries|
    && forall i :: 0 <= i < |ends| ==> AlignedAt(script, start, tries, ends, replies, i)
  }

  /** The part of `Aligned` about state i. */
  ghost predicate AlignedAt(script: nat -> Outcome, start: nat, tries: seq<nat>, ends: seq<nat>, replies: seq<string>, i: nat)
    requires i < |ends| == |tries|
  {
    && ends[i] == CallsFrom(start, ends, i) + tries[i]
    && RunCalls(script, CallsFrom(start, ends, i), ends[i], ReplyOf(replies, i))
  }

  /**
   * The value loop's record, when the service's log has gone from `sent0`
   * to `sent`, after the states with the `run` calls in `tries`/`ends` (see
   * `Aligned`): every request sent, in state order, once per call (once each
   * when the timeout is set), and every answer received, which are `replies`.
   */
  ghost predicate ValueLog(c: OpenAI, states: seq<State>, valuePrompt: (string, string) -> string, initialPrompt: string,
                           sent0: seq<Request>, sent: seq<Request>, tries: seq<nat>, ends: seq<nat>, replies: seq<string>)
  {
    && SentLog(c, states, valuePrompt, initialPrompt, sent0, sent, tries, ends)
    && ReplyLog(c.endpoint.script, |sent0|, |sent|, tries, ends, replies)
  }

  /**
   * The requests part of `ValueLog`: the log starts with what was sent
   * before the loop, and the calls of state i, `CallsFrom(.., i)` to
   * `ends[i]`, all carry that state's value request.
   */
  ghost predicate SentLog(c: OpenAI, states: seq<State>, valuePrompt: (string, string) -> string, initialPrompt: string,
                          sent0: seq<Request>, sent: seq<Request>, tries: seq<nat>, ends: seq<nat>)
  {
    && |tries| <= |states| && |ends| == |tries|
    && (forall i :: 0 <= i < |tries| ==> tries[i] >= 1 && (c.rateTimeoutSet ==> tries[i] == 1))
    && sent0 <= sent
    && forall i :: 0 <= i < |ends| ==> SentAt(c, states, valuePrompt, initialPrompt, |sent0|, sent, ends, i)
  }

  /** The part of `SentLog` about state i. */
  ghost predicate SentAt(c: OpenAI, states: seq<State>, valuePrompt: (string, string) -> string, initialPrompt: string,
                         start: nat, sent: seq<Request>, ends: seq<nat>, i: nat)
    requires i < |ends| && i < |states|
  {
    && ends[i] <= |sent|
    && forall j :: CallsFrom(start, ends, i) <= j < ends[i] ==> sent[j] == ValueRequest(c, valuePrompt, initialPrompt, states[i])
  }

  /** The answers part of `ValueLog`, for the calls `start` to `end` of the service. */
  ghost predicate ReplyLog(script: nat -> Outcome, start: nat, end: nat, tries: seq<nat>, ends: seq<nat>, replies: seq<string>)
  {
    && Aligned(script, start, tries, ends, replies)
    && end == CallsFrom(start, ends, |ends|)
    && replies == Answers(script, start, end)
  }

  /**
   * Value-mode `evaluate_states` has done its work. State i's `run` call
   * sent its request `tries[i]` times, as calls `CallsFrom(.., i)` to
   * `ends[i]` of the service; all of them failed but the last, which was
   * answered with `replies[i]`. Either the last state's calls all failed and
   * the sleep raised, before any later state was tried, or there was one
   * answered `run` call per state up to the first list state, and the result
   * is the value table or the list state's `TypeError`.
   */
  twostate predicate ValueScored(c: OpenAI, states: seq<State>, valuePrompt: (string, string) -> string, initialPrompt: string,
                                 parse: string -> Option<real>, new r: Result<map<State, real>, Error>,
                                 replies: seq<string>, tries: seq<nat>, ends: seq<nat>)
    reads c.endpoint
  {
    && ValueLog(c, states, valuePrompt, initialPrompt, old(c.endpoint.sent), c.endpoint.sent, tries, ends, replies)
    && (r == Err(TimeoutNotNumber) ==> c.rateTimeoutSet && |replies| + 1 == |tries| <= ValueCalls(states))
    && (r != Err(TimeoutNotNumber) ==>
          && |replies| == |tries| == ValueCalls(states)
          && r == (if FirstList(states) == |states| then Ok(ValueTable(states, replies, parse)) else Err(UnhashableState)))
  }

  /**
   * The loop of value-mode `evaluate_states`: for each state, one `run` call
   * with the state's prompt, its reply parsed into a score and stored under
   * the state. A list state raises once its call has been made.
   */
  method ValueLoop(c: OpenAI, states: seq<State>, valuePrompt: (string, string) -> string, initialPrompt: string,
                   parse: string -> Option<real>)
    returns (r: Result<map<State, real>, Error>, ghost replies: seq<string>, ghost tries: seq<nat>, ghost ends: seq<nat>)
    requires c.Serves(ValueCalls(states))
    modifies c.endpoint
    ensures ValueScored(c, states, valuePrompt, initialPrompt, parse, r, replies, tries, ends)
  {
    var e := c.endpoint;
    var table: map<State, real> := map[];
    replies, tries, ends := [], [], [];
    ghost var m: nat := 0;
    if !c.rateTimeoutSet {
      m :| |Answers(e.script, |e.sent|, m)| >= ValueCalls(states);
    }
    for i := 0 to |states|
      invariant |replies| == i && |tries| == i
      invariant i <= FirstList(states)
      invariant ValueLog(c, states, valuePrompt, initialPrompt, old(e.sent), e.sent, tries, ends, replies)
      invariant table == ValueTable(states[..i], replies, parse)
      invariant !c.rateTimeoutSet ==> |Answers(e.script, |e.sent|, m)| >= ValueCalls(states) - i
    {
      var state := states[i];
      assert state.List? ==> FirstList(states) == i;
      assert !state.List? ==> i + 1 <= FirstList(states);
      ghost var before := e.sent;
      var response;
      ghost var t;
      response, t := ValueCall(c, states, valuePrompt, initialPrompt, i, m);
      ValueLogStep(c, states, valuePrompt, initialPrompt, i, old(e.sent), tries, ends, replies, before, e.sent, t, response);
      ghost var x: nat := |e.sent|;
      tries, ends := tries + [t], ends + [x];
      if response.Err? {
        return Err(TimeoutNotNumber), replies, tries, ends;
      }
      ValueTableSnoc(states, i, replies, response.value, parse);
      replies := replies + [response.value];
      var value := Score(parse(response.value));
      if state.List? {
        return Err(UnhashableState), replies, tries, ends;
      }
      table := table[state := value];
    }
    assert states[..|states|] == states;
    return Ok(table), replies, tries, ends;
  }

  /** One more state's `run` call, made right after the earlier ones, keeps the calls aligned with the states. */
  lemma {:induction false} AlignedSnoc(script: nat -> Outcome, start: nat, tries: seq<nat>, ends: seq<nat>, replies: seq<string>,
                    t: nat, x: nat, answer: Option<string>, replies': seq<string>)
    requires Aligned(script, start, tries, ends, replies) && |replies| == |ends|
    requires x == CallsFrom(start, ends, |ends|) + t
    requires RunCalls(script, CallsFrom(start, ends, |ends|), x, answer)
    requires replies' == if answer.Some? then replies + [answer.value] else replies
    ensures CallsFrom(start, ends + [x], |ends| + 1) == x
    ensures Aligned(script, start, tries + [t], ends + [x], replies')
  {
    var ends', tries' := ends + [x], tries + [t];
    forall i | 0 <= i < |ends'|
      ensures AlignedAt(script, start, tries', ends', replies', i)
    {
      assert CallsFrom(start, ends', i) == CallsFrom(start, ends, i);
      if i < |ends| {
        assert AlignedAt(script, start, tries, ends, replies, i);
        assert ends'[i] == ends[i] && tries'[i] == tries[i];
        assert ReplyOf(replies', i) == ReplyOf(replies, i);
      } else {
        assert ends'[i] == x && tries'[i] == t;
        assert ReplyOf(replies', i) == answer;
      }
    }
  }

  /**
   * The `run` call for state i of the value loop: its request is sent `t`
   * times, all of them failing but the last. When the timeout is unset, the
   * answers up to call `m` of the service suffice for this state and the
   * states after it, and an answered call leaves enough of them for the rest.
   */
  method ValueCall(c: OpenAI, states: seq<State>, valuePrompt: (string, string) -> string, initialPrompt: string, i: nat,
                   ghost m: nat)
    returns (response: Result<string, Error>, ghost t: nat)
    requires i < |states| && i <= FirstList(states)
    requires !c.rateTimeoutSet ==> |Answers(c.endpoint.script, |c.endpoint.sent|, m)| >= ValueCalls(states) - i
    modifies c.endpoint
    ensures t >= 1 && (c.rateTimeoutSet ==> t == 1)
    ensures c.endpoint.sent == old(c.endpoint.sent) + Repeat(ValueRequest(c, valuePrompt, initialPrompt, states[i]), t)
    ensures RunCalls(c.endpoint.script, |old(c.endpoint.sent)|, |c.endpoint.sent|, AnswerOf(response))
    ensures Answers(c.endpoint.script, |old(c.endpoint.sent)|, |c.endpoint.sent|) == (if response.Ok? then [response.value] else [])
    ensures response.Err? ==> response == Err(TimeoutNotNumber) && c.rateTimeoutSet
    ensures response.Ok? ==> i + 1 <= ValueCalls(states)
    ensures response.Ok? && !c.rateTimeoutSet ==>
      |Answers(c.endpoint.script, |c.endpoint.sent|, m)| >= ValueCalls(states) - (i + 1)
  {
    var e := c.endpoint;
    ghost var script := e.script;
    ghost var sentBefore := e.sent;
    response := c.Run(valuePrompt(initialPrompt, StateText(states[i])), "", 10, 1.0);
    t := |e.sent| - |sentBefore|;
    ValueCallAhead(states, i, script, |sentBefore|, |e.sent|, m);
  }

  /** The value loop's record after the `run` call for state i, from what `run` guarantees. */
  lemma {:induction false} ValueLogStep(c: OpenAI, states: seq<State>, valuePrompt: (string, string) -> string, initialPrompt: string,
                     i: nat, sent0: seq<Request>, tries: seq<nat>, ends: seq<nat>, replies: seq<string>,
                     before: seq<Request>, after: seq<Request>, t: nat, response: Result<string, Error>)
    requires i < |states| && |tries| == i == |replies|
    requires ValueLog(c, states, valuePrompt, initialPrompt, sent0, before, tries, ends, replies)
    requires t >= 1 && (c.rateTimeoutSet ==> t == 1)
    requires after == before + Repeat(ValueRequest(c, valuePrompt, initialPrompt, states[i]), t)
    requires RunCalls(c.endpoint.script, |before|, |after|, AnswerOf(response))
    requires Answers(c.endpoint.script, |before|, |after|) == (if response.Ok? then [response.value] else [])
    ensures response.Err? ==>
      ValueLog(c, states, valuePrompt, initialPrompt, sent0, after, tries + [t], ends + [|after|], replies)
    ensures response.Ok? ==>
      ValueLog(c, states, valuePrompt, initialPrompt, sent0, after, tries + [t], ends + [|after|], replies + [response.value])
  {
    SentLogStep(c, states, valuePrompt, initialPrompt, i, sent0, tries, ends, before, after, t);
    ReplyLogStep(c.endpoint.script, |sent0|, |before|, |after|, tries, ends, replies, t, AnswerOf(response));
  }

  /** The requests part of `ValueLogStep`. */
  lemma {:induction false} SentLogStep(c: OpenAI, states: seq<State>, valuePrompt: (string, string) -> string, initialPrompt: string,
                                       i: nat, sent0: seq<Request>, tries: seq<nat>, ends: seq<nat>,
                                       before: seq<Request>, after: seq<Request>, t: nat)
    requires i < |states| && |tries| == i
    requires SentLog(c, states, valuePrompt, initialPrompt, sent0, before, tries, ends)
    requires |before| == CallsFrom(|sent0|, ends, |ends|)
    requires t >= 1 && (c.rateTimeoutSet ==> t == 1)
    requires after == before + Repeat(ValueRequest(c, valuePrompt, initialPrompt, states[i]), t)
    ensures SentLog(c, states, valuePrompt, initialPrompt, sent0, after, tries + [t], ends + [|after|])
  {
    var request := ValueRequest(c, valuePrompt, initialPrompt, states[i]);
    var ends' := ends + [|after|];
    TriesSnoc(tries, t, c.rateTimeoutSet, tries + [t]);
    forall k | 0 <= k < |ends'|
      ensures SentAt(c, states, valuePrompt, initialPrompt, |sent0|, after, ends', k)
    {
      var from := CallsFrom(|sent0|, ends, k);
      assert CallsFrom(|sent0|, ends', k) == from;
      if k < |ends| {
        assert SentAt(c, states, valuePrompt, initialPrompt, |sent0|, before, ends, k);
        assert ends'[k] == ends[k];
        forall j | from <= j < ends[k]
          ensures after[j] == before[j]
        {
        }
      } else {
        forall j | from <= j < |after|
          ensures after[j] == request
        {
          assert after[j] == Repeat(request, t)[j - |before|];
        }
      }
    }
    assert sent0 <= before <= after;
  }

  /** The answers part of `ValueLogStep`: calls `before` to `after` were the next state's `run` call. */
  lemma {:induction false} ReplyLogStep(script: nat -> Outcome, start: nat, before: nat, after: nat,
                                        tries: seq<nat>, ends: seq<nat>, replies: seq<string>, t: nat, answer: Option<string>)
    requires |replies| == |ends|
    requires ReplyLog(script, start, before, tries, ends, replies)
    requires after == before + t
    requires RunCalls(script, before, after, answer)
    requires Answers(script, before, after) == (if answer.Some? then [answer.value] else [])
    ensures answer.None? ==> ReplyLog(script, start, after, tries + [t], ends + [after], replies)
    ensures answer.Some? ==> ReplyLog(script, start, after, tries + [t], ends + [after], replies + [answer.value])
  {
    var replies' := if answer.Some? then replies + [answer.value] else replies;
    AnswersSplit(script, start, before, after);
    AlignedSnoc(script, start, tries, ends, replies, t, after, answer, replies');
  }

  /** A `run` call that sent its request at least once, and once only with the timeout set, keeps the counts in range. */
  lemma {:induction false} TriesSnoc(tries: seq<nat>, t: nat, once: bool, tries': seq<nat>)
    requires forall i :: 0 <= i < |tries| ==> tries[i] >= 1 && (once ==> tries[i] == 1)
    requires t >= 1 && (once ==> t == 1)
    requires tries' == tries + [t]
    ensures forall i :: 0 <= i < |tries'| ==> tries'[i] >= 1 && (once ==> tries'[i] == 1)
  {
  }

  /**
   * The value loop's `run` call for state i leaves enough answers ahead for
   * the states after it, when it was answered: its one answer was the first
   * in its calls.
   */
  lemma {:induction false} ValueCallAhead(states: seq<State>, i: nat, script: nat -> Outcome, before: nat, after: nat, m: nat)
    requires i < |states| && i <= FirstList(states)
    requires before < after && forall j :: before <= j < after - 1 ==> !script(j).Whole?
    ensures i + 1 <= ValueCalls(states)
    ensures script(after - 1).Whole? && |Answers(script, before, m)| >= ValueCalls(states) - i ==>
      |Answers(script, after, m)| >= ValueCalls(states) - (i + 1)
  {
    if script(after - 1).Whole? && |Answers(script, before, m)| >= ValueCalls(states) - i {
      AnswersAfterRun(script, before, after, m, ValueCalls(states) - i);
    }
  }

  // Scoring by vote.

  /**
   * Vote-mode scores: `1` for the state equal to `tuple(reply.split())`, `0`
   * for every other; a list state raises as a dictionary key.
   */
  function VoteScores(states: seq<State>, reply: string): (r: Result<map<State, real>, Error>)
    ensures r.Err? <==> exists i :: 0 <= i < |states| && states[i].List?
    ensures r.Err? ==> r.error == UnhashableState
    ensures r.Ok? ==> r.value.Keys == set s | s in states
    ensures r.Ok? ==> forall s :: s in r.value ==> r.value[s] == 0.0 || r.value[s] == 1.0
    ensures r.Ok? ==> forall s :: s in r.value ==> (r.value[s] == 1.0 <==> s == Tuple(Words(reply)))
  {
    if exists i :: 0 <= i < |states| && states[i].List? then Err(UnhashableState)
    else Ok(map s | s in states :: if s == Tuple(Words(reply)) then 1.0 else 0.0)
  }

  /** In vote mode at most one state scores 1, and a string state never does. */
  lemma AtMostOneVote(states: seq<State>, reply: string)
    requires VoteScores(states, reply).Ok?
    ensures var scores := VoteScores(states, reply).value;
      && (forall s, t :: s in scores && t in scores && scores[s] == 1.0 && scores[t] == 1.0 ==> s == t)
      && (forall s :: s in scores && !s.Tuple? ==> scores[s] == 0.0)
  {
  }

  /**
   * A reply that repeats a tuple state's line of the vote prompt elects that
   * state, and only it, when the state's items are words.
   */
  lemma EchoedStateWins(states: seq<State>, i: nat)
    requires i < |states| && states[i].Tuple?
    requires forall j :: 0 <= j < |states[i].items| ==> IsWord(states[i].items[j])
    requires forall j :: 0 <= j < |states| ==> !states[j].List?
    ensures var r := VoteScores(states, VoteLine(states[i]));
      && r.Ok?
      && r.value[states[i]] == 1.0
      && forall s :: s in r.value && s != states[i] ==> r.value[s] == 0.0
  {
    WordsOfJoin(states[i].items);
  }

  /**
   * A tuple state with an item that is not a single word, such as a thought
   * holding a space, scores 0 whatever the reply: `reply.split()` never
   * yields such an item.
   */
  lemma SpacedTupleNeverWins(states: seq<State>, i: nat, reply: string)
    requires i < |states| && states[i].Tuple?
    requires exists j :: 0 <= j < |states[i].items| && !IsWord(states[i].items[j])
    requires VoteScores(states, reply).Ok?
    ensures VoteScores(states, reply).value[states[i]] == 0.0
  {
    WordsAreWords(reply);
  }

  // The two drivers.

  /** `AlgorithmModelProcesses`: value scoring only, the strategy being read from the model. */
  class AlgorithmModelProcesses {
    const llm: Option<OpenAI>

    /** Looks `modelToUse` up in the `Models` enumeration, whose one member holds `openAI`. */
    constructor (modelToUse: string, openAI: OpenAI)
      ensures llm == (if modelToUse == "OpenAI" then Some(openAI) else None)
    {
      var members := ModelsEnum(openAI);
      assert |members| == 1 && members[0] == Member("OpenAI", openAI);
      var m := GetModel(members, modelToUse);
      llm := m;
    }

    /** `generate_thoughts`: `k` samples of the objective and the rendered state. */
    method GenerateThoughts(state: State, initialPrompt: string, k: int, rejected: string)
      returns (r: Result<seq<string>, Error>)
      modifies EndpointOf(llm)
      ensures SampledBy(llm, StepsSystemPrompt, AlgThoughtPrompt(initialPrompt, StateText(state)), 1000, 0.5, k, r)
    {
      r := GenerateText(llm, AlgThoughtPrompt(initialPrompt, StateText(state)), StepsSystemPrompt, 1000, 0.5, k);
    }

    /**
     * `generate_solution`: one sample at temperature 0. The emptiness check
     * never fires on a one-element list, so None comes only from an exception.
     */
    method GenerateSolution(initialPrompt: string, state: State, rejected: string)
      returns (r: Option<seq<string>>)
      modifies EndpointOf(llm)
      ensures llm.None? ==> r.None?
      ensures llm.Some? ==>
        var c := llm.value;
        var start := |old(c.endpoint.sent)|;
        && c.endpoint.sent == old(c.endpoint.sent) + [c.ChatRequest("", AlgSolutionPrompt(SolutionStateText(state), initialPrompt, rejected), 0.0, 2048, c.stream)]
        && r == match Reply(c.endpoint.script(start), c.stream)
                case Ok(x) => Some([x])
                case Err(_) => None
    {
      ghost var start := if llm.Some? then |llm.value.endpoint.sent| else 0;
      var prompt := AlgSolutionPrompt(SolutionStateText(state), initialPrompt, rejected);
      var answer := GenerateText(llm, prompt, "", 2048, 0.0, 1);
      if llm.Some? {
        SingleSample(llm.value.endpoint.script, start, llm.value.stream);
      }
      match answer {
        case Err(_) =>
          r := None;
        case Ok(a) =>
          r := if NoAnswer(a) then None else Some(a);
      }
    }

    /**
     * `evaluate_states`: `{}` for no states; otherwise the model's strategy
     * decides, "value" running the value loop and any other raising.
     */
    method EvaluateStates(states: seq<State>, initialPrompt: string, parse: string -> Option<real>)
      returns (r: Result<map<State, real>, Error>, ghost replies: seq<string>, ghost tries: seq<nat>, ghost ends: seq<nat>)
      requires states != [] && llm.Some? && llm.value.evaluationStrategy == "value" ==> llm.value.Serves(ValueCalls(states))
      modifies EndpointOf(llm)
      ensures states == [] ==> r == Ok(map[]) && unchanged(EndpointOf(llm))
      ensures states != [] && llm.None? ==> r == Err(NoModel)
      ensures states != [] && llm.Some? && llm.value.evaluationStrategy != "value" ==>
        r == Err(InvalidStrategy) && unchanged(EndpointOf(llm))
      ensures states != [] && llm.Some? && llm.value.evaluationStrategy == "value" ==>
        ValueScored(llm.value, states, AlgValuePrompt, initialPrompt, parse, r, replies, tries, ends)
    {
      replies, tries, ends := [], [], [];
      if states == [] {
        return Ok(map[]), replies, tries, ends;
      }
      if llm.None? {
        return Err(NoModel), replies, tries, ends;
      }
      var c := llm.value;
      if c.evaluationStrategy == "value" {
        r, replies, tries, ends := ValueLoop(c, states, AlgValuePrompt, initialPrompt, parse);
      } else {
        r := Err(InvalidStrategy);
      }
    }
  }

  /** `not answer or answer == ''` on the list `generate_text` returns: a list never equals a string. */
  predicate NoAnswer(answer: seq<string>)
  {
    |answer| == 0
  }

  /** `TreeModelProcesses`: value or vote scoring, the strategy being its own setting. */
  class TreeModelProcesses {
    const llm: Option<OpenAI>
    const reActPrompt: string
    const strategy: string
    const evaluationStrategy: string

    constructor (modelToUse: string, enableReActPrompting: bool, strategy: string, evaluationStrategy: string, openAI: OpenAI)
      ensures llm == (if modelToUse == "OpenAI" then Some(openAI) else None)
      ensures reActPrompt == (if enableReActPrompting then ReActInstruction else "")
      ensures this.strategy == strategy && this.evaluationStrategy == evaluationStrategy
    {
      var members := ModelsEnum(openAI);
      assert |members| == 1 && members[0] == Member("OpenAI", openAI);
      var m := GetModel(members, modelToUse);
      llm := m;
      reActPrompt := if enableReActPrompting then ReActInstruction else "";
      this.strategy := strategy;
      this.evaluationStrategy := evaluationStrategy;
    }

    /** `generate_thoughts`: `k` samples of the rendered state, the objective and the rejected solutions. */
    method GenerateThoughts(state: State, k: int, initialPrompt: string, rejected: string)
      returns (r: Result<seq<string>, Error>)
      modifies EndpointOf(llm)
      ensures SampledBy(llm, "", TreeThoughtPrompt(StateText(state), initialPrompt, rejected) + reActPrompt, 1000, 0.5, k, r)
    {
      var prompt := TreeThoughtPrompt(StateText(state), initialPrompt, rejected) + reActPrompt;
      r := GenerateText(llm, prompt, "", 1000, 0.5, k);
    }

    /** `generate_solution`: one sample, None when it raised. */
    method GenerateSolution(initialPrompt: string, state: State, rejected: string)
      returns (r: Option<seq<string>>)
      modifies EndpointOf(llm)
      ensures llm.None? ==> r.None?
      ensures llm.Some? ==>
        var c := llm.value;
        var start := |old(c.endpoint.sent)|;
        && c.endpoint.sent == old(c.endpoint.sent) + [c.ChatRequest("", TreeSolutionPrompt(SolutionStateText(state), initialPrompt, rejected), 0.5, 1000, c.stream)]
        && r == match Reply(c.endpoint.script(start), c.stream)
                case Ok(x) => Some([x])
                case Err(_) => None
    {
      ghost var start := if llm.Some? then |llm.value.endpoint.sent| else 0;
      var prompt := TreeSolutionPrompt(SolutionStateText(state), initialPrompt, rejected);
      var answer := GenerateText(llm, prompt, "", 1000, 0.5, 1);
      if llm.Some? {
        SingleSample(llm.value.endpoint.script, start, llm.value.stream);
      }
      r := if answer.Ok? then Some(answer.value) else None;
    }

    /**
     * `evaluate_states`: `{}` for no states; "value" runs the value loop,
     * "vote" makes one `run` call listing every state and scores the states
     * against its reply, and any other strategy raises.
     */
    method EvaluateStates(states: seq<State>, initialPrompt: string, parse: string -> Option<real>)
      returns (r: Result<map<State, real>, Error>, ghost replies: seq<string>, ghost tries: seq<nat>, ghost ends: seq<nat>)
      requires states != [] && llm.Some? && evaluationStrategy == "value" ==> llm.value.Serves(ValueCalls(states))
      requires states != [] && llm.Some? && evaluationStrategy == "vote" ==> llm.value.Serves(1)
      modifies EndpointOf(llm)
      ensures states == [] ==> r == Ok(map[]) && unchanged(EndpointOf(llm))
      ensures states != [] && evaluationStrategy != "value" && evaluationStrategy != "vote" ==>
        r == Err(InvalidStrategy) && unchanged(EndpointOf(llm))
      ensures states != [] && (evaluationStrategy == "value" || evaluationStrategy == "vote") && llm.None? ==>
        r == Err(NoModel)
      ensures states != [] && evaluationStrategy == "value" && llm.Some? ==>
        ValueScored(llm.value, states, TreeValuePrompt, initialPrompt, parse, r, replies, tries, ends)
      ensures states != [] && evaluationStrategy == "vote" && llm.Some? ==>
        var c := llm.value;
        var s, e := |old(c.endpoint.sent)|, |c.endpoint.sent|;
        && s < e
        && c.endpoint.sent == old(c.endpoint.sent) +
             Repeat(c.ChatRequest("", VotePrompt(VoteListing(states), initialPrompt), 1.0, 50, false), e - s)
        && (c.rateTimeoutSet ==> e == s + 1)
        && replies == Answers(c.endpoint.script, s, e)
        && |replies| <= 1
        && RunCalls(c.endpoint.script, s, e, ReplyOf(replies, 0))
        && (|replies| == 1 ==> r == VoteScores(states, replies[0]))
        && (|replies| == 0 ==> c.rateTimeoutSet && r == Err(TimeoutNotNumber))
    {
      replies, tries, ends := [], [], [];
      if states == [] {
        return Ok(map[]), replies, tries, ends;
      }
      if evaluationStrategy == "value" {
        if llm.None? {
          return Err(NoModel), replies, tries, ends;
        }
        r, replies, tries, ends := ValueLoop(llm.value, states, TreeValuePrompt, initialPrompt, parse);
      } else if evaluationStrategy == "vote" {
        if llm.None? {
          return Err(NoModel), replies, tries, ends;
        }
        var c := llm.value;
        var response := c.Run(VotePrompt(VoteListing(states), initialPrompt), "", 50, 1.0);
        if response.Ok? {
          replies := [response.value];
          r := VoteScores(states, response.value);
        } else {
          r := Err(response.error);
        }
      } else {
        r := Err(InvalidStrategy);
      }
    }
  }
}
