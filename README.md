# ModularMind model: thought generation, scoring and the chat-model client

This project models the core of ModularMind's Tree-of-Thoughts driver in Dafny.
The driver asks a chat model for `k` candidate thoughts and for a solution. It
scores reasoning states by value or by vote. Its client folds a streamed reply
out of chunks and retries a blocking call until the call succeeds.

The remote chat-completion service is an oracle. It is an `Endpoint` object.
Its `script(n)` is the outcome of the n-th call: the call raises, returns one
message, or returns a stream of chunks. Every request sent is appended to its
`sent` log, so "exactly k calls" and "no call" can be stated.

- `wrappers.dfy`: `Option` for Python's `None`, `Result` for raised exceptions.
- `pystr.dfy`: `sep.join`, the argument-less `s.split()`, and `s.split("\n")`, which states that rendering a chain can be undone. `s.split()` splits at every whitespace character and drops the empty pieces.
- `models.dfy` (module `Models`, for `framework/models/Models.py`):
  - the `Endpoint` oracle and the `OpenAI` client, with `RunWithStreaming` and `Run`;
  - the chunk fold `CollectStream`, with the `Pieces`/`Concat` specification;
  - `GetModel`, the lookup in the `Models` enumeration.
- `model_processes.dfy` (module `ModelProcesses`, for `framework/models/modelProcesses.py`):
  - states and how they are rendered;
  - `GenerateText` and its `Sample` specification;
  - the value loop, `ValueTable` and `VoteScores`;
  - the classes `AlgorithmModelProcesses` and `TreeModelProcesses`.

A state is `Text`, `Tuple` or `List`, as the Python code distinguishes them:
- A `List` state cannot be a dictionary key. Value and vote scoring raise
  `TypeError` on it, and the model returns `Err(UnhashableState)`.
- In vote mode a state scores 1 only if it equals `tuple(reply.split())`.
  So only a `Tuple` state can ever win; a string state always scores 0.
  Nor can a tuple with an item that is empty or holds whitespace, such as a
  multi-word thought: `reply.split()` never yields such an item.

Four behaviours of the code are easy to misread:
- `generate_solution` returns the one-element list from `generate_text`, never
  a bare string. Its emptiness check (`not answer or answer == ''`) therefore
  never fires. An empty reply comes back as `[""]`, and `None` is returned
  only when an exception escapes.
- Value scores are not clamped to [0, 1]. Any float the reply parses to is
  stored as it is.
- `generate_text` with `k <= 0` makes no call and returns `[]`, even when no
  model was found.
- `run` retries a failed call only while `OPENAI_RATE_TIMEOUT` is unset. When
  it is set, `os.environ.get` returns a string, and `time.sleep` raises
  `TypeError` on it inside the `except` block. So the first failed call ends
  `run` with that exception, and value and vote scoring pass it on. The
  client's `rateTimeoutSet` flag records whether the setting is present, and
  the exception is `Err(TimeoutNotNumber)`.

## Model

| member | source | states |
|---|---|---|
| `Models.CollectStream` | framework/models/Models.py:85-97 | the text is the in-order concatenation of the `content` of every chunk whose delta has no `role` and has `content`; the token count is the number of those chunks |
| `Models.RoleChunkSkipped` | framework/models/Models.py:91-92 | a chunk whose delta carries `role` adds nothing to the text, even when it also carries `content` |
| `Models.PiecesBound` | framework/models/Models.py:93-94 | at most one token is counted per chunk |
| `Models.OpenAI.RunWithStreaming` | framework/models/Models.py:60-108 | exactly one request is sent: system and user messages, the given temperature and token limit, the client's stream flag. Streaming mode returns the folded chunk text; otherwise it returns the message content. A failure or a reply of the wrong shape raises. The session total is the encoded length of both messages plus the chunk count; the caller's total is ignored |
| `Models.OpenAI.Run` | framework/models/Models.py:110-134 | only copies of the same non-streaming request are sent. The calls it makes are one `RunCalls` block: every call but the last failed, and the result is the content of the last one, the first answered with a message. When `OPENAI_RATE_TIMEOUT` is set, a failed first call instead raises the sleep's `TypeError` after exactly one request. When it is unset, every failure is retried and the call never raises |
| `Models.GetModel` | framework/models/Models.py:139-144 | returns the value of the first member named `modelName`, and None exactly when no member has that name |
| `Models.OpenAI.constructor` | framework/models/Models.py:31-54 | the client keeps its model name, stream flag, encoding, strategy and evaluation strategy. `__init__` does not read `OPENAI_RATE_TIMEOUT`: the extra `rateTimeoutSet` argument stands for what `run` reads from the environment after each failed call (Models.py:130), taken as fixed for the client's lifetime |
| `PyStr.WordsAreWords` | framework/models/modelProcesses.py:259 | every element of `reply.split()` is a non-empty run of non-whitespace characters |
| `PyStr.WordsOfJoin` | framework/models/modelProcesses.py:247-259 | splitting the space-joined words on whitespace gives the words back |
| `ModelProcesses.RenderRoundTrip` | framework/models/modelProcesses.py:61-64 | a string state renders as itself; a chain renders as its items joined with newlines. For a non-empty chain whose items hold no newline, that text splits back into the items |
| `ModelProcesses.SolutionRenderAgrees` | framework/models/modelProcesses.py:90-93 | `generate_solution` renders every string state and every list state as state rendering does; for a non-empty list of newline-free items, splitting that text on newlines gives the items back |
| `ModelProcesses.SampleSucceeds` | framework/models/modelProcesses.py:53-58 | `generate_text` succeeds exactly when each of its `k` calls returns. It then yields `max(k, 0)` replies, the i-th being the reply to the i-th call, after exactly `max(k, 0)` calls |
| `ModelProcesses.SampleFails` | framework/models/modelProcesses.py:162-167 | when a call raises, sampling stops there: the last call made is the first that raised, its exception is the result, and every earlier call returned |
| `ModelProcesses.SingleSample` | framework/models/modelProcesses.py:106-107 | one sample is the one-element list of the reply, after exactly one call, so the emptiness check never sees an empty list |
| `ModelProcesses.GenerateText` | framework/models/modelProcesses.py:53-58 | the result is the sampling specification over the calls made, and the same request is sent once per call made. With no model, `k <= 0` gives `[]` and any other `k` raises |
| `ModelProcesses.SampleCalls` | framework/models/modelProcesses.py:54-58 | with a model and positive `k`, the result is the sampling specification from the first call made, and exactly `CallsMade` copies of the one request are sent |
| `ModelProcesses.AlgorithmModelProcesses.constructor` | framework/models/modelProcesses.py:50-51 | the model is found only for the name "OpenAI", and is None for every other name |
| `ModelProcesses.AlgorithmModelProcesses.GenerateThoughts` | framework/models/modelProcesses.py:60-86 | the result is `generate_text` for the rendered state and the objective, with the step system prompt, 1000 tokens, temperature 0.5 and the given `k` |
| `ModelProcesses.AlgorithmModelProcesses.GenerateSolution` | framework/models/modelProcesses.py:88-113 | with a model, one request (2048 tokens, temperature 0) is sent; with no model, none. The result is the one-element list of the reply, including an empty reply, or None when the call raised or no model was found |
| `ModelProcesses.AlgorithmModelProcesses.EvaluateStates` | framework/models/modelProcesses.py:115-142 | no states gives `{}` with no call. No model raises. A model strategy other than "value" raises with no call. "value" runs the value loop with this class's value prompt, with the same requests, answers and result as `ValueLoop` |
| `ModelProcesses.TreeModelProcesses.constructor` | framework/models/modelProcesses.py:147-160 | model lookup by name; the ReAct instruction is used only when enabled; both strategies are kept |
| `ModelProcesses.TreeModelProcesses.GenerateThoughts` | framework/models/modelProcesses.py:169-188 | the result is `generate_text` for the prompt with the ReAct instruction appended, 1000 tokens, temperature 0.5 and the given `k` |
| `ModelProcesses.TreeModelProcesses.GenerateSolution` | framework/models/modelProcesses.py:191-212 | with a model, one request is sent; with no model, none. The result is the one-element list of the reply, or None when the call raised or no model was found |
| `ModelProcesses.TreeModelProcesses.EvaluateStates` | framework/models/modelProcesses.py:214-266 | no states gives `{}` with no call. A strategy other than "value" or "vote" raises with no call. "value" runs the value loop with the pessimistic value prompt. "vote" makes one `run` call, re-sent on failure: every request sent is the vote prompt listing every state. Every call but the last failed. The states are scored against the answer to the last call, or the sleep's `TypeError` is raised when that call failed too |
| `ModelProcesses.ValueLoop` | framework/models/modelProcesses.py:119-139 | one `run` call per state, in order, up to and including the first list state. The sent log is, state by state, `tries[i]` copies of that state's value request. Those copies are the calls `CallsFrom(.., i)` to `ends[i]` of the service. Each copy but the last failed, and the last one was answered with `replies[i]`. When the sleep raises, the loop stops at that state. Every call for that state failed, and each earlier state got one answer. Otherwise every state's `run` call ended in an answer, and the result is the value table of the replies, or a raise at the first list state after its call |
| `ModelProcesses.ValueCall` | framework/models/modelProcesses.py:131-132 | one state's `run` call appends `t` copies of that state's value request to the log, once only with the timeout set. Every copy but the last failed, and the last one holds the answer, if any. It raises only the sleep's `TypeError`, with the timeout set. When the answers up to some call `m` suffice for this state and the ones after it, an answered call leaves enough of them for the states after it |
| `ModelProcesses.ValueTableKeys` | framework/models/modelProcesses.py:218-244 | the value table has exactly one key per distinct input state |
| `ModelProcesses.ValueTableLastWins` | framework/models/modelProcesses.py:133-138 | a state's value is the parsed reply to its last occurrence when it parses, and 0 otherwise |
| `ModelProcesses.VoteScores` | framework/models/modelProcesses.py:259-263 | a list state raises. Otherwise the keys are the input states, every value is 0 or 1, and a state scores 1 exactly when it equals `tuple(reply.split())` |
| `ModelProcesses.AtMostOneVote` | framework/models/modelProcesses.py:263 | at most one state scores 1, and a string state never does |
| `ModelProcesses.EchoedStateWins` | framework/models/modelProcesses.py:247-263 | when no state is a list and every item of a tuple state is a word (non-empty, no whitespace), a reply that repeats that state's line of the vote prompt elects that state and no other |
| `ModelProcesses.SpacedTupleNeverWins` | framework/models/modelProcesses.py:259-263 | a tuple state with an item that is not a word, such as a thought holding a space, scores 0 for every reply |

## Left out

- Logging: the `CustomLogger` class, handler setup, and all `print`/`colored` output, including the token report (`show_token_consumption`). These are output only.
- `OptimizedTreeModelProcesses`, with `parallel_generate_thoughts`, `parallel_evaluate_states` and their caches, which are never read. They add thread-pool concurrency, and both parallel calls pass the wrong arguments.
- `AbstractModelProcesses`: an abstract base class with no behaviour of its own.
- API key and base URL handling: `.env` loading, `set_api_info` and the module-global `openai.api_base`/`openai.api_key`. These are process-wide configuration.
- The real OpenAI client call. It is the `Endpoint` oracle.
- A change to `OPENAI_RATE_TIMEOUT` while a client is in use. `run` reads the variable after every failed call; the model reads it once per client, as `rateTimeoutSet`.
- The length of the sleep between retries: `time.sleep` is modelled only by whether it raises (see `rateTimeoutSet`), not by how long it waits.
- The `tiktoken` encoding. It is the client's `encodedLength` function.
- Python's `float()`. It is a `parse` parameter that gives a real or nothing; float semantics are not modelled.
- The prompts' wording. Each prompt is a short string that embeds the same inputs as the prompts in the Python code.
- `rejected_solutions`: modelled as its already-rendered text.
- `TupleRepr` does not model Python's choice of quotes or its escaping in `str(tuple)`.
- The eager construction of the `Models` enumeration's single `OpenAI()` member. The constructors take that member as a parameter.
- Stream shape: a stream either arrives whole or the call raises. A failure partway through a stream is not modelled separately. `chunk["choices"][0]["delta"]` is reduced to which of `role` and `content` it carries.
- States whose items are not strings.
- Python's distinction between the integer score `0` and floats. All scores are reals.
- Models.OpenAI.Run: requires, when `OPENAI_RATE_TIMEOUT` is unset, that some later call is answered with a message. Without one the Python code retries forever, and that divergence is not modelled.
- ModelProcesses.ValueLoop: requires, when `OPENAI_RATE_TIMEOUT` is unset, that at least as many answers lie ahead as the loop makes `run` calls (`ValueCalls`). That is exactly what it needs to finish; otherwise the Python code loops forever.
- ModelProcesses.AlgorithmModelProcesses.EvaluateStates: has the requirement of `ValueLoop`, and only in the "value" branch with states and a model.
- ModelProcesses.TreeModelProcesses.EvaluateStates: has the requirement of `ValueLoop` in the "value" branch, and that of `Run` in the "vote" branch. The other branches make no call and require nothing.
- Dictionary order: Python dicts keep insertion order, so a repeated state keeps its first position. A Dafny `map` has no order. Nothing in the core reads the order.
