/** The agent of agent_graph.py: the two graph nodes `fetch_patient_context`
    and `generate_response`, run one after the other, and `invoke_agent`,
    which prepares the initial state and shapes the result. The language
    model, `json.loads`, the clock, `str()` of lists and dicts and `str()` of
    exceptions are collaborators the model receives in an `Env`. */
module AgentGraph {
  import opened Wrappers
  import opened Text
  import opened Json
  import opened ActionBlocks
  import opened Digest

  datatype Role = System | Human | Assistant

  /** One message of the conversation history. */
  datatype Turn = Turn(role: Role, content: string)

  /** What `llm.invoke` does: it answers with a text, or raises with a message. */
  datatype Reply = Answered(text: string) | Failed(error: string)

  /** The collaborators: the language model on a message history, `json.loads`,
      the `k`-th millisecond clock reading, `str()` of a list or dict, and
      `str(e)` of an exception the runtime raises. */
  datatype Env = Env(
    llm: seq<Turn> -> Reply,
    parse: string -> JsonParse,
    clock: nat -> nat,
    repr: Value -> string,
    explain: Fault -> string)

  // ---------------------------------------------------------------------------
  // fetch_patient_context (lines 38-60)

  const ListKeys: set<string> := {"appointments", "prescriptions", "records", "labTests", "patients"}
  const ContextKeys: set<string> := {"name", "stats"} + ListKeys

  /** The context restricted to its seven keys, each defaulted when absent. */
  function FetchPatientContext(existing: map<string, Value>): (ctx: map<string, Value>)
    ensures ctx.Keys == ContextKeys
    ensures forall k :: k in ContextKeys && k in existing ==> ctx[k] == existing[k]
    ensures "name" !in existing ==> ctx["name"] == Str("Doctor")
    ensures forall k :: k in ListKeys && k !in existing ==> ctx[k] == Arr([])
    ensures "stats" !in existing ==> ctx["stats"] == Obj(map[])
  {
    map[
      "name" := Get(existing, "name", Str("Doctor")),
      "appointments" := Get(existing, "appointments", Arr([])),
      "prescriptions" := Get(existing, "prescriptions", Arr([])),
      "records" := Get(existing, "records", Arr([])),
      "labTests" := Get(existing, "labTests", Arr([])),
      "patients" := Get(existing, "patients", Arr([])),
      "stats" := Get(existing, "stats", Obj(map[]))]
  }

  /** Normalising a normalised context changes nothing. */
  lemma FetchIdempotent(existing: map<string, Value>)
    ensures FetchPatientContext(FetchPatientContext(existing)) == FetchPatientContext(existing)
  {
    var once := FetchPatientContext(existing);
    var twice := FetchPatientContext(once);
    assert twice.Keys == once.Keys;
    forall k | k in once ensures twice[k] == once[k] {
    }
  }

  // ---------------------------------------------------------------------------
  // generate_response (lines 66-273)

  /** What `generate_response` writes back into the state. */
  datatype Update = Update(messages: seq<Turn>, response: string, actions: seq<Action>)

  const ApologyHead: string := "I apologize, but I'm experiencing technical difficulties right now. Error: "
  const ApologyTail: string := "\n\nPlease try again in a moment or contact support if this persists."

  /** The reply shown when the `try` block raises (line 268). */
  function Apology(error: string): string {
    ApologyHead + error + ApologyTail
  }

  /** The apology quotes the error right after its first sentence. */
  lemma ApologyQuotes(error: string)
    ensures var a := Apology(error);
      |ApologyHead| + |error| <= |a| && a[|ApologyHead|..|ApologyHead| + |error|] == error
  {
    var a := Apology(error);
    assert a == ApologyHead + (error + ApologyTail);
    assert a[|ApologyHead|..] == error + ApologyTail;
  }

  /** The `except` branch (lines 267-273): the apology as the assistant's turn. */
  function Recover(messages: seq<Turn>, error: string): Update {
    var apology := Apology(error);
    Update(messages + [Turn(Assistant, apology)], apology, [])
  }

  /** The `try` block (lines 237-265): the model is asked with the system
      prompt in front of the history; its reply is split into actions and
      display text. A failing model and an action block that decodes to a
      non-dict both end in the apology. */
  function Attempt(prompt: string, messages: seq<Turn>, env: Env): Update {
    match env.llm([Turn(System, prompt)] + messages)
    case Failed(e) => Recover(messages, e)
    case Answered(text) =>
      match ExtractActions(text, env.parse, env.clock)
      case Err(f) => Recover(messages, env.explain(f))
      case Ok(acts) =>
        var clean := RemoveActionBlocks(text);
        Update(messages + [Turn(Assistant, clean)], clean, acts)
  }

  /** `generate_response` on a normalised context: the digest, which can
      raise, then the `try` block, which cannot. */
  function Generate(ctx: map<string, Value>, messages: seq<Turn>, env: Env): Result<Update, Fault> {
    var parts :- DigestOf(ctx, env.repr);
    Ok(Attempt(SystemPrompt(parts, env.repr), messages, env))
  }

  /** Whatever the model does, the `try` block adds exactly one assistant turn,
      whose text is the response. */
  lemma AttemptHistory(prompt: string, messages: seq<Turn>, env: Env)
    ensures var u := Attempt(prompt, messages, env);
      u.messages == messages + [Turn(Assistant, u.response)]
  {
  }

  /** When the model answers and no action block decodes to a non-dict, the
      response is the reply with its action blocks removed, and the actions
      are those the reply proposes. */
  lemma AttemptAnswers(prompt: string, messages: seq<Turn>, env: Env, text: string)
    ensures env.llm([Turn(System, prompt)] + messages) == Answered(text) && ExtractActions(text, env.parse, env.clock).Ok? ==>
      Attempt(prompt, messages, env) ==
      Update(messages + [Turn(Assistant, RemoveActionBlocks(text))], RemoveActionBlocks(text),
             ExtractActions(text, env.parse, env.clock).value)
  {
  }

  /** A model that raises, or an action block that decodes to a non-dict, gives
      the apology quoting the error, and no action. */
  lemma AttemptApologises(prompt: string, messages: seq<Turn>, env: Env)
    ensures var reply := env.llm([Turn(System, prompt)] + messages);
      var u := Attempt(prompt, messages, env);
      && (reply.Failed? ==> u.response == Apology(reply.error) && u.actions == [])
      && (reply.Answered? && ExtractActions(reply.text, env.parse, env.clock).Err? ==>
            u.response == Apology(env.explain(ExtractActions(reply.text, env.parse, env.clock).error)) && u.actions == [])
  {
  }

  /** `generate_response` raises exactly when building the digest raises;
      otherwise its update is that of the `try` block on the prompt. */
  lemma GenerateRaises(ctx: map<string, Value>, messages: seq<Turn>, env: Env)
    ensures var g, d := Generate(ctx, messages, env), DigestOf(ctx, env.repr);
      && (g.Err? <==> d.Err?)
      && (g.Err? ==> g.error == d.error)
      && (g.Ok? ==> g.value == Attempt(SystemPrompt(d.value, env.repr), messages, env))
  {
  }

  /** Whatever the model does, the history grows by exactly one assistant turn,
      whose text is the response, and the earlier turns stay as they were. */
  lemma GenerateHistory(ctx: map<string, Value>, messages: seq<Turn>, env: Env)
    ensures Generate(ctx, messages, env).Ok? ==>
      var u := Generate(ctx, messages, env).value;
      && u.messages == messages + [Turn(Assistant, u.response)]
      && |u.messages| == |messages| + 1
      && u.messages[..|messages|] == messages
  {
    GenerateRaises(ctx, messages, env);
    if Generate(ctx, messages, env).Ok? {
      var u := Generate(ctx, messages, env).value;
      AttemptHistory(SystemPrompt(DigestOf(ctx, env.repr).value, env.repr), messages, env);
      AppendedKeepsPrefix(messages, Turn(Assistant, u.response));
    }
  }

  lemma AppendedKeepsPrefix<T>(xs: seq<T>, x: T)
    ensures (xs + [x])[..|xs|] == xs
  {
  }

  /** The `try` block as the source runs it. */
  method Try(prompt: string, messages: seq<Turn>, env: Env) returns (u: Update)
    ensures u == Attempt(prompt, messages, env)
  {
    var reply := env.llm([Turn(System, prompt)] + messages);
    if reply.Failed? {
      return Recover(messages, reply.error);
    }
    var actions := ParseActions(reply.text, env.parse, env.clock);
    if actions.Err? {
      return Recover(messages, env.explain(actions.error));
    }
    var clean := RemoveActionBlocks(reply.text);
    return Update(messages + [Turn(Assistant, clean)], clean, actions.value);
  }

  /** `generate_response` as the source runs it: the summaries built in turn,
      then the `try` block. */
  method GenerateResponse(ctx: map<string, Value>, messages: seq<Turn>, env: Env) returns (r: Result<Update, Fault>)
    ensures r == Generate(ctx, messages, env)
  {
    var parts := BuildDigest(ctx, env.repr);
    if parts.Err? {
      return Err(parts.error);
    }
    var u := Try(SystemPrompt(parts.value, env.repr), messages, env);
    return Ok(u);
  }

  // ---------------------------------------------------------------------------
  // invoke_agent (lines 349-392)

  /** `thread_id or f"thread-{user_id}"`: a missing or empty thread id falls back. */
  function ThreadId(userId: string, threadId: Option<string>): (t: string)
    ensures threadId.Some? && threadId.value != "" ==> t == threadId.value
    ensures threadId.None? || threadId.value == "" ==> t == "thread-" + userId
  {
    if threadId.Some? && threadId.value != "" then threadId.value else "thread-" + userId
  }

  /** `{"name": user_name}` updated with the supplied context when it is truthy. */
  function InitialContext(userName: string, supplied: Option<map<string, Value>>): (ctx: map<string, Value>)
    ensures supplied.Some? ==> ctx.Keys == {"name"} + supplied.value.Keys
    ensures supplied.Some? ==> forall k :: k in supplied.value ==> ctx[k] == supplied.value[k]
    ensures supplied.None? || "name" !in supplied.value ==> "name" in ctx && ctx["name"] == Str(userName)
    ensures supplied.None? || supplied.value == map[] ==> ctx == map["name" := Str(userName)]
  {
    var base := map["name" := Str(userName)];
    if supplied.Some? && supplied.value != map[] then base + supplied.value else base
  }

  const ErrorPrefix: string := "Error invoking agent: "

  /** The result dict of `invoke_agent` (lines 383-389). */
  function ResultDict(u: Update, userId: string, threadId: string, ctx: map<string, Value>): map<string, Value> {
    map[
      "response" := Str(u.response),
      "actions" := Arr(seq(|u.actions|, k requires 0 <= k < |u.actions| => Obj(u.actions[k]))),
      "user_id" := Str(userId),
      "thread_id" := Str(threadId),
      "patient_context" := Obj(ctx)]
  }

  /** `invoke_agent` with the graph run as its two nodes in sequence: the
      result dict, or the message of the exception it re-raises. */
  function Invoke(userId: string, userName: string, message: string, threadId: Option<string>,
                  supplied: Option<map<string, Value>>, env: Env): Result<map<string, Value>, string> {
    var ctx := FetchPatientContext(InitialContext(userName, supplied));
    match Generate(ctx, [Turn(Human, message)], env)
    case Err(f) => Err(ErrorPrefix + env.explain(f))
    case Ok(u) => Ok(ResultDict(u, userId, ThreadId(userId, threadId), ctx))
  }

  /** The context the agent works on: the supplied context's seven keys, with
      a supplied "name" winning over the user name. */
  lemma InvokeContext(userName: string, supplied: map<string, Value>)
    ensures var ctx := FetchPatientContext(InitialContext(userName, Some(supplied)));
      && ctx["name"] == (if "name" in supplied then supplied["name"] else Str(userName))
      && forall k :: k in ContextKeys && k != "name" && k in supplied ==> ctx[k] == supplied[k]
  {
  }

  /** `invoke_agent` fails exactly when the digest of its context raises, and
      re-raises with the prefix "Error invoking agent: ". */
  lemma InvokeFails(userId: string, userName: string, message: string, threadId: Option<string>,
                    supplied: Option<map<string, Value>>, env: Env)
    ensures var r := Invoke(userId, userName, message, threadId, supplied, env);
      var d := DigestOf(FetchPatientContext(InitialContext(userName, supplied)), env.repr);
      && (r.Err? <==> d.Err?)
      && (r.Err? ==> r.error == ErrorPrefix + env.explain(d.error))
  {
    GenerateRaises(FetchPatientContext(InitialContext(userName, supplied)), [Turn(Human, message)], env);
  }

  /** The result dict holds the five keys, the reply and the actions as dicts. */
  lemma ResultDictFields(u: Update, userId: string, threadId: string, ctx: map<string, Value>)
    ensures var res := ResultDict(u, userId, threadId, ctx);
      && res.Keys == {"response", "actions", "user_id", "thread_id", "patient_context"}
      && res["response"] == Str(u.response)
      && res["actions"].Arr? && |res["actions"].items| == |u.actions|
      && (forall k :: 0 <= k < |u.actions| ==> res["actions"].items[k] == Obj(u.actions[k]))
      && res["user_id"] == Str(userId)
      && res["thread_id"] == Str(threadId)
      && res["patient_context"] == Obj(ctx)
  {
  }

  /** A successful `invoke_agent` returns the update of `generate_response` on
      the normalised context, with the user id and the thread it ran on. */
  lemma InvokeEchoes(userId: string, userName: string, message: string, threadId: Option<string>,
                     supplied: Option<map<string, Value>>, env: Env)
    ensures Invoke(userId, userName, message, threadId, supplied, env).Ok? ==>
      var ctx := FetchPatientContext(InitialContext(userName, supplied));
      var g := Generate(ctx, [Turn(Human, message)], env);
      && g.Ok?
      && Invoke(userId, userName, message, threadId, supplied, env).value
         == ResultDict(g.value, userId, ThreadId(userId, threadId), ctx)
  {
  }

  /** `invoke_agent` as the source runs it: the context dict built and
      updated in place, then the two nodes. */
  method InvokeAgent(userId: string, userName: string, message: string, threadId: Option<string>,
                     supplied: Option<map<string, Value>>, env: Env) returns (r: Result<map<string, Value>, string>)
    ensures r == Invoke(userId, userName, message, threadId, supplied, env)
  {
    var thread := ThreadId(userId, threadId);
    var initial := map["name" := Str(userName)];
    if supplied.Some? && supplied.value != map[] {
      initial := initial + supplied.value;
    }
    var ctx := FetchPatientContext(initial);
    var final := GenerateResponse(ctx, [Turn(Human, message)], env);
    if final.Err? {
      return Err(ErrorPrefix + env.explain(final.error));
    }
    return Ok(ResultDict(final.value, userId, thread, ctx));
  }
}
