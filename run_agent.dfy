/** The command-line entry point run_agent.py: positional arguments with
    defaults, the context JSON, one call of the agent, and what `main` prints
    on stdout together with its exit code. */
module RunAgent {
  import opened Wrappers
  import opened Text
  import opened Json
  import opened AgentGraph
  import opened Digest

  /** The five positional arguments after the script name. */
  datatype Args = Args(userId: string, userName: string, message: string, threadId: Option<string>, context: string)

  /** `sys.argv[i] if len(sys.argv) > i else default`. */
  function Arg(argv: seq<string>, i: nat, default: string): (a: string)
    ensures |argv| > i ==> a == argv[i]
    ensures |argv| <= i ==> a == default
  {
    if |argv| > i then argv[i] else default
  }

  /** Lines 27-31; `argv[0]` is the script name. */
  function ParseArgs(argv: seq<string>): (a: Args)
    ensures |argv| > 1 ==> a.userId == argv[1]
    ensures |argv| <= 1 ==> a.userId == "unknown"
    ensures |argv| > 2 ==> a.userName == argv[2]
    ensures |argv| <= 2 ==> a.userName == "Doctor"
    ensures |argv| > 3 ==> a.message == argv[3]
    ensures |argv| <= 3 ==> a.message == "Hello"
    ensures |argv| > 4 ==> a.threadId == Some(argv[4])
    ensures |argv| <= 4 ==> a.threadId == None
    ensures |argv| > 5 ==> a.context == argv[5]
    ensures |argv| <= 5 ==> a.context == "{}"
  {
    Args(Arg(argv, 1, "unknown"), Arg(argv, 2, "Doctor"), Arg(argv, 3, "Hello"),
         if |argv| > 4 then Some(argv[4]) else None,
         Arg(argv, 5, "{}"))
  }

  /** Without arguments every field takes its default. */
  lemma NoArguments(argv: seq<string>)
    requires |argv| <= 1
    ensures ParseArgs(argv) == Args("unknown", "Doctor", "Hello", None, "{}")
  {
  }

  /** Arguments after the fifth are ignored. */
  lemma ExtraArgumentsIgnored(argv: seq<string>)
    requires |argv| > 6
    ensures ParseArgs(argv) == ParseArgs(argv[..6])
  {
  }

  /** The keys whose `len` the debug lines take, in the order they are printed
      (lines 39-43). */
  const LenKeys: seq<string> := ["patients", "appointments", "prescriptions", "records", "labTests"]

  /** The first of `keys[i..]` whose `d.get(key, [])` has no `len`. */
  function FirstNoLen(d: map<string, Value>, keys: seq<string>, i: nat): (r: Option<Value>)
    ensures r.None? <==> forall k :: i <= k < |keys| ==> HasLen(Get(d, keys[k], Arr([])))
    ensures r.Some? ==> exists k :: i <= k < |keys| && r.value == Get(d, keys[k], Arr([])) && !HasLen(r.value)
                                   && (forall j :: i <= j < k ==> HasLen(Get(d, keys[j], Arr([]))))
    decreases |keys| - i
  {
    if i >= |keys| then None
    else
      var v := Get(d, keys[i], Arr([]));
      if !HasLen(v) then Some(v) else FirstNoLen(d, keys, i + 1)
  }

  /** Lines 34-47: the context `main` hands to the agent. Text that is no JSON
      gives `{}`; a JSON value that is no dict raises at `.get`; a section
      without a length raises at `len`. */
  function ContextOf(text: string, parse: string -> JsonParse): Result<map<string, Value>, Fault> {
    match parse(text)
    case Invalid => Ok(map[])
    case Valid(v) =>
      if !v.Obj? then Err(NotADict(v))
      else match FirstNoLen(v.fields, LenKeys, 0)
        case Some(x) => Err(NoLen(x))
        case None => Ok(v.fields)
  }

  /** What `main` prints on stdout, and its exit code. */
  datatype Exit = Exit(stdout: Value, code: int)

  /** The dict printed when anything raises (lines 70-73). */
  function ErrorEnvelope(error: string): (v: Value)
    ensures v.Obj? && v.fields.Keys == {"success", "error"}
    ensures v.fields["success"] == Bool(false)
    ensures v.fields["error"].Str? && StartsWith(v.fields["error"].s, ErrorPrefix)
  {
    StartsWithConcat(ErrorPrefix, error);
    Obj(map["success" := Bool(false), "error" := Str(ErrorPrefix + error)])
  }

  /** `main`: the result of `invoke_agent` with exit code 0, or the error
      envelope with exit code 1. */
  function Run(argv: seq<string>, env: Env): Exit {
    var a := ParseArgs(argv);
    match ContextOf(a.context, env.parse)
    case Err(f) => Exit(ErrorEnvelope(env.explain(f)), 1)
    case Ok(ctx) =>
      match Invoke(a.userId, a.userName, a.message, a.threadId, Some(ctx), env)
      case Ok(res) => Exit(Obj(res), 0)
      case Err(msg) => Exit(ErrorEnvelope(msg), 1)
  }

  /** Context text that is no JSON makes the agent run without a context. */
  lemma InvalidContextContinues(argv: seq<string>, env: Env)
    requires env.parse(ParseArgs(argv).context) == Invalid
    ensures var a := ParseArgs(argv);
      var r := Invoke(a.userId, a.userName, a.message, a.threadId, None, env);
      && (r.Ok? ==> Run(argv, env) == Exit(Obj(r.value), 0))
      && (r.Err? ==> Run(argv, env) == Exit(ErrorEnvelope(r.error), 1))
  {
    var a := ParseArgs(argv);
    assert InitialContext(a.userName, Some(map[])) == InitialContext(a.userName, None);
  }

  /** Context JSON that is no object ends in the error envelope and exit code 1,
      without the agent being asked. */
  lemma NonObjectContextFails(argv: seq<string>, env: Env, v: Value)
    requires env.parse(ParseArgs(argv).context) == Valid(v)
    requires !v.Obj?
    ensures Run(argv, env) == Exit(ErrorEnvelope(env.explain(NotADict(v))), 1)
  {
  }

  /** A context section that is a number, boolean or null ends in the error
      envelope and exit code 1. */
  lemma UnmeasurableContextFails(argv: seq<string>, env: Env, fields: map<string, Value>, key: string)
    requires env.parse(ParseArgs(argv).context) == Valid(Obj(fields))
    requires key in LenKeys && key in fields && !HasLen(fields[key])
    ensures Run(argv, env).code == 1
  {
    var k :| 0 <= k < |LenKeys| && LenKeys[k] == key;
    assert !HasLen(Get(fields, LenKeys[k], Arr([])));
  }

  /** The exit code is 0 exactly when the context is usable and the agent
      answers, and then stdout is the agent's result dict; otherwise it is 1
      and stdout is an envelope whose error starts with "Error invoking agent: ". */
  lemma ExitPaths(argv: seq<string>, env: Env)
    ensures var a, e := ParseArgs(argv), Run(argv, env);
      var c := ContextOf(a.context, env.parse);
      && (e.code == 0 || e.code == 1)
      && (e.code == 0 <==> c.Ok? && Invoke(a.userId, a.userName, a.message, a.threadId, Some(c.value), env).Ok?)
      && (e.code == 0 ==> e.stdout == Obj(Invoke(a.userId, a.userName, a.message, a.threadId, Some(c.value), env).value))
      && (e.code == 1 ==> e.stdout.Obj? && e.stdout.fields["success"] == Bool(false)
                          && e.stdout.fields["error"].Str? && StartsWith(e.stdout.fields["error"].s, ErrorPrefix))
  {
  }

  /** A raise inside the agent reaches stdout with the prefix twice, once from
      `invoke_agent` and once from `main`. */
  lemma DoubledPrefix(argv: seq<string>, env: Env, ctx: map<string, Value>)
    ensures var d := DigestOf(FetchPatientContext(InitialContext(ParseArgs(argv).userName, Some(ctx))), env.repr);
      ContextOf(ParseArgs(argv).context, env.parse) == Ok(ctx) && d.Err? ==>
      Run(argv, env) == Exit(ErrorEnvelope(ErrorPrefix + env.explain(d.error)), 1)
  {
    var a := ParseArgs(argv);
    InvokeFails(a.userId, a.userName, a.message, a.threadId, Some(ctx), env);
  }

  /** An empty thread-id argument reaches `invoke_agent`, which runs the
      conversation on "thread-" followed by the user id. */
  lemma EmptyThreadArgument(argv: seq<string>, env: Env)
    requires |argv| > 4 && argv[4] == ""
    ensures Run(argv, env).code == 0 ==>
      var out := Run(argv, env).stdout;
      out.Obj? && "thread_id" in out.fields && out.fields["thread_id"] == Str("thread-" + ParseArgs(argv).userId)
  {
    if Run(argv, env).code == 0 {
      ExitPaths(argv, env);
      var a := ParseArgs(argv);
      var ctx := ContextOf(a.context, env.parse).value;
      InvokeEchoes(a.userId, a.userName, a.message, a.threadId, Some(ctx), env);
      var c := FetchPatientContext(InitialContext(a.userName, Some(ctx)));
      ResultDictFields(Generate(c, [Turn(Human, a.message)], env).value, a.userId, ThreadId(a.userId, a.threadId), c);
    }
  }

  /** `main` as the source runs it: each step in turn, leaving at the first raise. */
  method RunMain(argv: seq<string>, env: Env) returns (e: Exit)
    ensures e == Run(argv, env)
  {
    var a := ParseArgs(argv);
    var context := ContextOf(a.context, env.parse);
    if context.Err? {
      return Exit(ErrorEnvelope(env.explain(context.error)), 1);
    }
    var result := InvokeAgent(a.userId, a.userName, a.message, a.threadId, Some(context.value), env);
    if result.Err? {
      return Exit(ErrorEnvelope(result.error), 1);
    }
    return Exit(Obj(result.value), 0);
  }
}
