/** The bounded tool loop: which tools a model's replies can make run, what is audited, and how a run ends. */
module BrainLoop {
  import opened Base

  type ToolName = string

  datatype Permission =
    | LeadRead | LeadWrite | AiRun | GrowthRead | IntelligenceRead | FounderRead | FounderManage | Other(id: nat)

  // ---- The tool manifest and the goals' allow-lists ---------------------------------------

  function RequiredPermission(name: ToolName): Option<Permission>
  {
    if name == "lead_search" || name == "lead_research" then Some(LeadRead)
    else if name == "http_get" || name == "web_search" then Some(AiRun)
    else if name == "draft_outreach" || name == "n8n_dispatch" then Some(LeadWrite)
    else if name == "growth_analysis" then Some(GrowthRead)
    else if name == "intelligence_signals" then Some(IntelligenceRead)
    else if name == "summarize_context" || name == "get_recent_activity" then Some(FounderRead)
    else if name == "create_task" || name == "propose_founder_action" then Some(FounderManage)
    else None
  }

  /** Tools missing from the manifest are treated as unsafe. */
  predicate SideEffecting(name: ToolName)
  {
    name == "n8n_dispatch" || name == "create_task" || name == "propose_founder_action"
    || RequiredPermission(name).None?
  }

  const READ_ONLY := {"lead_search", "lead_research", "web_search", "growth_analysis", "intelligence_signals"}

  function AllowedTools(goal: string): set<ToolName>
  {
    if goal == "research_lead" then {"lead_research", "lead_search", "web_search"}
    else if goal == "search_leads" then {"lead_search", "web_search"}
    else if goal == "draft_email" || goal == "draft_linkedin" then {"lead_research", "lead_search", "draft_outreach"}
    else if goal == "dispatch_outreach" || goal == "enrich_and_dispatch" then
      {"lead_research", "lead_search", "draft_outreach", "n8n_dispatch"}
    else if goal == "founder_assistant" then
      {"summarize_context", "get_recent_activity", "create_task", "propose_founder_action", "growth_analysis",
       "lead_search", "draft_outreach"}
    else READ_ONLY
  }

  // ---- The three gates --------------------------------------------------------------------

  /** What one run enforces; `None` skips that gate, as trusted callers do. */
  datatype Policy = Policy(
    allowed: Option<set<ToolName>>, registered: set<ToolName>, permissions: Option<set<Permission>>)

  datatype Gate = NotAllowed | Unknown | Unauthorized | Runs

  function Decide(p: Policy, name: ToolName): Gate
  {
    if p.allowed.Some? && name !in p.allowed.value then NotAllowed
    else if name !in p.registered then Unknown
    else if p.permissions.Some? && !MayInvoke(p.permissions.value, name) then Unauthorized
    else Runs
  }

  predicate MayInvoke(permissions: set<Permission>, name: ToolName)
  {
    var required := RequiredPermission(name);
    required.Some? && required.value in permissions
  }

  datatype ToolCall = ToolCall(id: string, name: ToolName, arguments: string)

  datatype ToolResult = Returned(ok: bool, text: string) | Raised(ok: bool) | Denied(ok: bool, gate: Gate)

  datatype Entry = Entry(tool: ToolName, allowed: bool, authorized: bool, ok: bool, chars: nat)

  datatype Role = System | User | Assistant | Tool

  datatype Message = Message(role: Role, content: string, callId: Option<string>)

  // ---- What the run's surroundings saw ----------------------------------------------------

  datatype Reply = Reply(text: string, calls: seq<ToolCall>)

  /** One model call: what the model was shown, and its reply; `None` is an exception. */
  datatype Exchange = Exchange(shown: seq<Message>, reply: Option<Reply>)

  datatype Output = Output(ok: bool, text: string)

  /** One tool call: `None` is an exception, otherwise (ok, text). */
  datatype Invocation = Invocation(call: ToolCall, outcome: Option<Output>)

  function Requested(log: seq<Exchange>): seq<ToolCall>
  {
    if log == [] then []
    else
      var front, last := log[..|log| - 1], log[|log| - 1];
      if last.reply.Some? then Requested(front) + last.reply.value.calls else Requested(front)
  }

  /** The requested calls that pass all three gates, in order. */
  function Permitted(p: Policy, calls: seq<ToolCall>): (passed: seq<ToolCall>)
    ensures forall call :: call in passed ==> call in calls && Decide(p, call.name).Runs?
    ensures forall call :: call in calls && Decide(p, call.name).Runs? ==> call in passed
  {
    if calls == [] then []
    else
      var front, last := calls[..|calls| - 1], calls[|calls| - 1];
      assert calls == front + [last];
      if Decide(p, last.name).Runs? then Permitted(p, front) + [last] else Permitted(p, front)
  }

  function CallsOf(invocations: seq<Invocation>): (calls: seq<ToolCall>)
    ensures |calls| == |invocations|
    ensures forall k :: 0 <= k < |calls| ==> calls[k] == invocations[k].call
  {
    seq(|invocations|, k requires 0 <= k < |invocations| => invocations[k].call)
  }

  /** A tool that raised leaves no message for the model. */
  function Heard(invocations: seq<Invocation>): seq<Message>
  {
    if invocations == [] then []
    else
      var front, last := invocations[..|invocations| - 1], invocations[|invocations| - 1];
      if last.outcome.Some?
      then Heard(front) + [Message(Tool, last.outcome.value.text, Some(last.call.id))]
      else Heard(front)
  }

  function ResultOf(i: Invocation): ToolResult
  {
    if i.outcome.Some? then Returned(i.outcome.value.ok, i.outcome.value.text) else Raised(false)
  }

  /** One result per requested call, in order: the tool's own for those that ran, a denial for the rest. */
  function Results(p: Policy, calls: seq<ToolCall>, invocations: seq<Invocation>): (results: seq<ToolResult>)
    requires |invocations| == |Permitted(p, calls)|
    ensures |results| == |calls|
  {
    if calls == [] then []
    else
      var front, last, n := calls[..|calls| - 1], calls[|calls| - 1], |invocations|;
      if Decide(p, last.name).Runs?
      then Results(p, front, invocations[..n - 1]) + [ResultOf(invocations[n - 1])]
      else Results(p, front, invocations) + [Denied(false, Decide(p, last.name))]
  }

  /** The audit entry that belongs to a call and its result. */
  predicate Audits(p: Policy, call: ToolCall, r: ToolResult, e: Entry)
  {
    && e.tool == call.name
    && e.allowed == !Decide(p, call.name).NotAllowed?
    && e.authorized == Decide(p, call.name).Runs?
    && e.ok == r.ok
    && e.chars == (if r.Returned? then |r.text| else 0)
  }

  /** Everything known about the calls handled so far. */
  ghost predicate Handled(
    p: Policy, calls: seq<ToolCall>, invocations: seq<Invocation>, results: seq<ToolResult>, trace: seq<Entry>)
  {
    && CallsOf(invocations) == Permitted(p, calls)
    && results == Results(p, calls, invocations)
    && |trace| == |calls|
    && forall k :: 0 <= k < |calls| ==> Audits(p, calls[k], results[k], trace[k])
  }

  /** Extends `Handled` by one call that is denied ... */
  lemma HandledDenied(
    p: Policy, calls: seq<ToolCall>, invocations: seq<Invocation>, results: seq<ToolResult>, trace: seq<Entry>,
    call: ToolCall, e: Entry)
    requires Handled(p, calls, invocations, results, trace) && !Decide(p, call.name).Runs?
    requires Audits(p, call, Denied(false, Decide(p, call.name)), e)
    ensures Handled(p, calls + [call], invocations, results + [Denied(false, Decide(p, call.name))], trace + [e])
  {
    assert (calls + [call])[..|calls|] == calls;
  }

  /** ... or that runs. */
  lemma HandledRun(
    p: Policy, calls: seq<ToolCall>, invocations: seq<Invocation>, results: seq<ToolResult>, trace: seq<Entry>,
    i: Invocation, e: Entry)
    requires Handled(p, calls, invocations, results, trace) && Decide(p, i.call.name).Runs?
    requires Audits(p, i.call, ResultOf(i), e)
    ensures Handled(p, calls + [i.call], invocations + [i], results + [ResultOf(i)], trace + [e])
  {
    assert (calls + [i.call])[..|calls|] == calls && (invocations + [i])[..|invocations|] == invocations;
    assert CallsOf(invocations + [i]) == CallsOf(invocations) + [i.call];
  }

  lemma {:induction false} HeardAppend(invocations: seq<Invocation>, i: Invocation)
    ensures Heard(invocations + [i]) == Heard(invocations)
      + (if i.outcome.Some? then [Message(Tool, i.outcome.value.text, Some(i.call.id))] else [])
  {
    assert (invocations + [i])[..|invocations|] == invocations;
  }

  lemma {:induction false} RequestedAppend(log: seq<Exchange>, x: Exchange)
    ensures Requested(log + [x]) == Requested(log) + (if x.reply.Some? then x.reply.value.calls else [])
  {
    assert (log + [x])[..|log|] == log;
  }

  // ---- The loop ---------------------------------------------------------------------------

  /** The provider behind the LLM service: any behaviour whatever, one answer per call. */
  class LanguageModel {
    const answer: (nat, seq<Message>) -> Option<Reply>
    var log: seq<Exchange>

    constructor (answer: (nat, seq<Message>) -> Option<Reply>)
      ensures this.answer == answer && log == []
    {
      this.answer, log := answer, [];
    }

    method Chat(messages: seq<Message>) returns (reply: Option<Reply>)
      modifies this
      ensures log == old(log) + [Exchange(messages, reply)]
    {
      reply := answer(|log|, messages);
      log := log + [Exchange(messages, reply)];
    }
  }

  /** The registry with its tools' effects: `ran` is what actually happened. */
  class ToolRegistry {
    const names: set<ToolName>
    const behaviour: (nat, ToolCall) -> Option<Output>
    var ran: seq<Invocation>

    constructor (names: set<ToolName>, behaviour: (nat, ToolCall) -> Option<Output>)
      ensures this.names == names && this.behaviour == behaviour && ran == []
    {
      this.names, this.behaviour, ran := names, behaviour, [];
    }

    method Invoke(call: ToolCall) returns (outcome: Option<Output>)
      modifies this
      ensures ran == old(ran) + [Invocation(call, outcome)]
    {
      outcome := behaviour(|ran|, call);
      ran := ran + [Invocation(call, outcome)];
    }
  }

  datatype Ending = Answered(text: string) | LlmFailed | MaxSteps

  datatype BrainResult = BrainResult(ending: Ending, results: seq<ToolResult>, trace: seq<Entry>, steps: nat)

  /** How the replies of a run decide its ending; every reply but the last asked for tools. */
  predicate EndsAs(ending: Ending, log: seq<Exchange>, maxSteps: int)
  {
    && AllAsk(log, |log| - 1)
    && match ending
       case Answered(text) => log != [] && log[|log| - 1].reply == Some(Reply(text, []))
       case LlmFailed => log != [] && log[|log| - 1].reply == None
       case MaxSteps =>
         && |log| == (if maxSteps < 0 then 0 else maxSteps)
         && AllAsk(log, |log|)
  }

  /** The k-th model call is shown the history, and the results of the tools run before it: never its own
      earlier replies, nor a denial. */
  ghost predicate Shown(
    p: Policy, history: seq<Message>, log: seq<Exchange>, invocations: seq<Invocation>, k: nat)
    requires k < |log|
  {
    var before := |Permitted(p, Requested(log[..k]))|;
    before <= |invocations| && log[k].shown == history + Heard(invocations[..before])
  }

  lemma ShownStays(
    p: Policy, history: seq<Message>, log: seq<Exchange>, invocations: seq<Invocation>, k: nat,
    log': seq<Exchange>, invocations': seq<Invocation>)
    requires k < |log| && Shown(p, history, log, invocations, k)
    requires log <= log' && invocations <= invocations'
    ensures Shown(p, history, log', invocations', k)
  {
    var before := |Permitted(p, Requested(log[..k]))|;
    assert log[..k] == log'[..k] && invocations[..before] == invocations'[..before];
  }

  ghost predicate AllShown(p: Policy, history: seq<Message>, log: seq<Exchange>, invocations: seq<Invocation>)
  {
    forall k :: 0 <= k < |log| ==> Shown(p, history, log, invocations, k)
  }

  lemma AllShownStays(
    p: Policy, history: seq<Message>, log: seq<Exchange>, invocations: seq<Invocation>,
    invocations': seq<Invocation>)
    requires AllShown(p, history, log, invocations) && invocations <= invocations'
    ensures AllShown(p, history, log, invocations')
  {
    forall k | 0 <= k < |log| ensures Shown(p, history, log, invocations', k) {
      ShownStays(p, history, log, invocations, k, log, invocations');
    }
  }

  /** What a run has collected so far. */
  datatype Progress = Progress(messages: seq<Message>, results: seq<ToolResult>, trace: seq<Entry>)

  ghost predicate Sound(
    p: Policy, calls: seq<ToolCall>, invocations: seq<Invocation>, history: seq<Message>, so: Progress)
  {
    so.messages == history + Heard(invocations) && Handled(p, calls, invocations, so.results, so.trace)
  }

  /** Handling one more call keeps everything in step: one that runs ... */
  lemma {:induction false} SoundRun(
    p: Policy, calls: seq<ToolCall>, invocations: seq<Invocation>, history: seq<Message>, so: Progress,
    i: Invocation, entry: Entry)
    requires Sound(p, calls, invocations, history, so) && Decide(p, i.call.name).Runs?
    requires Audits(p, i.call, ResultOf(i), entry)
    ensures Sound(p, calls + [i.call], invocations + [i], history,
                  Progress(so.messages + Heard([i]), so.results + [ResultOf(i)], so.trace + [entry]))
  {
    HandledRun(p, calls, invocations, so.results, so.trace, i, entry);
    HeardAppend(invocations, i);
    HeardAppend([], i);
    assert [] + [i] == [i];
    Regroup(history, Heard(invocations), Heard([i]));
  }

  /** ... and any. */
  lemma {:induction false} SoundStep(
    p: Policy, calls: seq<ToolCall>, invocations: seq<Invocation>, history: seq<Message>, so: Progress,
    call: ToolCall, now: seq<Invocation>, result: ToolResult, entry: Entry, heard: seq<Message>)
    requires Sound(p, calls, invocations, history, so) && Audits(p, call, result, entry)
    requires !Decide(p, call.name).Runs? ==> now == [] && result == Denied(false, Decide(p, call.name)) && heard == []
    requires Decide(p, call.name).Runs? ==>
      |now| == 1 && now[0].call == call && result == ResultOf(now[0]) && heard == Heard(now)
    ensures Sound(p, calls + [call], invocations + now, history,
                  Progress(so.messages + heard, so.results + [result], so.trace + [entry]))
  {
    if Decide(p, call.name).Runs? {
      assert now == [now[0]];
      SoundRun(p, calls, invocations, history, so, now[0], entry);
    } else {
      HandledDenied(p, calls, invocations, so.results, so.trace, call, entry);
      assert invocations + now == invocations && so.messages + heard == so.messages;
    }
  }

  lemma Regroup<T>(a: seq<T>, b: seq<T>, c: seq<T>)
    ensures a + b + c == a + (b + c)
  {
  }

  lemma OneMoreAsked<T>(a: seq<T>, s: seq<T>, j: nat)
    requires j < |s|
    ensures a + s[..j] + [s[j]] == a + s[..j + 1]
  {
    TakeOneMore(s, j);
    Regroup(a, s[..j], [s[j]]);
  }

  /** The next model call is shown what was heard so far. */
  lemma {:induction false} ShownNext(
    p: Policy, history: seq<Message>, log: seq<Exchange>, invocations: seq<Invocation>, so: Progress, x: Exchange)
    requires AllShown(p, history, log, invocations) && Sound(p, Requested(log), invocations, history, so)
    requires x.shown == so.messages
    ensures AllShown(p, history, log + [x], invocations)
  {
    assert (log + [x])[..|log|] == log && invocations[..|invocations|] == invocations;
    forall k | 0 <= k < |log| ensures Shown(p, history, log + [x], invocations, k) {
      ShownStays(p, history, log, invocations, k, log + [x], invocations);
    }
  }

  /** The first n replies all asked for tools. */
  predicate AllAsk(log: seq<Exchange>, n: int)
  {
    forall k :: 0 <= k < n && k < |log| ==> log[k].reply.Some? && log[k].reply.value.calls != []
  }

  class Brain {
    const llm: LanguageModel
    const registry: ToolRegistry
    const maxSteps: int

    constructor (llm: LanguageModel, registry: ToolRegistry, maxSteps: int)
      ensures this.llm == llm && this.registry == registry && this.maxSteps == maxSteps
    {
      this.llm, this.registry, this.maxSteps := llm, registry, maxSteps;
    }

    function PolicyOf(allowed: Option<set<ToolName>>, permissions: Option<set<Permission>>): Policy
    {
      Policy(allowed, registry.names, permissions)
    }

    /** One requested call: through the gates, and run if it passes all three. */
    method Handle(call: ToolCall, p: Policy)
      returns (result: ToolResult, entry: Entry, heard: seq<Message>)
      requires p.registered == registry.names
      modifies registry
      ensures var gate := Decide(p, call.name);
        && Audits(p, call, result, entry)
        && (!gate.Runs? ==> registry.ran == old(registry.ran) && result == Denied(false, gate) && heard == [])
        && (gate.Runs? ==>
              && |registry.ran| == |old(registry.ran)| + 1
              && var i := registry.ran[|old(registry.ran)|];
              && registry.ran == old(registry.ran) + [i] && i.call == call && result == ResultOf(i)
              && heard == Heard([i]))
    {
      heard := [];
      if p.allowed.Some? && call.name !in p.allowed.value {
        result, entry := Denied(false, NotAllowed), Entry(call.name, false, false, false, 0);
        return;
      }
      if call.name !in registry.names {
        result, entry := Denied(false, Unknown), Entry(call.name, true, false, false, 0);
        return;
      }
      if p.permissions.Some? && !MayInvoke(p.permissions.value, call.name) {
        result, entry := Denied(false, Unauthorized), Entry(call.name, true, false, false, 0);
        return;
      }
      var outcome := registry.Invoke(call);
      if outcome.Some? {
        var ok, text := outcome.value.ok, outcome.value.text;
        result, entry := Returned(ok, text), Entry(call.name, true, true, ok, |text|);
        heard := [Message(Tool, text, Some(call.id))];
      } else {
        result, entry := Raised(false), Entry(call.name, true, true, false, 0);
      }
    }

    /** `Handle`, with everything collected so far carried along. The registry has run `base`, then `earlier`. */
    method HandleNext(
      call: ToolCall, p: Policy, so: Progress,
      ghost base: seq<Invocation>, ghost asked: seq<ToolCall>, ghost earlier: seq<Invocation>,
      ghost history: seq<Message>)
      returns (next: Progress, ghost later: seq<Invocation>)
      requires p.registered == registry.names && registry.ran == base + earlier
      requires Sound(p, asked, earlier, history, so)
      modifies registry
      ensures registry.ran == base + later && earlier <= later
      ensures Sound(p, asked + [call], later, history, next)
    {
      var result, entry, heard := Handle(call, p);
      ghost var now := registry.ran[|base + earlier|..];
      SoundStep(p, asked, earlier, history, so, call, now, result, entry, heard);
      Regroup(base, earlier, now);
      later := earlier + now;
      next := Progress(so.messages + heard, so.results + [result], so.trace + [entry]);
    }

    /** All calls of one reply, in order. */
    method HandleAll(
      calls: seq<ToolCall>, p: Policy, so: Progress,
      ghost base: seq<Invocation>, ghost asked: seq<ToolCall>, ghost earlier: seq<Invocation>,
      ghost history: seq<Message>)
      returns (next: Progress, ghost later: seq<Invocation>)
      requires p.registered == registry.names && registry.ran == base + earlier
      requires Sound(p, asked, earlier, history, so)
      modifies registry
      ensures registry.ran == base + later && earlier <= later
      ensures Sound(p, asked + calls, later, history, next)
    {
      next, later := so, earlier;
      ghost var sofar := asked;
      for j := 0 to |calls|
        invariant registry.ran == base + later && earlier <= later
        invariant sofar == asked + calls[..j]
        invariant Sound(p, sofar, later, history, next)
      {
        next, later := HandleNext(calls[j], p, next, base, sofar, later, history);
        sofar := sofar + [calls[j]];
        OneMoreAsked(asked, calls, j);
      }
      assert calls[..|calls|] == calls;
    }

    /** One pass of the loop: a model call, and the tools its reply asks for; an ending if it decides one. */
    method Turn(
      p: Policy, so: Progress, ghost chats: seq<Exchange>, ghost base: seq<Invocation>, ghost log: seq<Exchange>,
      ghost earlier: seq<Invocation>, ghost history: seq<Message>)
      returns (ending: Option<Ending>, next: Progress, ghost x: Exchange, ghost later: seq<Invocation>)
      requires p.registered == registry.names && registry.ran == base + earlier && llm.log == chats + log
      requires Sound(p, Requested(log), earlier, history, so) && AllShown(p, history, log, earlier)
      requires AllAsk(log, |log|)
      modifies llm, registry
      ensures registry.ran == base + later && llm.log == chats + (log + [x])
      ensures Sound(p, Requested(log + [x]), later, history, next) && AllShown(p, history, log + [x], later)
      ensures ending.None? ==> AllAsk(log + [x], |log| + 1)
      ensures ending.Some? ==> !ending.value.MaxSteps? && EndsAs(ending.value, log + [x], maxSteps)
    {
      var reply := llm.Chat(so.messages);
      x, next, later := Exchange(so.messages, reply), so, earlier;
      Regroup(chats, log, [x]);
      ShownNext(p, history, log, earlier, so, x);
      RequestedAppend(log, x);
      if reply.None? {
        ending := Some(LlmFailed);
      } else if reply.value.calls == [] {
        assert Requested(log) + [] == Requested(log);
        ending := Some(Answered(reply.value.text));
      } else {
        ending := None;
        next, later := HandleAll(reply.value.calls, p, so, base, Requested(log), earlier, history);
        AllShownStays(p, history, log + [x], earlier, later);
      }
    }

    /** For any model and any tools: at most `maxSteps` model calls; the tools that ran are exactly the
        requested ones that pass the gates, in order; results and audit trail match the requests position by
        position; and success means the last reply asked for no tool. */
    method Run(history: seq<Message>, allowed: Option<set<ToolName>>, permissions: Option<set<Permission>>)
      returns (result: BrainResult, ghost log: seq<Exchange>, ghost invocations: seq<Invocation>)
      modifies llm, registry
      ensures llm.log == old(llm.log) + log && registry.ran == old(registry.ran) + invocations
      ensures result.steps == |log| && (|log| <= maxSteps || log == [])
      ensures EndsAs(result.ending, log, maxSteps)
      ensures Handled(PolicyOf(allowed, permissions), Requested(log), invocations, result.results, result.trace)
      ensures AllShown(PolicyOf(allowed, permissions), history, log, invocations)
    {
      var so := Progress(history, [], []);
      var steps := 0;
      var p := PolicyOf(allowed, permissions);
      log, invocations := [], [];
      while steps < maxSteps
        invariant steps == |log| && (steps <= maxSteps || steps == 0)
        invariant llm.log == old(llm.log) + log && registry.ran == old(registry.ran) + invocations
        invariant Sound(p, Requested(log), invocations, history, so) && AllShown(p, history, log, invocations)
        invariant AllAsk(log, |log|)
      {
        steps := steps + 1;
        var ending;
        ghost var x;
        ending, so, x, invocations := Turn(p, so, old(llm.log), old(registry.ran), log, invocations, history);
        log := log + [x];
        if ending.Some? {
          return BrainResult(ending.value, so.results, so.trace, steps), log, invocations;
        }
      }
      result := BrainResult(MaxSteps, so.results, so.trace, steps);
    }
  }

  // ---- What the gates mean for a user's run -----------------------------------------------

  /** Only the dispatch goals and the founder assistant list a tool with side effects. */
  predicate MayHaveEffects(goal: string)
  {
    goal == "dispatch_outreach" || goal == "enrich_and_dispatch" || goal == "founder_assistant"
  }

  /** The policy of a run acting for a user; a user who no longer exists has no permissions. */
  function UserPolicy(goal: string, registered: set<ToolName>, actor: Option<set<Permission>>): Policy
  {
    Policy(Some(AllowedTools(goal)), registered, Some(if actor.Some? then actor.value else {}))
  }

  /** What a name that passes the gates of a user's run is, by the tables. */
  lemma PassedForUser(
    goal: string, registered: set<ToolName>, actor: Option<set<Permission>>, name: ToolName)
    requires Decide(UserPolicy(goal, registered, actor), name).Runs?
    ensures actor.Some? && name in AllowedTools(goal) && MayInvoke(actor.value, name)
  {
  }

  lemma EffectsByTable(goal: string, name: ToolName)
    requires name in AllowedTools(goal) && SideEffecting(name)
    ensures MayHaveEffects(goal)
    ensures RequiredPermission(name) in {Some(LeadWrite), Some(FounderManage)}
  {
  }

  /** Whatever the model asks for, a tool that ran for a user was listed for the goal and needed a permission
      the user holds; side effects happen only under the goals that list them; without the user, nothing runs. */
  lemma UserRunsAreConfined(
    goal: string, registered: set<ToolName>, actor: Option<set<Permission>>, calls: seq<ToolCall>,
    invocations: seq<Invocation>, results: seq<ToolResult>, trace: seq<Entry>, k: nat)
    requires Handled(UserPolicy(goal, registered, actor), calls, invocations, results, trace)
    requires k < |invocations|
    ensures actor.Some?
    ensures var name := invocations[k].call.name;
      && name in AllowedTools(goal) && MayInvoke(actor.value, name)
      && (SideEffecting(name) ==>
            MayHaveEffects(goal) && (LeadWrite in actor.value || FounderManage in actor.value))
  {
    var call := CallsOf(invocations)[k];
    assert call in Permitted(UserPolicy(goal, registered, actor), calls);
    PassedForUser(goal, registered, actor, call.name);
    if SideEffecting(call.name) { EffectsByTable(goal, call.name); }
  }

  lemma SideEffectsNeedTheGoal(goal: string)
    ensures MayHaveEffects(goal) <==> exists name :: name in AllowedTools(goal) && SideEffecting(name)
  {
    if goal == "founder_assistant" {
      assert "create_task" in AllowedTools(goal) && SideEffecting("create_task");
    } else if MayHaveEffects(goal) {
      assert "n8n_dispatch" in AllowedTools(goal) && SideEffecting("n8n_dispatch");
    }
  }

  // ---- The tables by column ---------------------------------------------------------------

  function ToolsNeeding(permission: Permission): set<ToolName>
  {
    match permission
    case LeadRead => {"lead_search", "lead_research"}
    case LeadWrite => {"draft_outreach", "n8n_dispatch"}
    case AiRun => {"http_get", "web_search"}
    case GrowthRead => {"growth_analysis"}
    case IntelligenceRead => {"intelligence_signals"}
    case FounderRead => {"summarize_context", "get_recent_activity"}
    case FounderManage => {"create_task", "propose_founder_action"}
    case Other(_) => {}
  }

  /** Which tools a permission opens; of those with side effects all but the unknown ones need to write leads or to
      manage. */
  lemma NeededExactly(name: ToolName, permission: Permission)
    ensures RequiredPermission(name) == Some(permission) <==> name in ToolsNeeding(permission)
    ensures SideEffecting(name) && RequiredPermission(name).Some? <==>
      name in {"n8n_dispatch", "create_task", "propose_founder_action"}
    ensures RequiredPermission(name).None? ==> SideEffecting(name)
  {
  }

  /** Under which goals a tool is listed. */
  predicate ListedUnder(name: ToolName, goal: string)
  {
    var outreach := {"draft_email", "draft_linkedin", "dispatch_outreach", "enrich_and_dispatch"};
    var known := outreach + {"research_lead", "search_leads", "founder_assistant"};
    || (name == "lead_search")
    || (name == "lead_research" && (goal == "research_lead" || goal in outreach || goal !in known))
    || (name == "web_search" && (goal == "research_lead" || goal == "search_leads" || goal !in known))
    || (name == "draft_outreach" && (goal in outreach || goal == "founder_assistant"))
    || (name == "n8n_dispatch" && (goal == "dispatch_outreach" || goal == "enrich_and_dispatch"))
    || (name == "growth_analysis" && (goal == "founder_assistant" || goal !in known))
    || (name == "intelligence_signals" && goal !in known)
    || (name in {"summarize_context", "get_recent_activity", "create_task", "propose_founder_action"}
        && goal == "founder_assistant")
  }

  lemma ListedExactly(name: ToolName, goal: string)
    ensures name in AllowedTools(goal) <==> ListedUnder(name, goal)
    ensures name in AllowedTools(goal) ==> RequiredPermission(name).Some?
  {
  }

  /** What each gate turns away. */
  lemma DecidedExactly(p: Policy, name: ToolName)
    ensures Decide(p, name).Runs? <==>
      && (p.allowed.None? || name in p.allowed.value) && name in p.registered
      && (p.permissions.None? || exists q :: q in p.permissions.value && name in ToolsNeeding(q))
    ensures Decide(p, name).NotAllowed? <==> p.allowed.Some? && name !in p.allowed.value
    ensures Decide(p, name).Unknown? <==> (p.allowed.None? || name in p.allowed.value) && name !in p.registered
  {
    forall q ensures RequiredPermission(name) == Some(q) <==> name in ToolsNeeding(q) { NeededExactly(name, q); }
  }

  // ---- What a run's records say -----------------------------------------------------------

  /** A tool that ran was registered, and allowed and authorized as far as the run checks that. */
  lemma RanThroughTheGates(
    p: Policy, calls: seq<ToolCall>, invocations: seq<Invocation>, results: seq<ToolResult>, trace: seq<Entry>, k: nat)
    requires Handled(p, calls, invocations, results, trace) && k < |invocations|
    ensures var call := invocations[k].call;
      && call in calls && call.name in p.registered
      && (p.allowed.Some? ==> call.name in p.allowed.value)
      && (p.permissions.Some? ==> exists q :: q in p.permissions.value && call.name in ToolsNeeding(q))
  {
    var call := CallsOf(invocations)[k];
    assert call in Permitted(p, calls);
    DecidedExactly(p, call.name);
  }

  /** The result of a call: a denial naming the gate, or what its own invocation, the j-th, came to. */
  predicate IsResult(p: Policy, call: ToolCall, invocations: seq<Invocation>, j: nat, r: ToolResult)
  {
    if Decide(p, call.name).Runs?
    then j < |invocations| && invocations[j].call == call && r == ResultOf(invocations[j])
    else r == Denied(false, Decide(p, call.name))
  }

  lemma {:induction false} LastResult(p: Policy, front: seq<ToolCall>, last: ToolCall, invocations: seq<Invocation>)
    requires CallsOf(invocations) == Permitted(p, front + [last])
    ensures var n, runs := |invocations|, Decide(p, last.name).Runs?;
      && (runs ==> n > 0 && CallsOf(invocations[..n - 1]) == Permitted(p, front))
      && (!runs ==> CallsOf(invocations) == Permitted(p, front))
      && var earlier := if runs then invocations[..n - 1] else invocations;
         var results := Results(p, front + [last], invocations);
         && results[..|front|] == Results(p, front, earlier)
         && IsResult(p, last, invocations, |Permitted(p, front)|, results[|front|])
  {
    assert (front + [last])[..|front|] == front;
    if Decide(p, last.name).Runs? {
      assert CallsOf(invocations)[|invocations| - 1] == last;
      assert CallsOf(invocations[..|invocations| - 1]) == Permitted(p, front);
    }
  }

  lemma {:induction false} ResultAt(p: Policy, calls: seq<ToolCall>, invocations: seq<Invocation>, k: nat)
    requires CallsOf(invocations) == Permitted(p, calls) && k < |calls|
    ensures IsResult(p, calls[k], invocations, |Permitted(p, calls[..k])|, Results(p, calls, invocations)[k])
    decreases calls
  {
    var front, last := calls[..|calls| - 1], calls[|calls| - 1];
    assert calls == front + [last];
    LastResult(p, front, last, invocations);
    if k < |front| {
      var earlier := if Decide(p, last.name).Runs? then invocations[..|invocations| - 1] else invocations;
      ResultAt(p, front, earlier, k);
      assert front[..k] == calls[..k];
      assert Results(p, calls, invocations)[..|front|][k] == Results(p, front, earlier)[k];
    } else {
      assert calls[..k] == front;
    }
  }

  /** Each call's audit entry. */
  lemma TraceAt(
    p: Policy, calls: seq<ToolCall>, invocations: seq<Invocation>, results: seq<ToolResult>, trace: seq<Entry>, k: nat)
    requires Handled(p, calls, invocations, results, trace) && k < |calls|
    ensures |results| == |calls| == |trace|
    ensures var e, runs := trace[k], Decide(p, calls[k].name).Runs?;
      && e.tool == calls[k].name && (e.authorized <==> runs)
      && (e.allowed <==> p.allowed.None? || calls[k].name in p.allowed.value)
      && (!runs ==> !e.ok && e.chars == 0)
    ensures Decide(p, calls[k].name).Runs? ==>
      var j := |Permitted(p, calls[..k])|;
      && j < |invocations| && invocations[j].call == calls[k]
      && (match invocations[j].outcome
          case None => results[k] == Raised(false) && !trace[k].ok && trace[k].chars == 0
          case Some(out) =>
            results[k] == Returned(out.ok, out.text) && trace[k].ok == out.ok && trace[k].chars == |out.text|)
  {
    ResultAt(p, calls, invocations, k);
    DecidedExactly(p, calls[k].name);
    assert Audits(p, calls[k], results[k], trace[k]);
  }

  /** The calls requested are those of the replies there were. */
  lemma {:induction false} RequestedAre(log: seq<Exchange>, call: ToolCall)
    ensures call in Requested(log) <==>
      exists k :: 0 <= k < |log| && log[k].reply.Some? && call in log[k].reply.value.calls
    decreases log
  {
    if log != [] {
      var front, last := log[..|log| - 1], log[|log| - 1];
      assert log == front + [last];
      RequestedAre(front, call);
      if call in Requested(front) {
        var k :| 0 <= k < |front| && front[k].reply.Some? && call in front[k].reply.value.calls;
        assert log[k] == front[k];
      }
    }
  }

  /** The model hears the tools that returned, and nothing of those that raised. */
  lemma {:induction false} HeardAre(invocations: seq<Invocation>, m: Message)
    ensures m in Heard(invocations) <==>
      exists i: Invocation :: i in invocations && i.outcome.Some? &&
        m == Message(Tool, i.outcome.value.text, Some(i.call.id))
    decreases invocations
  {
    if invocations != [] {
      var front, last := invocations[..|invocations| - 1], invocations[|invocations| - 1];
      assert invocations == front + [last];
      HeardAre(front, m);
    }
  }

  /** The model is first shown the history alone, and each time what it was shown before and something more. */
  lemma ShownGrows(p: Policy, history: seq<Message>, log: seq<Exchange>, invocations: seq<Invocation>, k: nat)
    requires AllShown(p, history, log, invocations) && k < |log|
    ensures k == 0 ==> log[k].shown == history
    ensures var from := |Permitted(p, Requested(log[..k]))|;
      from <= |invocations| && log[k].shown == history + Heard(invocations[..from])
  {
    assert Shown(p, history, log, invocations, k);
    if k == 0 { assert invocations[..0] == [] && log[..0] == []; }
  }

  /** How a run ends is how its last reply reads; only a reply without calls is an answer. */
  lemma EndingExactly(ending: Ending, log: seq<Exchange>, maxSteps: int)
    requires EndsAs(ending, log, maxSteps) && |log| <= (if maxSteps < 0 then 0 else maxSteps)
    ensures ending.LlmFailed? <==> log != [] && log[|log| - 1].reply.None?
    ensures ending.Answered? <==>
      log != [] && log[|log| - 1].reply.Some? && log[|log| - 1].reply.value.calls == []
    ensures ending.Answered? ==> ending.text == log[|log| - 1].reply.value.text
    ensures ending.MaxSteps? ==> |log| == if maxSteps < 0 then 0 else maxSteps
    ensures forall k :: 0 <= k < |log| - 1 ==> log[k].reply.Some? && log[k].reply.value.calls != []
  {
  }
}
