/**
 * The command dispatcher: one email in, a list of plugin results out. The
 * body goes to the LLM provider; a parse failure or an empty command list
 * each give a single failure result; otherwise every parsed command is
 * classified (missing action, unsupported action, unhealthy plugin,
 * executed, or faulted) and gives one result, in order. An exception that
 * escapes a command's classification collapses the whole batch into one
 * failure result.
 *
 * The behaviour is specified by functions over a value view of the registry
 * (`CommandSpec`, `RunBatch`, `ProcessSpec`); the methods of
 * `CommandDispatcher` are proved to produce exactly those results.
 */
module Dispatcher {
  import opened Values
  import opened PluginBase
  import opened Registry
  import opened Ollama

  /** The email fields the dispatcher reads. */
  type Email = map<string, string>

  function Sender(email: Email): string { if "sender" in email then email["sender"] else "unknown" }
  function Subject(email: Email): string { if "subject" in email then email["subject"] else "" }
  function Body(email: Email): string { if "body" in email then email["body"] else "" }

  const ParseFailurePrefix: string := "无法理解指令: "
  const NoCommandsMessage: string := "邮件中没有识别到有效的命令"
  const MissingActionMessage: string := "命令格式错误：缺少 action 字段"
  const UnsupportedPrefix: string := "不支持的命令: "
  const ExecutionErrorPrefix: string := "执行命令时出错: "
  const ProcessingErrorPrefix: string := "处理邮件时出错: "

  function UnavailableMessage(name: string): string
  {
    "插件 " + name + " 不可用"
  }

  /** One command's classification: the result or the exception, and the clock time it used. */
  datatype Step = Step(result: Try<Outcome>, took: nat)

  /** The result that replaces a whole batch when an exception escapes. */
  function Collapse(error: string): (o: Outcome)
  {
    Outcome(false, ProcessingErrorPrefix + error, map["exception" := Str(error)])
  }

  /**
   * `_execute_command(email, command)` at clock reading `now`. A command that
   * is not a mapping raises (`.get`), a falsy action fails with the command,
   * an unhashable action raises (the command-map lookup), an action no
   * stored plugin handles fails with the list of mapped commands, a raising
   * health check raises, an unhealthy plugin fails without being executed.
   * Otherwise `execute` runs: its result is enriched with plugin_name, action
   * and the elapsed time, and its exception becomes a failure result.
   */
  function CommandSpec(v: RegistryView, email: Email, command: Value, now: nat): (s: Step)
    ensures s.result.Raised? ==> s.took == 0
  {
    if !command.Dict? then Step(Raised(NoGetError(command)), 0)
    else
      var action := GetOr(command.fields, "action", Null);
      if !Truthy(action) then
        Step(Returned(Outcome(false, MissingActionMessage, map["parsed_command" := command])), 0)
      else if !Hashable(action) then Step(Raised(UnhashableError(action)), 0)
      else
        var owner := if action.Str? then LookupCommand(v, action.s) else None;
        if owner.None? then UnsupportedStep(v, action)
        else RoutedStep(v.plugins[owner.value], email, command.fields, action, now)
  }

  /** An action no stored plugin handles: fail with the action and every mapped command. */
  function UnsupportedStep(v: RegistryView, action: Value): (s: Step)
    ensures s.took == 0 && s.result.Returned? && !s.result.value.success
  {
    Step(Returned(Outcome(false, UnsupportedPrefix + Display(action),
      map["action" := action, "available_commands" := StrList(v.commandOrder)])), 0)
  }

  /** A routed command: the plugin's health check decides whether `execute` runs. */
  function RoutedStep(plugin: PluginView, email: Email, fields: map<string, Value>, action: Value, now: nat): (s: Step)
    ensures s.result.Raised? ==> s.took == 0
  {
    var name := plugin.cls.metadata.name;
    match HealthOf(plugin.cls.health, plugin.status)
    case Raised(e) => Step(Raised(e), 0)
    case Returned(healthy) =>
      if !healthy then
        Step(Returned(Outcome(false, UnavailableMessage(name), map["plugin_name" := Str(name), "action" := action])), 0)
      else ExecutedStep(plugin, email, fields, action, now)
  }

  /** The context `execute` receives. */
  function ContextFor(plugin: PluginView, email: Email, fields: map<string, Value>, now: nat): CommandContext
  {
    CommandContext(Sender(email), Subject(email), Body(email), fields, now, plugin.config)
  }

  /**
   * A healthy plugin runs: a returned result keeps the plugin's success,
   * message and data and gains plugin_name, action and the elapsed time; an
   * exception becomes a failure naming the plugin, the action and the error.
   */
  function ExecutedStep(plugin: PluginView, email: Email, fields: map<string, Value>, action: Value, now: nat): (s: Step)
    ensures s.result.Returned?
    ensures s.took == plugin.cls.execute(ContextFor(plugin, email, fields, now)).took
    ensures var answer := plugin.cls.execute(ContextFor(plugin, email, fields, now)).answer;
      answer.Raised? ==>
        && !s.result.value.success
        && s.result.value.message == ExecutionErrorPrefix + answer.error
        && s.result.value.data.Keys == {"plugin_name", "action", "exception"}
        && s.result.value.data["plugin_name"] == Str(plugin.cls.metadata.name)
        && s.result.value.data["action"] == action
        && s.result.value.data["exception"] == Str(answer.error)
    ensures var answer := plugin.cls.execute(ContextFor(plugin, email, fields, now)).answer;
      answer.Returned? ==>
        var own := ReplyOutcome(answer.value).data;
        && s.result.value.success == answer.value.success
        && s.result.value.message == answer.value.message
        && s.result.value.data.Keys == own.Keys + {"plugin_name", "action", "execution_time_ms"}
        && s.result.value.data["plugin_name"] == Str(plugin.cls.metadata.name)
        && s.result.value.data["action"] == action
        && s.result.value.data["execution_time_ms"] == Int(s.took)
        && forall key :: key in own && key != "plugin_name" && key != "action" && key != "execution_time_ms" ==>
             s.result.value.data[key] == own[key]
  {
    var name := plugin.cls.metadata.name;
    var run := plugin.cls.execute(ContextFor(plugin, email, fields, now));
    match run.answer
    case Returned(reply) => Step(Returned(Enriched(ReplyOutcome(reply), name, action, run.took)), run.took)
    case Raised(e) =>
      Step(Returned(Outcome(false, ExecutionErrorPrefix + e,
        map["plugin_name" := Str(name), "action" := action, "exception" := Str(e)])), run.took)
  }

  /**
   * A returned result after the dispatcher's additions: success and message
   * kept, plugin_name, action and execution_time_ms set (replacing any such
   * keys), every other key kept.
   */
  function Enriched(o: Outcome, name: string, action: Value, took: nat): Outcome
  {
    Outcome(o.success, o.message, o.data["plugin_name" := Str(name)]["action" := action]["execution_time_ms" := Int(took)])
  }

  /**
   * Enrichment keeps success and message, sets exactly plugin_name, action
   * and execution_time_ms, and keeps every other key of the plugin's data.
   */
  lemma EnrichedSetsThreeKeys(o: Outcome, name: string, action: Value, took: nat)
    ensures var r := Enriched(o, name, action, took);
      && r.success == o.success && r.message == o.message
      && r.data.Keys == o.data.Keys + {"plugin_name", "action", "execution_time_ms"}
      && r.data["plugin_name"] == Str(name) && r.data["action"] == action
      && r.data["execution_time_ms"] == Int(took)
      && forall key :: key in o.data && key != "plugin_name" && key != "action" && key != "execution_time_ms" ==>
        r.data[key] == o.data[key]
  {
  }

  /**
   * Only an executed plugin's own result can succeed, so every successful
   * result carries plugin_name, action and the time the command took.
   */
  lemma SuccessfulCommandIsTimed(v: RegistryView, email: Email, command: Value, now: nat)
    ensures var s := CommandSpec(v, email, command, now);
      s.result.Returned? && s.result.value.success ==>
        && "plugin_name" in s.result.value.data && "action" in s.result.value.data
        && "execution_time_ms" in s.result.value.data
        && s.result.value.data["execution_time_ms"] == Int(s.took)
  {
  }

  /** The loop of `process_email` over a list of commands. */
  datatype Batch = Batch(result: Try<seq<Outcome>>, took: nat)

  /**
   * The commands in order, each classified by `step` at the clock reading it
   * starts at; the first exception ends the batch.
   */
  function RunBatch(step: (Value, nat) -> Step, commands: seq<Value>, now: nat): (b: Batch)
    ensures b.result.Returned? ==> |b.result.value| == |commands|
  {
    if commands == [] then Batch(Returned([]), 0)
    else
      var before := RunBatch(step, commands[..|commands| - 1], now);
      if before.result.Raised? then before
      else
        var last := step(commands[|commands| - 1], now + before.took);
        match last.result
        case Raised(e) => Batch(Raised(e), before.took)
        case Returned(o) => Batch(Returned(before.result.value + [o]), before.took + last.took)
  }

  /** The clock reading at which the `k`th command starts. */
  function StartOf(step: (Value, nat) -> Step, commands: seq<Value>, now: nat, k: nat): nat
    requires k <= |commands|
  {
    now + RunBatch(step, commands[..k], now).took
  }

  /** One more command: the batch over `commands[..i + 1]` in terms of the batch over `commands[..i]`. */
  lemma BatchExtends(step: (Value, nat) -> Step, commands: seq<Value>, i: nat, now: nat)
    requires i < |commands|
    requires RunBatch(step, commands[..i], now).result.Returned?
    ensures var before := RunBatch(step, commands[..i], now);
      var last := step(commands[i], now + before.took);
      RunBatch(step, commands[..i + 1], now)
      == if last.result.Raised? then Batch(Raised(last.result.error), before.took)
         else Batch(Returned(before.result.value + [last.result.value]), before.took + last.took)
  {
    assert commands[..i + 1][..i] == commands[..i];
  }

  /**
   * One more command, classified as `s` at clock reading `now`: an
   * exception decides the whole batch, and a result extends the results.
   */
  lemma BatchAdvance(step: (Value, nat) -> Step, commands: seq<Value>, i: nat, start: nat, now: nat, s: Step)
    requires i < |commands|
    requires RunBatch(step, commands[..i], start).result.Returned?
    requires now == start + RunBatch(step, commands[..i], start).took
    requires s == step(commands[i], now)
    ensures s.result.Raised? ==> RunBatch(step, commands, start) == Batch(Raised(s.result.error), now - start)
    ensures s.result.Returned? ==>
      RunBatch(step, commands[..i + 1], start)
      == Batch(Returned(RunBatch(step, commands[..i], start).result.value + [s.result.value]), now - start + s.took)
  {
    BatchExtends(step, commands, i, start);
    if s.result.Raised? {
      RaisedPrefixDecides(step, commands, i + 1, start);
    }
  }

  /** A prefix of the batch that already raised decides the whole batch. */
  lemma {:induction false} RaisedPrefixDecides(step: (Value, nat) -> Step, commands: seq<Value>, n: nat, now: nat)
    requires n <= |commands|
    requires RunBatch(step, commands[..n], now).result.Raised?
    ensures RunBatch(step, commands, now) == RunBatch(step, commands[..n], now)
    decreases |commands|
  {
    if n < |commands| {
      var init := commands[..|commands| - 1];
      assert init[..n] == commands[..n];
      RaisedPrefixDecides(step, init, n, now);
    } else {
      assert commands[..n] == commands;
    }
  }

  /**
   * When no command raises, the results are one per command and in input
   * order: the `k`th result is the `k`th command's classification at the
   * moment it started.
   */
  lemma {:induction false} OneResultPerCommand(step: (Value, nat) -> Step, commands: seq<Value>, now: nat, k: nat)
    requires RunBatch(step, commands, now).result.Returned?
    requires k < |commands|
    ensures step(commands[k], StartOf(step, commands, now, k)).result.Returned?
    ensures RunBatch(step, commands, now).result.value[k]
         == step(commands[k], StartOf(step, commands, now, k)).result.value
    decreases |commands|
  {
    var init := commands[..|commands| - 1];
    if k < |commands| - 1 {
      assert init[k] == commands[k];
      assert init[..k] == commands[..k];
      OneResultPerCommand(step, init, now, k);
    } else {
      assert commands[..k] == init;
    }
  }

  /** A command that raises whenever it runs makes the whole batch raise, wherever it stands. */
  lemma {:induction false} RaisingCommandEndsBatch(step: (Value, nat) -> Step, commands: seq<Value>, now: nat, k: nat)
    requires k < |commands|
    requires forall t: nat :: step(commands[k], t).result.Raised?
    ensures RunBatch(step, commands, now).result.Raised?
    decreases |commands|
  {
    var init := commands[..|commands| - 1];
    if k < |commands| - 1 {
      assert init[k] == commands[k];
      RaisingCommandEndsBatch(step, init, now, k);
    } else {
      var before := RunBatch(step, init, now);
      if before.result.Returned? {
        assert step(commands[k], now + before.took).result.Raised?;
      }
    }
  }

  /** The dispatcher's own classification, as a step of the batch. */
  function StepOf(v: RegistryView, email: Email): (Value, nat) -> Step
  {
    (command: Value, now: nat) => CommandSpec(v, email, command, now)
  }

  lemma StepOfApplies(v: RegistryView, email: Email, command: Value, now: nat)
    ensures StepOf(v, email)(command, now) == CommandSpec(v, email, command, now)
  {
  }

  /**
   * The provider interface as the dispatcher uses it: `parse_command(body)`
   * returns a response or raises, and takes some clock time;
   * `get_model_name()` names the model.
   */
  datatype LLMProvider = LLMProvider(
    modelName: string,
    parseCommand: string -> Try<LLMResponse>,
    parseTime: string -> nat)

  /** The Ollama provider behind that interface: its `parse_command` never raises. */
  function OllamaBackend(p: OllamaProvider): (q: LLMProvider)
    ensures q.modelName == p.model
    ensures forall body :: q.parseCommand(body).Returned?
  {
    LLMProvider(p.model,
      (body: string) => Returned(ParseCommand(p, body, None)),
      (body: string) => CallDuration(p, body, None))
  }

  /** What `process_email` returns, and the clock time it uses. */
  datatype Processed = Processed(results: seq<Outcome>, took: nat)

  /**
   * What `process_email` does with the provider's answer, the parse having
   * taken `parseTime` and ended at clock reading `now`: the answer decides
   * between the parse failure, the empty-command failure and the batch.
   * The commands are counted (`len`) before they are tested for emptiness,
   * so data without a length raises first. A non-empty string or mapping is
   * iterated as characters or keys, each a string whose `.get` raises.
   */
  function AfterParse(v: RegistryView, email: Email, response: LLMResponse, parseTime: nat, now: nat): (p: Processed)
    ensures |p.results| >= 1
  {
    if !response.success then
      Processed([Outcome(false, ParseFailurePrefix + response.error,
        map["error" := Str(response.error), "raw_output" := Str(response.raw), "parse_time_ms" := Int(parseTime)])], 0)
    else if !HasLen(response.data) then
      Processed([Collapse(NoLenError(response.data))], 0)
    else if !Truthy(response.data) then
      Processed([Outcome(false, NoCommandsMessage, map["raw_output" := Str(response.raw)])], 0)
    else if !response.data.List? then
      Processed([Collapse(NoGetError(Str("")))], 0)
    else
      var batch := RunBatch(StepOf(v, email), response.data.items, now);
      match batch.result
      case Raised(e) => Processed([Collapse(e)], batch.took)
      case Returned(outcomes) => Processed(outcomes, batch.took)
  }

  /** `process_email(email)` at clock reading `now`: parse the body, then act on the answer. */
  function ProcessSpec(v: RegistryView, llm: LLMProvider, email: Email, now: nat): (p: Processed)
    ensures |p.results| >= 1
  {
    var parseTime := llm.parseTime(Body(email));
    match llm.parseCommand(Body(email))
    case Raised(e) => Processed([Collapse(e)], parseTime)
    case Returned(response) =>
      var after := AfterParse(v, email, response, parseTime, now + parseTime);
      Processed(after.results, parseTime + after.took)
  }

  // ---------------------------------------------------------------------------
  // Properties of the specification

  /**
   * A parse failure gives exactly one failure carrying the error, the raw
   * output and the parse time; the registry is never consulted and no
   * further time passes.
   */
  lemma ParseFailureIsSingleResult(v: RegistryView, w: RegistryView, email: Email, response: LLMResponse, parseTime: nat, now: nat)
    requires !response.success
    ensures var p := AfterParse(v, email, response, parseTime, now);
      && |p.results| == 1 && !p.results[0].success && p.took == 0
      && p.results[0].data.Keys == {"error", "raw_output", "parse_time_ms"}
      && p.results[0].data["error"] == Str(response.error)
      && p.results[0].data["raw_output"] == Str(response.raw)
      && p.results[0].data["parse_time_ms"] == Int(parseTime)
    ensures AfterParse(v, email, response, parseTime, now) == AfterParse(w, email, response, parseTime, now)
  {
  }

  /** The batch-level failure messages can never be confused. */
  lemma BatchFailureMessagesDiffer(error: string, other: string)
    ensures NoCommandsMessage != ParseFailurePrefix + error
    ensures NoCommandsMessage != ProcessingErrorPrefix + error
    ensures ParseFailurePrefix + error != ProcessingErrorPrefix + other
  {
    assert NoCommandsMessage[0] != (ParseFailurePrefix + error)[0];
    assert NoCommandsMessage[0] != (ProcessingErrorPrefix + error)[0];
    assert (ParseFailurePrefix + error)[0] != (ProcessingErrorPrefix + other)[0];
  }

  /**
   * A successful parse with no commands gives exactly one failure carrying
   * the raw output, whose message differs from the parse failure's.
   */
  lemma NoCommandsIsSingleResult(v: RegistryView, email: Email, response: LLMResponse, parseTime: nat, now: nat)
    requires response.success && HasLen(response.data) && !Truthy(response.data)
    ensures var p := AfterParse(v, email, response, parseTime, now);
      && p.results == [Outcome(false, NoCommandsMessage, map["raw_output" := Str(response.raw)])]
      && p.took == 0
      && forall e :: p.results[0].message != ParseFailurePrefix + e
  {
    forall e ensures NoCommandsMessage != ParseFailurePrefix + e {
      BatchFailureMessagesDiffer(e, e);
    }
  }

  /**
   * With no escaping exception, `process_email` gives one result per parsed
   * command, in order: the `k`th is the classification of the `k`th command.
   */
  lemma ProcessedInCommandOrder(v: RegistryView, email: Email, response: LLMResponse, parseTime: nat, now: nat, k: nat)
    requires response.success && response.data.List? && response.data.items != []
    requires RunBatch(StepOf(v, email), response.data.items, now).result.Returned?
    requires k < |response.data.items|
    ensures var p := AfterParse(v, email, response, parseTime, now);
      && |p.results| == |response.data.items|
      && CommandSpec(v, email, response.data.items[k],
                     StartOf(StepOf(v, email), response.data.items, now, k)).result.Returned?
      && p.results[k] == CommandSpec(v, email, response.data.items[k],
                                     StartOf(StepOf(v, email), response.data.items, now, k)).result.value
  {
    OneResultPerCommand(StepOf(v, email), response.data.items, now, k);
  }

  /**
   * An escaping exception collapses the whole batch into the one failure
   * result carrying the exception text, whatever results came before; a
   * command that is not a mapping is one such exception, wherever it stands.
   */
  lemma NonMappingCommandCollapsesBatch(v: RegistryView, email: Email, response: LLMResponse, parseTime: nat, now: nat, k: nat)
    requires response.success && response.data.List?
    requires k < |response.data.items| && !response.data.items[k].Dict?
    ensures var batch := RunBatch(StepOf(v, email), response.data.items, now);
      && batch.result.Raised?
      && AfterParse(v, email, response, parseTime, now).results == [Collapse(batch.result.error)]
  {
    var step := StepOf(v, email);
    forall t: nat ensures step(response.data.items[k], t).result.Raised? {
      assert step(response.data.items[k], t) == CommandSpec(v, email, response.data.items[k], t);
    }
    RaisingCommandEndsBatch(step, response.data.items, now, k);
  }

  /** A missing or falsy action fails with the command itself, whatever the registry holds. */
  lemma MissingActionIgnoresRegistry(v: RegistryView, w: RegistryView, email: Email, command: Value, now: nat)
    requires command.Dict? && !Truthy(GetOr(command.fields, "action", Null))
    ensures CommandSpec(v, email, command, now) == CommandSpec(w, email, command, now)
    ensures CommandSpec(v, email, command, now)
         == Step(Returned(Outcome(false, MissingActionMessage, map["parsed_command" := command])), 0)
  {
  }

  /** An action no stored plugin handles fails with the action and every mapped command, each once. */
  lemma UnsupportedActionListsCommands(v: RegistryView, email: Email, command: Value, now: nat)
    requires Consistent(v)
    requires command.Dict? && "action" in command.fields
    requires command.fields["action"].Str? && command.fields["action"].s != ""
    requires command.fields["action"].s !in v.commandMap
    ensures var s := CommandSpec(v, email, command, now);
      && s.took == 0 && s.result.Returned? && !s.result.value.success
      && s.result.value.data["action"] == command.fields["action"]
      && s.result.value.data["available_commands"].List?
      && |s.result.value.data["available_commands"].items| == |v.commandMap|
      && forall c :: Str(c) in s.result.value.data["available_commands"].items <==> c in v.commandMap
  {
    DistinctCardinality(v.commandOrder, v.commandMap.Keys);
    var items := StrList(v.commandOrder).items;
    forall c ensures Str(c) in items <==> c in v.commandMap {
      if Str(c) in items {
        var k :| 0 <= k < |items| && items[k] == Str(c);
        assert v.commandOrder[k] == c;
      }
      if c in v.commandMap {
        var k :| 0 <= k < |v.commandOrder| && v.commandOrder[k] == c;
        assert items[k] == Str(c);
      }
    }
  }

  /** An unhealthy plugin is never executed: no time passes and the failure names the plugin. */
  lemma UnhealthyPluginNotExecuted(v: RegistryView, email: Email, command: Value, now: nat, name: string)
    requires Consistent(v)
    requires name != "" && command.Dict? && "action" in command.fields && command.fields["action"] == Str(name)
    requires LookupCommand(v, name).Some?
    requires var p := v.plugins[LookupCommand(v, name).value]; HealthOf(p.cls.health, p.status) == Returned(false)
    ensures var owner := LookupCommand(v, name).value;
      CommandSpec(v, email, command, now)
      == Step(Returned(Outcome(false, UnavailableMessage(owner),
           map["plugin_name" := Str(owner), "action" := Str(name)])), 0)
  {
  }

  /** Under the registry invariant a plugin with the default health check is always healthy. */
  lemma DefaultProbeAlwaysHealthy(v: RegistryView, owner: string)
    requires Consistent(v) && owner in v.plugins
    requires v.plugins[owner].cls.health.DefaultCheck?
    ensures HealthOf(v.plugins[owner].cls.health, v.plugins[owner].status) == Returned(true)
  {
  }

  /**
   * A mapped action whose plugin is healthy runs that plugin's `execute`
   * with the email's fields and the command; the fault of `execute` never
   * escapes.
   */
  lemma HealthyPluginIsExecuted(v: RegistryView, email: Email, command: Value, now: nat, name: string)
    requires Consistent(v)
    requires name != "" && command.Dict? && "action" in command.fields && command.fields["action"] == Str(name)
    requires LookupCommand(v, name).Some?
    requires var p := v.plugins[LookupCommand(v, name).value]; HealthOf(p.cls.health, p.status) == Returned(true)
    ensures var p := v.plugins[LookupCommand(v, name).value];
      && CommandSpec(v, email, command, now) == ExecutedStep(p, email, command.fields, Str(name), now)
      && CommandSpec(v, email, command, now).result.Returned?
      && p.cls.metadata.name == LookupCommand(v, name).value
  {
  }

  // ---------------------------------------------------------------------------
  // get_available_commands and get_stats

  /** `get_available_commands`: each mapped command with its owner's description. */
  function AvailableCommands(v: RegistryView): (r: map<string, string>)
    ensures forall c :: c in r ==>
      c in v.commandMap && v.commandMap[c] in v.plugins && r[c] == v.plugins[v.commandMap[c]].cls.metadata.description
    ensures Consistent(v) ==> r.Keys == v.commandMap.Keys
  {
    map c | c in v.commandMap && v.commandMap[c] in v.plugins :: v.plugins[v.commandMap[c]].cls.metadata.description
  }

  /** The health answers of the stored plugins whose check does not raise. */
  function HealthMap(v: RegistryView): map<string, bool>
  {
    map n | n in v.plugins && HealthOf(v.plugins[n].cls.health, v.plugins[n].status).Returned?
      :: HealthOf(v.plugins[n].cls.health, v.plugins[n].status).value
  }

  /** `sum(1 for status in health.values() if status)` */
  function HealthyCount(health: map<string, bool>): (n: nat)
    ensures n <= |health|
  {
    var healthy := set k | k in health && health[k];
    assert healthy <= health.Keys;
    SubsetCardinality(healthy, health.Keys);
    |healthy|
  }

  lemma {:induction false} SubsetCardinality(a: set<string>, b: set<string>)
    requires a <= b
    ensures |a| <= |b|
  {
    if a != {} {
      var x :| x in a;
      SubsetCardinality(a - {x}, b - {x});
    }
  }

  /** One entry of the `plugins` list of the statistics. */
  function PluginEntry(m: PluginMetadata, health: map<string, bool>): Value
  {
    Dict(map["name" := Str(m.name), "version" := Str(m.version), "commands" := StrList(m.commands),
             "healthy" := Bool(m.name in health && health[m.name])])
  }

  /** `get_stats` from the listed plugins, the command count, the health answers and the model name. */
  function Stats(plugins: seq<PluginMetadata>, commandCount: nat, health: map<string, bool>, model: string): (r: Value)
    ensures r.Dict? && r.fields.Keys == {"total_plugins", "total_commands", "healthy_plugins", "llm_model", "plugins"}
    ensures r.fields["plugins"].List? && |r.fields["plugins"].items| == |plugins|
  {
    Dict(map[
      "total_plugins" := Int(|plugins|),
      "total_commands" := Int(commandCount),
      "healthy_plugins" := Int(HealthyCount(health)),
      "llm_model" := Str(model),
      "plugins" := List(seq(|plugins|, k requires 0 <= k < |plugins| => PluginEntry(plugins[k], health)))])
  }

  /**
   * Under the registry invariant, when every stored plugin keeps the default
   * health check, every one of them counts as healthy.
   */
  lemma {:induction false} AllDefaultPluginsHealthy(v: RegistryView)
    requires Consistent(v)
    requires forall n :: n in v.plugins ==> v.plugins[n].cls.health.DefaultCheck?
    ensures HealthMap(v).Keys == v.plugins.Keys
    ensures HealthyCount(HealthMap(v)) == |v.plugins|
  {
    var h := HealthMap(v);
    assert (set k | k in h && h[k]) == v.plugins.Keys;
  }

  /** The answers `health_check()` collects are the health map of the registry's view. */
  lemma HealthAnswersAreHealthMap(registry: PluginRegistry, health: map<string, bool>)
    requires health.Keys == registry.plugins.Keys
    requires forall n :: n in registry.plugins ==> registry.plugins[n].HealthCheck() == Returned(health[n])
    ensures health == HealthMap(registry.View())
  {
  }

  // ---------------------------------------------------------------------------
  // The dispatcher object

  /** The outcomes of a list of result records. */
  function Views(rs: seq<PluginResult>): (o: seq<Outcome>)
    reads rs
    ensures |o| == |rs| && forall k :: 0 <= k < |rs| ==> o[k] == rs[k].View()
  {
    seq(|rs|, k requires 0 <= k < |rs| reads rs => rs[k].View())
  }

  lemma ViewsAppend(rs: seq<PluginResult>, x: PluginResult)
    ensures Views(rs + [x]) == Views(rs) + [x.View()]
  {
  }

  /** The dispatcher's in-place additions to a plugin's result record, exactly as `Enriched` says. */
  method Enrich(res: PluginResult, name: string, action: Value, took: nat)
    modifies res
    ensures res.View() == Enriched(old(res.View()), name, action, took)
  {
    res.data := res.data["plugin_name" := Str(name)];
    res.data := res.data["action" := action];
    res.data := res.data["execution_time_ms" := Int(took)];
  }

  class CommandDispatcher {
    const registry: PluginRegistry
    const llm: LLMProvider
    const clock: Clock

    constructor (registry: PluginRegistry, llm: LLMProvider, clock: Clock)
      ensures this.registry == registry && this.llm == llm && this.clock == clock
    {
      this.registry := registry;
      this.llm := llm;
      this.clock := clock;
    }

    /** `_execute_command(email, command)`, exactly as `CommandSpec` says. */
    method ExecuteCommand(email: Email, command: Value) returns (r: Try<PluginResult>)
      requires registry.Valid()
      modifies clock
      ensures var s := CommandSpec(registry.View(), email, command, old(clock.now));
        && clock.now == old(clock.now) + s.took
        && r.Returned? == s.result.Returned?
        && (r.Returned? ==> fresh(r.value) && r.value.View() == s.result.value)
        && (r.Raised? ==> r.error == s.result.error)
    {
      if !command.Dict? {
        return Raised(NoGetError(command));
      }
      var action := GetOr(command.fields, "action", Null);
      if !Truthy(action) {
        var res := new PluginResult(false, MissingActionMessage, Some(map["parsed_command" := command]));
        return Returned(res);
      }
      if !Hashable(action) {
        return Raised(UnhashableError(action));
      }
      var found := if action.Str? then registry.GetPluginForCommand(action.s) else None;
      if found.None? {
        var available := registry.CommandNames();
        var res := new PluginResult(false, UnsupportedPrefix + Display(action),
          Some(map["action" := action, "available_commands" := StrList(available)]));
        return Returned(res);
      }
      assert registry.View().plugins[LookupCommand(registry.View(), action.s).value]
          == PluginView(found.value.cls, found.value.config, found.value.status);
      r := RunPlugin(found.value, email, command.fields, action);
    }

    /** The part of `_execute_command` after routing: health check, then `execute`. */
    method RunPlugin(plugin: Plugin, email: Email, fields: map<string, Value>, action: Value) returns (r: Try<PluginResult>)
      modifies clock
      ensures var s := RoutedStep(PluginView(plugin.cls, plugin.config, plugin.status), email, fields, action, old(clock.now));
        && clock.now == old(clock.now) + s.took
        && r.Returned? == s.result.Returned?
        && (r.Returned? ==> fresh(r.value) && r.value.View() == s.result.value)
        && (r.Raised? ==> r.error == s.result.error)
    {
      var health := plugin.HealthCheck();
      if health.Raised? {
        return Raised(health.error);
      }
      var name := plugin.Name();
      if !health.value {
        var res := new PluginResult(false, UnavailableMessage(name),
          Some(map["plugin_name" := Str(name), "action" := action]));
        return Returned(res);
      }
      var context := CommandContext(Sender(email), Subject(email), Body(email), fields, clock.now, plugin.config);
      var start := clock.now;
      var outcome := plugin.Execute(context, clock);
      var elapsed := clock.now - start;
      match outcome
      case Returned(res) =>
        Enrich(res, name, action, elapsed);
        r := Returned(res);
      case Raised(e) =>
        var res := new PluginResult(false, ExecutionErrorPrefix + e,
          Some(map["plugin_name" := Str(name), "action" := action, "exception" := Str(e)]));
        r := Returned(res);
    }

    /** One round of the loop of `process_email`: the next command, as `RunBatch` takes it. */
    method RunNext(email: Email, commands: seq<Value>, i: nat, ghost start: nat) returns (r: Try<PluginResult>)
      requires registry.Valid() && i < |commands|
      requires RunBatch(StepOf(registry.View(), email), commands[..i], start).result.Returned?
      requires clock.now == start + RunBatch(StepOf(registry.View(), email), commands[..i], start).took
      modifies clock
      ensures start <= clock.now
      ensures var step := StepOf(registry.View(), email);
        r.Raised? ==> RunBatch(step, commands, start) == Batch(Raised(r.error), clock.now - start)
      ensures var step := StepOf(registry.View(), email);
        r.Returned? ==>
          && fresh(r.value)
          && RunBatch(step, commands[..i + 1], start)
             == Batch(Returned(RunBatch(step, commands[..i], start).result.value + [r.value.View()]), clock.now - start)
    {
      ghost var v := registry.View();
      ghost var s := CommandSpec(v, email, commands[i], clock.now);
      StepOfApplies(v, email, commands[i], clock.now);
      BatchAdvance(StepOf(v, email), commands, i, start, clock.now, s);
      r := ExecuteCommand(email, commands[i]);
    }

    /** The loop of `process_email` over the parsed commands, exactly as `RunBatch` says. */
    method RunCommands(email: Email, commands: seq<Value>) returns (r: Try<seq<PluginResult>>)
      requires registry.Valid()
      modifies clock
      ensures var b := RunBatch(StepOf(registry.View(), email), commands, old(clock.now));
        && clock.now == old(clock.now) + b.took
        && r.Returned? == b.result.Returned?
        && (r.Returned? ==> Views(r.value) == b.result.value)
        && (r.Raised? ==> r.error == b.result.error)
    {
      ghost var v := registry.View();
      ghost var step := StepOf(v, email);
      ghost var t0 := clock.now;
      var results := [];
      var i := 0;
      while i < |commands|
        invariant 0 <= i <= |commands|
        invariant registry.Valid() && registry.View() == v
        invariant RunBatch(step, commands[..i], t0).result.Returned?
        invariant Views(results) == RunBatch(step, commands[..i], t0).result.value
        invariant clock.now == t0 + RunBatch(step, commands[..i], t0).took
      {
        var result := RunNext(email, commands, i, t0);
        if result.Raised? {
          return Raised(result.error);
        }
        ViewsAppend(results, result.value);
        results := results + [result.value];
        i := i + 1;
      }
      assert commands[..i] == commands;
      return Returned(results);
    }

    /** `process_email(email)`, exactly as `ProcessSpec` says. */
    method ProcessEmail(email: Email) returns (results: seq<PluginResult>)
      requires registry.Valid()
      modifies clock
      ensures Views(results) == ProcessSpec(registry.View(), llm, email, old(clock.now)).results
      ensures clock.now == old(clock.now) + ProcessSpec(registry.View(), llm, email, old(clock.now)).took
    {
      var body := Body(email);
      var start := clock.now;
      var answer := llm.parseCommand(body);
      clock.Advance(llm.parseTime(body));
      var parseTime := clock.now - start;
      results := HandleAnswer(email, answer, parseTime, start);
    }

    /** The part of `process_email` after the provider has answered or raised, the parse having started at `start`. */
    method HandleAnswer(email: Email, answer: Try<LLMResponse>, parseTime: nat, ghost start: nat) returns (results: seq<PluginResult>)
      requires registry.Valid()
      requires answer == llm.parseCommand(Body(email)) && parseTime == llm.parseTime(Body(email))
      requires clock.now == start + parseTime
      modifies clock
      ensures Views(results) == ProcessSpec(registry.View(), llm, email, start).results
      ensures clock.now == start + ProcessSpec(registry.View(), llm, email, start).took
    {
      match answer
      case Raised(e) =>
        var res := new PluginResult(false, ProcessingErrorPrefix + e, Some(map["exception" := Str(e)]));
        results := [res];
      case Returned(response) =>
        results := HandleResponse(email, response, parseTime);
    }

    /** What `process_email` does once the provider has answered, exactly as `AfterParse` says. */
    method HandleResponse(email: Email, response: LLMResponse, parseTime: nat) returns (results: seq<PluginResult>)
      requires registry.Valid()
      modifies clock
      ensures Views(results) == AfterParse(registry.View(), email, response, parseTime, old(clock.now)).results
      ensures clock.now == old(clock.now) + AfterParse(registry.View(), email, response, parseTime, old(clock.now)).took
    {
      if !response.success {
        var res := new PluginResult(false, ParseFailurePrefix + response.error,
          Some(map["error" := Str(response.error), "raw_output" := Str(response.raw), "parse_time_ms" := Int(parseTime)]));
        return [res];
      }
      var commands := response.data;
      if !HasLen(commands) {
        var e := NoLenError(commands);
        var res := new PluginResult(false, ProcessingErrorPrefix + e, Some(map["exception" := Str(e)]));
        return [res];
      }
      if !Truthy(commands) {
        var res := new PluginResult(false, NoCommandsMessage, Some(map["raw_output" := Str(response.raw)]));
        return [res];
      }
      if !commands.List? {
        // Iterating a string yields its characters and a mapping its keys: the first is a string, whose `.get` raises.
        var e := NoGetError(Str(""));
        var res := new PluginResult(false, ProcessingErrorPrefix + e, Some(map["exception" := Str(e)]));
        return [res];
      }
      var outcome := RunCommands(email, commands.items);
      match outcome
      case Raised(e) =>
        var res := new PluginResult(false, ProcessingErrorPrefix + e, Some(map["exception" := Str(e)]));
        results := [res];
      case Returned(rs) =>
        results := rs;
    }

    /** `get_available_commands`: walks the command map in order, keeping commands whose owner is stored. */
    method GetAvailableCommands() returns (r: map<string, string>)
      requires registry.Valid()
      ensures r == AvailableCommands(registry.View())
    {
      var names := registry.CommandNames();
      var commandMap := registry.ListCommands();
      r := map[];
      var i := 0;
      while i < |names|
        invariant 0 <= i <= |names|
        invariant forall c :: c in r <==> c in names[..i] && c in commandMap && commandMap[c] in registry.plugins
        invariant forall c :: c in r ==> r[c] == AvailableCommands(registry.View())[c]
      {
        var command := names[i];
        assert names[..i + 1] == names[..i] + [command];
        if command in commandMap {
          var plugin := registry.GetPlugin(commandMap[command]);
          if plugin.Some? {
            r := r[command := plugin.value.cls.metadata.description];
          }
        }
        i := i + 1;
      }
      assert names[..i] == names;
    }

    /** `get_stats`: the counts, the health answers and one entry per listed plugin; a raising health check propagates. */
    method GetStats() returns (r: Try<Value>)
      requires registry.Valid()
      ensures r.Returned? <==> forall n :: n in registry.plugins ==> registry.plugins[n].HealthCheck().Returned?
      ensures r.Returned? ==>
        r.value == Stats(registry.ListPlugins(), |registry.commandMap|, HealthMap(registry.View()), llm.modelName)
    {
      var plugins := registry.ListPlugins();
      var health := registry.HealthCheck(None);
      if health.Raised? {
        return Raised(health.error);
      }
      HealthAnswersAreHealthMap(registry, health.value);
      var commands := registry.ListCommands();
      r := Returned(Stats(plugins, |commands|, health.value, llm.modelName));
    }
  }
}
