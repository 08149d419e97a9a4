/**
 * The plugin contract: lifecycle status, metadata, the execution context and
 * result record, schema-driven configuration validation and the default
 * health check. A concrete plugin class is not code here but a description of
 * how its abstract methods answer (`PluginClass`): the engine treats
 * `get_metadata`, `initialize`, `health_check`, `execute` and `cleanup` as
 * oracles.
 */
module PluginBase {
  import opened Values

  /** Plugin lifecycle status: exactly these four values. */
  datatype PluginStatus = Unloaded | Loaded | Initialized | Failed

  /** What a plugin declares about itself. `configSchema` keeps the dict's insertion order. */
  datatype PluginMetadata = PluginMetadata(
    name: string,
    version: string,
    author: string,
    description: string,
    commands: seq<string>,
    dependencies: seq<string>,
    configSchema: seq<(string, Value)>,
    priority: int)

  /** What the dispatcher hands to `execute`; `timestamp` is a clock reading. */
  datatype CommandContext = CommandContext(
    sender: string,
    subject: string,
    body: string,
    parsedCommand: map<string, Value>,
    timestamp: nat,
    config: map<string, Value>)

  /** The arguments of the `PluginResult(...)` an `execute` builds; `data` may be omitted. */
  datatype Reply = Reply(success: bool, message: string, data: Option<map<string, Value>>)

  /** One call of `execute`: how long it took, and what it returned or raised. */
  datatype ExecOutcome = ExecOutcome(took: nat, answer: Try<Reply>)

  /** How `initialize` answers: True, False, or an exception. */
  datatype InitAnswer = InitTrue | InitFalse | InitRaises

  /** How `health_check` answers: the inherited default, an override's answer, or an exception. */
  datatype HealthProbe = DefaultCheck | Probe(healthy: bool) | ProbeRaises(error: string)

  /** How `validate_config` answers: the inherited schema check, an override's answer, or an exception. */
  datatype ValidationHook = DefaultValidation | Validates(valid: bool) | ValidationRaises(error: string)

  /**
   * A concrete plugin class, as the registry sees it: its constructor may
   * raise (`constructionFault`), and each abstract method answers as given.
   */
  datatype PluginClass = PluginClass(
    metadata: PluginMetadata,
    constructionFault: Option<string>,
    initialize: InitAnswer,
    validation: ValidationHook,
    health: HealthProbe,
    execute: CommandContext -> ExecOutcome,
    cleanupFault: Option<string>)

  /** The observable part of a `PluginResult` (its wall-clock timestamp is not modelled). */
  datatype Outcome = Outcome(success: bool, message: string, data: map<string, Value>)

  /** An abstract clock counting milliseconds; calls to oracles advance it. */
  class Clock {
    var now: nat

    constructor (start: nat)
      ensures now == start
    {
      now := start;
    }

    /** Time passes while an oracle runs. */
    method Advance(dt: nat)
      modifies this
      ensures now == old(now) + dt
    {
      now := now + dt;
    }
  }

  /** A plugin's result record; the dispatcher adds keys to `data` in place. */
  class PluginResult {
    var success: bool
    var message: string
    var data: map<string, Value>

    /** `PluginResult(success, message, data)`: omitted data becomes an empty mapping. */
    constructor (success: bool, message: string, data: Option<map<string, Value>>)
      ensures this.success == success && this.message == message
      ensures data.None? ==> this.data == map[]
      ensures data.Some? ==> this.data == data.value
    {
      this.success := success;
      this.message := message;
      this.data := if data.Some? then data.value else map[];
    }

    function View(): Outcome
      reads this
    {
      Outcome(success, message, data)
    }
  }

  /** A schema entry is required when it maps `required` to a truthy value. */
  predicate Required(entry: Value)
    requires entry.Dict?
  {
    Truthy(GetOr(entry.fields, "required", Bool(false)))
  }

  /**
   * `validate_config` against an ordered schema: the first entry that is not a
   * mapping raises (its `.get` fails), the first required key missing from the
   * config gives false, and otherwise the configuration is valid.
   */
  function Validation(schema: seq<(string, Value)>, config: map<string, Value>): Try<bool>
  {
    if schema == [] then Returned(true)
    else if !schema[0].1.Dict? then Raised(NoGetError(schema[0].1))
    else if Required(schema[0].1) && schema[0].0 !in config then Returned(false)
    else Validation(schema[1..], config)
  }

  /** An empty schema accepts every configuration. */
  lemma EmptySchemaAccepts(config: map<string, Value>)
    ensures Validation([], config) == Returned(true)
  {
  }

  /**
   * When every schema entry is a mapping, validation never raises, and it
   * fails exactly when some required key is missing from the configuration;
   * entries that are not required never cause a failure.
   */
  lemma {:induction false} ValidationRejectsExactlyMissingRequired(
    schema: seq<(string, Value)>, config: map<string, Value>)
    requires forall k :: 0 <= k < |schema| ==> schema[k].1.Dict?
    ensures Validation(schema, config).Returned?
    ensures Validation(schema, config) == Returned(false) <==>
      exists k :: 0 <= k < |schema| && Required(schema[k].1) && schema[k].0 !in config
  {
    if schema != [] {
      ValidationRejectsExactlyMissingRequired(schema[1..], config);
      if Required(schema[0].1) && schema[0].0 !in config {
      } else {
        if exists k :: 0 <= k < |schema| && Required(schema[k].1) && schema[k].0 !in config {
          var k :| 0 <= k < |schema| && Required(schema[k].1) && schema[k].0 !in config;
          assert schema[1..][k - 1] == schema[k];
        }
      }
    }
  }

  /**
   * Validation only looks at the keys of the configuration: two
   * configurations with the same keys get the same answer.
   */
  lemma {:induction false} ValidationDependsOnKeysOnly(
    schema: seq<(string, Value)>, c1: map<string, Value>, c2: map<string, Value>)
    requires c1.Keys == c2.Keys
    ensures Validation(schema, c1) == Validation(schema, c2)
  {
    if schema != [] {
      ValidationDependsOnKeysOnly(schema[1..], c1, c2);
    }
  }

  /** What `health_check` gives for a probe and a status. */
  function HealthOf(probe: HealthProbe, status: PluginStatus): Try<bool>
  {
    match probe
    case DefaultCheck => Returned(status == Initialized)
    case Probe(h) => Returned(h)
    case ProbeRaises(e) => Raised(e)
  }

  /** What `validate_config` gives for a class and a configuration. */
  function ValidationOf(cls: PluginClass, config: map<string, Value>): Try<bool>
  {
    match cls.validation
    case DefaultValidation => Validation(cls.metadata.configSchema, config)
    case Validates(v) => Returned(v)
    case ValidationRaises(e) => Raised(e)
  }

  /** A plugin instance: its class, its configuration and its mutable lifecycle status. */
  class Plugin {
    const cls: PluginClass
    const config: map<string, Value>
    var status: PluginStatus

    /** `plugin_class(config, logger)`: a fresh instance starts UNLOADED. */
    constructor (cls: PluginClass, config: map<string, Value>)
      requires cls.constructionFault.None?
      ensures this.cls == cls && this.config == config
      ensures status == Unloaded
    {
      this.cls := cls;
      this.config := config;
      status := Unloaded;
    }

    function Name(): string
    {
      cls.metadata.name
    }

    /**
     * `validate_config`: an override answers as it does; the inherited
     * method walks the schema in order with an early return. Either way it
     * reads the configuration and metadata and changes nothing.
     */
    method ValidateConfig() returns (verdict: Try<bool>)
      ensures verdict == ValidationOf(cls, config)
      ensures cls.validation.DefaultValidation? ==> verdict == Validation(cls.metadata.configSchema, config)
    {
      match cls.validation {
        case Validates(v) => return Returned(v);
        case ValidationRaises(e) => return Raised(e);
        case DefaultValidation =>
      }
      var schema := cls.metadata.configSchema;
      if schema == [] {
        return Returned(true);
      }
      var i := 0;
      while i < |schema|
        invariant 0 <= i <= |schema|
        invariant Validation(schema, config) == Validation(schema[i..], config)
      {
        var (key, entry) := schema[i];
        if !entry.Dict? {
          return Raised(NoGetError(entry));
        }
        if Required(entry) && key !in config {
          return Returned(false);
        }
        assert schema[i..][1..] == schema[i + 1..];
        i := i + 1;
      }
      return Returned(true);
    }

    /** `health_check`: by default, healthy exactly when the status is INITIALIZED. */
    function HealthCheck(): (r: Try<bool>)
      reads this
      ensures cls.health.DefaultCheck? ==> (r == Returned(true) <==> status == Initialized)
      ensures cls.health.DefaultCheck? ==> r.Returned?
    {
      HealthOf(cls.health, status)
    }

    /**
     * `execute(context)`: the oracle's answer; a normal return yields a fresh
     * result record, and the clock advances by the time the call took.
     */
    method Execute(context: CommandContext, clock: Clock) returns (r: Try<PluginResult>)
      modifies clock
      ensures clock.now == old(clock.now) + cls.execute(context).took
      ensures r.Returned? <==> cls.execute(context).answer.Returned?
      ensures r.Returned? ==> fresh(r.value) && r.value.View() == ReplyOutcome(cls.execute(context).answer.value)
      ensures r.Raised? ==> r.error == cls.execute(context).answer.error
    {
      var o := cls.execute(context);
      clock.Advance(o.took);
      match o.answer
      case Returned(reply) =>
        var res := new PluginResult(reply.success, reply.message, reply.data);
        r := Returned(res);
      case Raised(e) =>
        r := Raised(e);
    }
  }

  /** The record a reply builds: `PluginResult(success, message, data)`. */
  function ReplyOutcome(reply: Reply): (o: Outcome)
    ensures o.success == reply.success && o.message == reply.message
    ensures reply.data.None? ==> o.data == map[]
    ensures reply.data.Some? ==> o.data == reply.data.value
  {
    Outcome(reply.success, reply.message, if reply.data.Some? then reply.data.value else map[])
  }
}
