# Command-routing engine of an email-driven home assistant, in Dafny

The assistant reads an email, asks an LLM to turn its body into a JSON list of commands, and routes each command to the plugin that claims it. The plugin's result goes back to the sender. This project models the engine behind that and proves what it promises. The engine has five parts:

- **Plugin contract** (`plugin_base.dfy`, module `PluginBase`):
  - the four lifecycle states;
  - the result record, whose `data` the dispatcher extends in place;
  - schema-driven configuration validation;
  - the default health check (healthy exactly when INITIALIZED).

  A concrete plugin class is a `PluginClass` value, because the engine only sees how its abstract methods answer: its metadata, whether its constructor raises, what `initialize` answers, how `validate_config` answers (the inherited schema check, an override's answer, or an exception), its health probe, what `execute` returns or raises (and how long it takes), and whether `cleanup` raises. A plugin instance is a `Plugin` object with a mutable `status`.
- **Plugin registry** (`registry.dfy`, module `Registry`). It keeps two tables that change together: plugin name → plugin and command → plugin name. Each table also keeps the insertion order of a Python dict. The object invariant `Valid` says three things, and every operation preserves it:
  - every command maps to a stored plugin that claims it;
  - every stored plugin is stored under its own name and is INITIALIZED;
  - the orders list the keys exactly once.

  The operations are `register`, `unload_plugin`, `reload_plugin`, `cleanup_all`, the lookups and the counts.
- **Command dispatcher** (`dispatcher.dfy`, module `Dispatcher`). Its behaviour is stated by specification functions over a value view of the registry:
  - `CommandSpec` is one command;
  - `RunBatch` is the ordered loop, where the first escaping exception ends the batch;
  - `ProcessSpec` and `AfterParse` are a whole email.

  The `CommandDispatcher` methods are proved to produce exactly those results and to advance the clock by exactly the time the specification accounts for. Lemmas state the batch-level outcomes: parse failure, no commands, one result per command in order, and collapse on an escaping exception. They also state the per-command classifications: missing action, unsupported action, unhealthy plugin, executed, and faulted.
- **JSON extraction of the Ollama provider** (`ollama.dfy`, module `Ollama`). The reply is tried in a fixed order, and the first candidate that parses wins:
  1. the whole reply;
  2. the inside of the first ```` ```json ```` fence;
  3. the inside of the first bare ```` ``` ```` fence;
  4. the span from the first `[` to the last `]`.

  `json.loads` is an uninterpreted partial function. `parse_command` wraps the chat call, which is an oracle, into the response record.
- **Configuration** (`config.dfy`, module `Config`):
  - the deep merge of YAML documents;
  - the layering of base, environment and secrets in `load`;
  - the dotted-path `get`;
  - `${NAME}` substitution from the process environment, which is a map parameter.

  `values.dfy` (module `Values`) holds what the parts share:
  - the YAML/JSON value type;
  - Python truthiness, and `len()` and hashability of values;
  - the texts of the exceptions the engine can raise;
  - the option and exception (`Try`) types;
  - the key orders of Python dicts.

Time is an abstract millisecond `Clock`. Each oracle call reports how long it took, and elapsed times are clock differences. Exceptions are `Raised(text)` values of `Try`.

Some behaviours of the code are easy to misread from its docstrings and log messages; the model follows the code as written:
- An `initialize` that raises is caught by `register`'s outer handler. The discarded instance stays LOADED, not FAILED (`core/plugin_registry.py:66-70,91-93`).
- A schema entry that is not a mapping makes `validate_config` raise. `register` then answers false and the instance stays UNLOADED (`core/plugin_base.py:151-152`).
- A plugin may claim no commands at all: nothing checks that its command list is non-empty.
- `PluginMetadata.priority` is documented as routing priority (`core/plugin_base.py:33`), but no code reads it. Routing is last-registration-wins: a later plugin that claims a command takes it over (`core/plugin_registry.py:76-83`).
- `get_plugin_for_command` treats a command mapped to the empty name as unmapped, and `health_check("")` checks every plugin (falsy tests at `core/plugin_registry.py:106,174`).
- `process_email` counts the commands before it tests them for emptiness (`core/command_dispatcher.py:92`). So parsed data without a length collapses the batch instead of giving the "no commands" result. Non-empty data that is a string or a mapping is iterated as characters or keys, whose `.get` raises.
- A parsed JSON value without a length (a number or a boolean) makes the logging line of `parse_command` raise. The generic handler then reports it as a failed LLM call with empty raw text (`core/providers/ollama_provider.py:82,112-121`). A parsed JSON `null` reads as an extraction failure.
- A `load` whose second merge raises answers false but leaves the configuration as the first merge made it. The first assignment has already happened (`core/config_manager.py:64-65`).

## Model

| member | source | states |
|---|---|---|
| PluginBase.Plugin.constructor | core/plugin_base.py:69-79 | a new instance keeps its class and configuration and starts UNLOADED |
| PluginBase.PluginResult.constructor | core/plugin_base.py:51-54 | success and message are kept; omitted data becomes an empty mapping |
| PluginBase.ReplyOutcome | core/plugin_base.py:51-54 | the record a plugin's reply builds keeps success and message, keeps the given data, and has empty data when none was given |
| PluginBase.Plugin.ValidateConfig | core/plugin_base.py:136-156 | the verdict is `ValidationOf` the class and configuration: an override's answer or exception as given, and for the inherited method the loop's verdict is exactly `Validation` of the schema against the configuration; it changes nothing (no modifies clause) |
| PluginBase.EmptySchemaAccepts | core/plugin_base.py:146-148 | an empty schema accepts every configuration |
| PluginBase.ValidationRejectsExactlyMissingRequired | core/plugin_base.py:150-156 | with mapping entries, validation never raises, and it is false iff some entry marked required has no key in the configuration; entries not required never fail it |
| PluginBase.ValidationDependsOnKeysOnly | core/plugin_base.py:151-152 | configurations with the same keys get the same verdict |
| PluginBase.Plugin.HealthCheck | core/plugin_base.py:158-168 | the default check answers true iff the status is INITIALIZED, and never raises |
| PluginBase.Plugin.Execute | core/plugin_base.py:106-121 | returns a fresh result record built from the plugin's reply or passes its exception on; the clock advances by the time the call took |
| Registry.PluginRegistry.constructor | core/plugin_registry.py:18-27 | both tables start empty and the invariant holds |
| Registry.PluginRegistry.Register | core/plugin_registry.py:29-93 | succeeds iff construction does not raise, the name is new, validation answers true and `initialize` answers true; on success the plugin is stored last in order, each claimed command maps to it (last wins) and unclaimed commands keep their owner; every failure leaves all four tables unchanged; the built instance ends in `EndStatus`; the invariant is preserved |
| Registry.EndStatusInitializedIffAccepted | core/plugin_registry.py:59-72 | the instance ends INITIALIZED iff registration is accepted; failed validation and a false `initialize` leave it FAILED |
| Registry.PluginRegistry.Store | core/plugin_registry.py:72-82 | stores the plugin under its name, appends it to the order and maps its commands to it, keeping every other mapping and the invariant |
| Registry.PluginRegistry.MapCommands | core/plugin_registry.py:76-83 | after the loop the claimed commands map to the name and the others keep their owner; new commands join the order |
| Registry.LookupCommand | core/plugin_registry.py:105-117 | the answer is always a stored plugin; under the invariant there is one iff the command is mapped to a non-empty name, so the "mapped but missing" branch cannot be taken |
| Registry.PluginRegistry.GetPluginForCommand | core/plugin_registry.py:95-117 | the plugin the command map names, or none when the command is unmapped |
| Registry.PluginRegistry.GetPlugin | core/plugin_registry.py:119-129 | a plugin iff the name is stored, and then the plugin of that name |
| Registry.PluginRegistry.ListPlugins | core/plugin_registry.py:131-138 | one metadata entry per stored plugin, in registration order |
| Registry.PluginRegistry.ListCommands | core/plugin_registry.py:140-147 | the command map's keys, each mapped to a stored plugin under the invariant |
| Registry.PluginRegistry.CommandNames | core/plugin_registry.py:140-147 | every mapped command exactly once, in first-registration order |
| Registry.PluginRegistry.GetPluginStatus | core/plugin_registry.py:149-160 | a status iff the name is stored, and then INITIALIZED under the invariant |
| Registry.PluginRegistry.GetPluginCount | core/plugin_registry.py:258-265 | the number of stored plugins, equal to the length of the registration order |
| Registry.PluginRegistry.GetCommandCount | core/plugin_registry.py:267-274 | the number of mapped commands, equal to the length of the command order |
| Registry.PluginRegistry.HealthCheck | core/plugin_registry.py:162-184 | a named stored plugin gives one entry; an unknown name gives an empty map; no name gives one entry per stored plugin with its answer; a raising probe propagates |
| Registry.PluginRegistry.UnmapCommands | core/plugin_registry.py:208-212 | removes exactly the listed commands still mapped to the name; other mappings and the order of the rest are kept |
| Registry.PluginRegistry.UnloadPlugin | core/plugin_registry.py:186-223 | an unknown name or a raising `cleanup` gives false and no change; otherwise the plugin leaves both tables with every command mapped to it, and its status becomes UNLOADED; the invariant is preserved |
| Registry.PluginRegistry.ReloadPlugin | core/plugin_registry.py:225-247 | a raising constructor propagates and a stored plugin that fails to unload gives false, both with all four tables unchanged; otherwise the answer is exactly `register`'s, the old plugin of that name is UNLOADED, and it leaves both tables with every command mapped to it (orders by `Without` and `Restrict`); on false nothing else changes; on true a fresh INITIALIZED instance with the given class and configuration is stored last and owns its commands, every other plugin and mapping kept |
| Registry.PluginRegistry.Evict | core/plugin_registry.py:240-244 | an absent name changes nothing and gives true; a stored plugin is unloaded, or false with no change when its cleanup raises |
| Registry.PluginRegistry.CleanupAll | core/plugin_registry.py:249-256 | the tables end as `CleanupTables` of the old tables over the snapshot of names: exactly the plugins whose cleanup raises stay, with their commands; the others are UNLOADED; when no cleanup raises both tables end empty; both key orders are the old orders restricted to the surviving keys, as each `del` keeps the other keys in insertion order |
| Registry.PluginRegistry.UnloadEach | core/plugin_registry.py:253-254 | the loop leaves the tables as `CleanupTables` of the starting tables over the names; every stored plugin is one of the starting ones, and each starting plugin that left is UNLOADED |
| Registry.PluginRegistry.Unload | core/plugin_registry.py:254 | one call with its answer dropped moves the tables as `UnloadTables` says, and keeps every plugin of the starting tables INITIALIZED iff it is still stored, UNLOADED otherwise |
| Registry.CleanupStep | core/plugin_registry.py:253-254 | one call, successful or not, keeps `CleanupProgress`: the stored plugins are the starting ones less those removed, each removed one had a cleanup that does not raise, each remaining one whose cleanup would not raise is still ahead in the snapshot, and the command map lost exactly the commands of removed plugins |
| Registry.CleanupOrderStep | core/plugin_registry.py:209-215 | one call keeps both key orders equal to the starting orders restricted to the surviving keys |
| Registry.CleanupRound | core/plugin_registry.py:253-254 | one `UnloadTables` round keeps both the progress and the key orders |
| Registry.CleanupTablesProgress | core/plugin_registry.py:253-254 | after the first `i` names of the snapshot, the tables satisfy `CleanupProgress` and both key orders are the starting orders restricted to the surviving keys |
| Registry.CleanupFinished | core/plugin_registry.py:249-256 | after the whole snapshot exactly the plugins whose cleanup raises are left, with their commands and unchanged; with no raising cleanup both tables are empty |
| Ollama.StripIdempotent | core/providers/ollama_provider.py:153 | stripping twice is stripping once |
| Ollama.FenceSpan | core/providers/ollama_provider.py:144-150 | no span when the opener is absent or has no fence after it |
| Ollama.FenceSpanIsFirstFence | core/providers/ollama_provider.py:144-150 | the span is the text between the first opener and the first fence after it |
| Ollama.BracketSpan | core/providers/ollama_provider.py:158-160 | a span exists iff some `[` precedes some `]`; it starts with `[` and ends with `]` |
| Ollama.BracketSpanIsFirstToLast | core/providers/ollama_provider.py:158-160 | the span is greedy: it runs from the first `[` of the text to the last `]` |
| Ollama.FirstParseIsFirstParsing | core/providers/ollama_provider.py:136-169 | the first parse succeeds iff some candidate parses, and is then the parse of a candidate before which none parses |
| Ollama.ExtractedJson | core/providers/ollama_provider.py:136-140 | a reply that parses as a whole is taken as is |
| Ollama.ExtractedJsonIsFirstParsingCandidate | core/providers/ollama_provider.py:123-169 | extraction fails iff none of the four candidates parses; otherwise it is the first that does |
| Ollama.ParseJsonResponse | core/providers/ollama_provider.py:123-169 | the loop with early returns computes exactly `ExtractedJson` |
| Ollama.TaggedFenceWins | core/providers/ollama_provider.py:142-156 | a reply that is not JSON but whose first ```json fence holds JSON gives that value, whatever brackets follow |
| Ollama.TaggedBlockReply | core/providers/ollama_provider.py:142-156 | text without backticks, then a ```json block and its fence: the value is the parse of the stripped block |
| Ollama.ParseCommand | core/providers/ollama_provider.py:40-121 | the model is always reported; success iff the extracted value exists and has a length, carrying it and the reply; a failed call gives "LLM call failed" with empty raw text; extraction failure or `null` gives the parse failure with the reply; a value without a length (a number or a boolean) gives "LLM call failed" with the `len()` error text and empty raw text; failures carry an empty list and a non-empty error |
| Dispatcher.OllamaBackend | core/providers/ollama_provider.py:40-121 | behind the provider interface, the Ollama provider never raises and names its model |
| Dispatcher.CommandSpec | core/command_dispatcher.py:119-212 | a command whose classification raises takes no time, since no plugin ran |
| Dispatcher.UnsupportedStep | core/command_dispatcher.py:147-157 | an unsupported action fails at once |
| Dispatcher.RoutedStep | core/command_dispatcher.py:159-212 | a raising health check takes no time |
| Dispatcher.ExecutedStep | core/command_dispatcher.py:180-212 | an executed plugin always yields a result and takes exactly the time `execute` took; a returned reply keeps its success, message and data, with plugin_name, action and execution_time_ms set to the time taken; an exception becomes a failure with the error in its message and data exactly plugin_name, action and exception |
| Dispatcher.EnrichedSetsThreeKeys | core/command_dispatcher.py:186-189 | a returned result keeps success and message, gains plugin_name, action and execution_time_ms (overwriting same-named keys) and keeps every other key |
| Dispatcher.SuccessfulCommandIsTimed | core/command_dispatcher.py:119-197 | every successful result carries plugin_name, action and the time the command took |
| Dispatcher.RunBatch | core/command_dispatcher.py:101-104 | a batch without exception has one result per command |
| Dispatcher.RaisedPrefixDecides | core/command_dispatcher.py:101-117 | once a prefix of the batch raised, the rest of the commands do not matter |
| Dispatcher.OneResultPerCommand | core/command_dispatcher.py:101-109 | the `k`th result is the `k`th command's classification at the clock reading it started at |
| Dispatcher.RaisingCommandEndsBatch | core/command_dispatcher.py:101-117 | a command that always raises makes the batch raise, wherever it stands |
| Dispatcher.AfterParse | core/command_dispatcher.py:77-117 | handling the provider's answer always yields at least one result |
| Dispatcher.ProcessSpec | core/command_dispatcher.py:39-117 | processing an email always yields at least one result |
| Dispatcher.ParseFailureIsSingleResult | core/command_dispatcher.py:78-88 | a parse failure gives exactly one failure holding error, raw_output and parse_time_ms, without consulting the registry or taking time |
| Dispatcher.BatchFailureMessagesDiffer | core/command_dispatcher.py:80-117 | the parse-failure, no-command and processing-error messages can never coincide |
| Dispatcher.NoCommandsIsSingleResult | core/command_dispatcher.py:94-99 | an empty command list gives exactly one failure carrying raw_output, with a message unlike the parse failure's |
| Dispatcher.ProcessedInCommandOrder | core/command_dispatcher.py:101-109 | with no escaping exception, one result per command, in order |
| Dispatcher.NonMappingCommandCollapsesBatch | core/command_dispatcher.py:111-117 | a command that is not a mapping, wherever it stands, collapses the batch into the single processing-error result |
| Dispatcher.MissingActionIgnoresRegistry | core/command_dispatcher.py:134-142 | a missing or falsy action fails with the command itself, whatever the registry holds |
| Dispatcher.UnsupportedActionListsCommands | core/command_dispatcher.py:145-157 | an unmapped action fails with the action and available_commands listing every mapped command exactly once |
| Dispatcher.UnhealthyPluginNotExecuted | core/command_dispatcher.py:159-167 | an unhealthy plugin is not executed: the failure names the plugin and the action, and no time passes |
| Dispatcher.DefaultProbeAlwaysHealthy | core/command_dispatcher.py:159-160 | under the registry invariant a plugin with the default check is healthy |
| Dispatcher.HealthyPluginIsExecuted | core/command_dispatcher.py:169-212 | a healthy routed plugin runs `execute` on the email's fields and the command, and its fault never escapes |
| Dispatcher.AvailableCommands | core/command_dispatcher.py:214-230 | each mapped command with its owner's description; under the invariant, every mapped command |
| Dispatcher.HealthyCount | core/command_dispatcher.py:245 | the healthy count never exceeds the number of answers |
| Dispatcher.Stats | core/command_dispatcher.py:242-256 | the statistics have exactly the five keys and one plugin entry per listed plugin |
| Dispatcher.AllDefaultPluginsHealthy | core/command_dispatcher.py:239-245 | when every plugin keeps the default check, every stored plugin counts as healthy |
| Dispatcher.HealthAnswersAreHealthMap | core/plugin_registry.py:180-182 | the answers `health_check()` collects are the health map of the registry |
| Dispatcher.CommandDispatcher.constructor | core/command_dispatcher.py:21-37 | the dispatcher holds the given registry and provider |
| Dispatcher.CommandDispatcher.ExecuteCommand | core/command_dispatcher.py:119-212 | result, exception and elapsed clock time are exactly `CommandSpec`'s |
| Dispatcher.CommandDispatcher.RunPlugin | core/command_dispatcher.py:159-212 | health check, context and execution with in-place enrichment are exactly `RoutedStep` |
| Dispatcher.Enrich | core/command_dispatcher.py:186-189 | the three in-place assignments to a returned record's data leave it exactly `Enriched` |
| Dispatcher.CommandDispatcher.RunNext | core/command_dispatcher.py:101-104 | one round of the loop: the next command either raises, and then decides the whole batch, or extends the results exactly as `RunBatch` over one more command says |
| Dispatcher.CommandDispatcher.RunCommands | core/command_dispatcher.py:101-109 | the loop appends one result per command and stops at the first exception, exactly as `RunBatch` says |
| Dispatcher.CommandDispatcher.ProcessEmail | core/command_dispatcher.py:39-117 | the results and the time taken are exactly `ProcessSpec`'s; a raising provider collapses into one result |
| Dispatcher.CommandDispatcher.HandleAnswer | core/command_dispatcher.py:69-117 | given the provider's answer or exception for the email's body and the parse time, the results and the clock are exactly `ProcessSpec`'s; an exception collapses into one result |
| Dispatcher.CommandDispatcher.HandleResponse | core/command_dispatcher.py:77-117 | the results and time after the provider answered are exactly `AfterParse`'s |
| Dispatcher.CommandDispatcher.GetAvailableCommands | core/command_dispatcher.py:214-230 | the loop over the command map computes exactly `AvailableCommands` |
| Dispatcher.CommandDispatcher.GetStats | core/command_dispatcher.py:232-256 | returns iff no health probe raises, and then the statistics of the listed plugins, the command count, the health map and the model name |
| Config.MergeDicts | core/config_manager.py:115-125 | the merge's keys are the union of both key sets |
| Config.DeepMerge | core/config_manager.py:104-125 | the copy-and-assign loop with recursion computes exactly `MergeResult`, including the exceptions for a base that cannot be copied, an override without `items` and a list base |
| Config.MergeEntries | core/config_manager.py:115-123 | base-only keys keep their value; keys holding mappings on both sides are merged recursively; otherwise the override wins |
| Config.MergeIdentities | core/config_manager.py:115-125 | an empty override gives the base; an empty base gives the override |
| Config.MergeIdempotent | core/config_manager.py:104-125 | merging a document with itself gives it back |
| Config.MergeAbsorbs | core/config_manager.py:104-125 | applying the same override layer twice is applying it once |
| Config.OverrideWinsAlongPath | core/config_manager.py:117-123 | a non-mapping value at a path of the override is what the merge holds at that path |
| Config.BaseShowsThroughGaps | core/config_manager.py:115 | a path whose first key the override lacks reads as in the base |
| Config.Split | core/config_manager.py:172 | a split has at least one piece and no piece contains the separator |
| Config.JoinSplit | core/config_manager.py:172 | joining the pieces of a split gives the path back |
| Config.SplitJoin | core/config_manager.py:172 | splitting a join of separator-free pieces gives the pieces back |
| Config.SplitAtFirst | core/config_manager.py:172 | a separator-free head and a separator split off exactly that head |
| Config.WalkAppend | core/config_manager.py:172-183 | walking a longer path continues from where the shorter walk ended |
| Config.LookupStep | core/config_manager.py:175-181 | the default for a non-mapping, a missing key or None; any other value, falsy ones included, as is |
| Config.MatchAt | core/config_manager.py:137-138 | a match starts with `${` and ends at the first `}` after it, with at least one name character between |
| Config.Substituted | core/config_manager.py:134-155 | substitution keeps the document's shape: strings stay strings, lists keep their length, mappings their keys, other values are unchanged |
| Config.SubstituteString | core/config_manager.py:135-147 | the replacement loop over the names found computes exactly `SubstStr` |
| Config.SubstituteValue | core/config_manager.py:134-155 | the walk computes exactly `Substituted` |
| Config.SubstituteItems | core/config_manager.py:150-151 | every list item is substituted, in place and count |
| Config.SubstituteFields | core/config_manager.py:148-149 | every mapping value is substituted, under the same keys |
| Config.UndefinedNamesKept | core/config_manager.py:140-145 | when no name found is defined the string is kept verbatim |
| Config.EmptyEnvironmentKeeps | core/config_manager.py:134-155 | with an empty environment substitution changes nothing |
| Config.MatchesOfOnePlaceholder | core/config_manager.py:137-138 | a string with one well-formed placeholder and no other `$` yields exactly its name |
| Config.ReplaceOnePlaceholder | core/config_manager.py:143 | replacing that placeholder puts the value in its place and keeps the rest |
| Config.OnePlaceholder | core/config_manager.py:134-147 | in text whose only `$` starts one well-formed placeholder, a defined name is replaced by its value and an undefined one is kept verbatim |
| Config.LeadingPlaceholder | core/config_manager.py:137-138 | text without `$` and then a well-formed placeholder yields that name first, then the names found in the rest |
| Config.OtherPlaceholderKept | core/config_manager.py:143 | replacing one name's placeholder never touches another name's |
| Config.MatchesOfTwoPlaceholders | core/config_manager.py:137-138 | text with two well-formed placeholders and no other `$` yields both names in order |
| Config.FirstOfTwoReplaced | core/config_manager.py:140-143 | the first round replaces the first placeholder and keeps the second |
| Config.SecondOfTwoReplaced | core/config_manager.py:140-143 | the second round replaces the second placeholder, passing over a kept first one or a value without `$` |
| Config.TwoPlaceholders | core/config_manager.py:134-147 | with two placeholders of different names and no other `$`, each is replaced iff its name is defined and kept verbatim otherwise, for every mix of defined and undefined names |
| Config.PlainTemplateTail | core/config_manager.py:137-145 | dropping a template's first segment and placeholder keeps it free of stray `$`, well-formed and with `$`-free values |
| Config.MatchesOfTemplate | core/config_manager.py:137-138 | a template with any number of well-formed placeholders and no other `$` yields exactly their names, in order, repeats included |
| Config.TemplateIsPartial | core/config_manager.py:137-140 | before the first round, no placeholder has been substituted |
| Config.HeadRound | core/config_manager.py:142-143 | in a defined name's round, the next placeholder position changes iff it is that name's own placeholder; an already shown value is passed over |
| Config.DefinedRound | core/config_manager.py:141-143 | the round for a defined name replaces exactly that name's placeholders, wherever they stand, and keeps everything else |
| Config.UndefinedRound | core/config_manager.py:144-145 | the round for an undefined name leaves every placeholder as it stood |
| Config.RoundsOnPartial | core/config_manager.py:140-145 | the loop's rounds over a list of names leave each of those names' placeholders substituted and every other placeholder kept |
| Config.PartialAllDone | core/config_manager.py:140-147 | once every name found has had its round, each placeholder shows its value if defined and itself otherwise |
| Config.Substitution | core/config_manager.py:134-147 | in text with any number of well-formed placeholders and no other `$`, whose values hold no `$`, each placeholder is replaced by its value iff its name is defined and kept verbatim otherwise |
| Config.OrEmpty | core/config_manager.py:58-61 | a falsy layer becomes an empty mapping, a truthy one is kept |
| Config.ReadLayers | core/config_manager.py:50-61 | the base is falsy iff the base file's document is; a falsy override or secrets layer becomes an empty mapping |
| Config.LaterLayersWin | core/config_manager.py:63-65 | secrets beat the environment's overrides, which beat the base, at every path a later layer reaches |
| Config.ConfigManager.constructor | core/config_manager.py:22-31 | a new manager holds an empty configuration |
| Config.ConfigManager.SubstituteEnvVars | core/config_manager.py:127-155 | the configuration becomes its substitution |
| Config.ConfigManager.Load | core/config_manager.py:33-75 | a missing or empty base fails with no change; a raising first merge fails with no change; a raising second merge fails leaving the first merge; otherwise success with the substituted merge of base, overrides and secrets |
| Config.ConfigManager.Reload | core/config_manager.py:206-219 | as `load`, starting from an empty configuration |
| Config.ConfigManager.Get | core/config_manager.py:157-183 | the loop answers exactly the lookup of the dot-split path, or the default |
| Config.ConfigManager.GetPluginConfig | core/config_manager.py:185-195 | the lookup of `plugins` then the name's pieces, with an empty mapping as default; for a name without dots, the entry `plugins.<name>` |

## Left out

- Logging: every logger call is a side effect only, and the `logger` arguments and fields are dropped.
- Wall-clock time: `datetime.now()` timestamps and `time.time()` floats become readings of an abstract millisecond clock. Elapsed times are clock differences, and the result record's own timestamp is not modelled.
- Plugin oracles: `get_metadata` answers the same metadata on every call and never raises. `health_check` overrides and `execute` are functions of their inputs with no side effects of their own.
- A plugin whose `execute` returns something other than a result record is not modelled. Each returned record is a fresh object, so a plugin that hands back one record object twice (aliasing) is not modelled either.
- Key order of the result-data dicts and of configuration documents: these are maps. Only the registry's two tables keep Python's insertion order, because listing and cleanup walk it. `MapCommands` and `UnmapCommands` assign the new order once after their loop rather than key by key.
- Email fields are strings, and missing ones take the defaults `process_email` uses.
- YAML/JSON values have no floating-point numbers.
- File I/O: `_load_yaml` (file existence, reading and YAML parsing) is the oracle `files`, where nothing stands for a missing or unreadable file. The configuration directory is not modelled.
- `os.getenv` is a map from names to values. Its exception for names containing a NUL character is not modelled.
- `get_all` returns a shallow copy of the configuration. Values are immutable here, so it would be the configuration itself and has no member.
- `PluginRegistry.__repr__`, `PluginResult.__repr__` and `LLMResponse.__repr__` only format strings.
- The Ollama provider's constructor defaults, `set_model`, `test_connection` and `list_available_models` are outside the modelled core. The provider value carries its model name, system prompt, chat oracle and parser directly.
- The `json.JSONDecodeError` handler of `parse_command` (`core/providers/ollama_provider.py:101-110`) is unreachable, because `_parse_json_response` catches every decode error. It has no counterpart.
- Config.Substitution, Config.TwoPlaceholders: require the text to hold no `$` outside its well-formed placeholders, the names and the values substituted to hold no `$`. The loop works on the text the previous round left, so a value that contains a later name's placeholder is itself replaced (`core/config_manager.py:137-145`), and a stray `$` or a malformed `${` can change what is found. `SubstNames` computes those cases, but no lemma states them.
- Ollama.IsSpace: Python's whitespace for `str.strip()` and `\s` is given as a fixed list of code points. No other Unicode database is modelled.
- Dispatcher.CommandSpec, Dispatcher.RoutedStep, Dispatcher.AfterParse and Dispatcher.ProcessSpec: their own contracts are deliberately small, to keep them cheap to use. What they promise is stated by the lemmas listed beside them and by the dispatcher methods proved equal to them.
