# Orchestration hub: a Dafny model

The orchestration hub watches a fixed set of projects (services), each named by
a `name:url` entry in the `PROJECTS` setting.

- The **project monitor** polls each project's `/health` and `/metrics`
  endpoints on repeating timers. It caches the latest health snapshot per
  project and writes every snapshot and reading to the database.
- Three **agents** react to events on an in-process **event bus**:
  - the health monitor turns a status change into a down, degraded or
    recovered alert;
  - the metrics analyzer turns threshold crossings (CPU > 80, memory > 85,
    error rate > 5) into an anomaly report;
  - the auto-fixer restarts any project reported down, and asks a decision
    oracle what to do about an anomaly. It acts only when the oracle is more
    than 70 % confident.
- The **action executor** performs an action. It publishes an
  `action_executed` event when the action succeeds and nothing when it fails.
- Every bus event is also written to an audit table, without waiting for the
  write. The row's project name, description and severity follow fixed rules.

One Dafny module per source file:

| module | models |
|---|---|
| `Strings` | the JavaScript string built-ins the hub uses |
| `Config` | `config.ts` |
| `Types` | the shared records |
| `EventBus` | `EventBus.ts` |
| `Agents` | `BaseAgent.ts` and each agent's `onStart` |
| `HealthMonitorAgent`, `MetricsAnalyzerAgent`, `AutoFixerAgent` | one agent each |
| `ActionExecutor` | `ActionExecutor.ts` |
| `ClaudeAnalyzer` | the oracle's client |
| `Database` | `database.ts` |
| `ProjectMonitor` | `ProjectMonitor.ts` |

The bus, the agents, the executor, the database and the monitor update their
state in place, so each is a `class`. Its methods state the whole new state.
Parsing, alert rules and the oracle's client are functions.

The outside world enters as parameters:

- a probe outcome per HTTP request;
- an outcome per database insert or query;
- the oracle's reply and the JSON parser;
- the environment as a map;
- the current time.

Other modelling choices:

- A timer is an entry of `timers`, and a timer firing is an explicit `Tick`.
- Event ids come from a counter. It stands in for uuids and never repeats.
- Where a caller's own effect is only visible through a service, the class
  keeps a ghost history of it: the executor's `requests`, the agents' `hooks`
  and the bus's `published`.
- Two scenario methods run the classes on concrete inputs.
  `Agents.LifecycleScenario` shows that repeated starts and stops reach an
  agent's hooks once each, and that start then stop leaves it stopped.
  `ProjectMonitor.DuplicateNamesLeakTimers` shows the timer leak listed under
  "## Findings".

## Where the code and the written specification differ

The model follows the code in each case.

- **Down with non-zero uptime.** The specification says a "down" status always
  comes with uptime 0. In the code, a 2xx health reply whose body says
  `"down"` is cached with the uptime it reports (100 when missing) and as a
  running process. Only a failed request gives uptime 0
  (`ProjectMonitor.ReportedDownKeepsUptime`).
- **Persistence errors.** The specification says persistence errors never
  affect polling. In the code, a rejected status write after a 2xx reply is
  caught by the same `catch` as a failed request, so the project is cached as
  down with response time 5000 (`ProjectMonitor.ProjectMonitor.RecordReported`).
- **No monitor events.** The specification requires the monitor to publish
  health-changed and metrics-collected events. The code publishes nothing on
  the bus: it only logs. The model records those lines as `notices`, and the
  agents' handlers are modelled on the payload they would receive.
- **Empty environment values.** For an empty value with no default, the string
  reader throws, but the number and boolean readers return `undefined`
  (`Config.EmptyValueWithoutDefault`).

## Model

| member | source | states |
|---|---|---|
| Strings.TrimStart | orchestration-hub/src/config.ts:42 | `trimStart` gives a suffix of the input; every dropped character is whitespace; the result does not start with whitespace |
| Strings.TrimEnd | orchestration-hub/src/config.ts:42 | `trimEnd` gives a prefix of the input; every dropped character is whitespace; the result does not end with whitespace |
| Strings.TrimUnchanged | orchestration-hub/src/config.ts:47-48 | a string that neither starts nor ends with whitespace is its own trim |
| Strings.TrimKeepsAbsent | orchestration-hub/src/config.ts:47 | trimming adds no character: one absent before is absent after |
| Strings.Split | orchestration-hub/src/config.ts:41-42 | `split` on one character gives at least one part; no part holds the separator; joining the parts gives back the input |
| Strings.SplitAt | orchestration-hub/src/config.ts:42 | a separator-free prefix followed by the separator is split off as the first part |
| Strings.SplitNoSeparator | orchestration-hub/src/config.ts:41 | a string without the separator splits into itself alone |
| Strings.SplitJoin | orchestration-hub/src/config.ts:39-41 | `split` undoes `join` when no part holds the separator |
| Strings.ContainsAt | orchestration-hub/src/services/EventBus.ts:85-86 | `includes` holds iff the substring occurs at some position |
| Strings.LowerAscii | orchestration-hub/src/config.ts:31 | `toLowerCase` keeps the length and lowers each ASCII letter |
| Strings.FirstIndexOf | orchestration-hub/src/services/ClaudeAnalyzer.ts:65 | None iff the character is absent; otherwise the position of its first occurrence |
| Strings.LastIndexOf | orchestration-hub/src/services/ClaudeAnalyzer.ts:65 | None iff the character is absent; otherwise the position of its last occurrence |
| Strings.FirstIndexAt | orchestration-hub/src/services/ClaudeAnalyzer.ts:65 | a position holding the character with no earlier occurrence is the one found |
| Strings.LastIndexAt | orchestration-hub/src/services/ClaudeAnalyzer.ts:65 | a position holding the character with no later occurrence is the one found |
| Config.GetEnvString | orchestration-hub/src/config.ts:10-16 | fails with the "Missing required environment variable" message iff the value is unset or empty and there is no default; a non-empty value wins over the default |
| Config.LeadingDigits | orchestration-hub/src/config.ts:23 | the longest all-digit prefix: the next character, if any, is not a digit |
| Config.ParseSigned | orchestration-hub/src/config.ts:23 | after an optional sign, NaN (None) iff no digit follows |
| Config.ParseInt | orchestration-hub/src/config.ts:23 | `parseInt(s, 10)` is NaN iff no digit follows the leading whitespace and optional sign |
| Config.Decimal | orchestration-hub/src/config.ts:23 | the decimal notation of a number is non-empty and all digits; the partner of `ParseInt` |
| Config.DecimalValue | orchestration-hub/src/config.ts:23 | the decimal notation of a number has that number as its value |
| Config.ParseIntDecimal | orchestration-hub/src/config.ts:23 | round trip: `parseInt` reads back a number's decimal notation, whatever whitespace precedes it and whatever non-digit text follows |
| Config.ParseIntSkipsWhitespace | orchestration-hub/src/config.ts:23 | leading whitespace does not change what `parseInt` reads |
| Config.DigitsThenOther | orchestration-hub/src/config.ts:23 | the digits read are exactly the digit run, when a non-digit follows it |
| Config.GetEnvNumber | orchestration-hub/src/config.ts:18-24 | fails iff the variable is unset with no default; a non-empty value is parsed (NaN when it does not parse); an empty or unset value gives the default, and an empty value with no default gives `undefined` |
| Config.GetEnvBoolean | orchestration-hub/src/config.ts:26-32 | fails iff the variable is unset with no default; a non-empty value is true iff it lowers to "true"; otherwise the default, possibly `undefined` |
| Config.EmptyValueWithoutDefault | orchestration-hub/src/config.ts:10-32 | on an empty value with no default the string reader fails, while the number and boolean readers return `undefined` |
| Config.BooleanSpellings | orchestration-hub/src/config.ts:31 | "TRUE" and "True" read as true; "1" and "yes" read as false, whatever the default |
| Config.WithDefaults | orchestration-hub/src/config.ts:46-52 | a parsed project keeps its name and url, and is critical with intervals of 10000 ms and 30000 ms |
| Config.ParseDefinitionAsWritten | orchestration-hub/src/config.ts:42-52 | as written: succeeds iff the first two ':'-fields of the trimmed entry are non-empty, and then holds those fields trimmed; otherwise the "Invalid project definition" error for that entry |
| Config.ParseEach | orchestration-hub/src/config.ts:41-53 | succeeds iff every entry parses, with one project per entry in order; otherwise the error of the first entry that fails |
| Config.ProjectsSetting | orchestration-hub/src/config.ts:39 | the `PROJECTS` value when set and non-empty, else the default list |
| Config.ParseProjectsAsWritten | orchestration-hub/src/config.ts:38-54 | as written: one project per comma-separated entry, in order; otherwise the error names a rejected entry |
| Config.ParseDefinition | orchestration-hub/src/config.ts:42-52 | corrected: the name is the trimmed text before the first ':' of the trimmed entry and the url the trimmed text after it. It succeeds iff the trimmed entry has a ':' after a non-empty name and before a non-empty rest; the name and url are then non-empty and the name holds no ':' |
| Config.ParseProjects | orchestration-hub/src/config.ts:38-54 | `parseProjects` with the corrected entry parser: one project per entry, in order, or the error of a rejected entry |
| Config.ParsedProjectsNonEmpty | orchestration-hub/src/config.ts:89-91 | both parsers give at least one project whenever they succeed, so the "No projects configured" check cannot fire |
| Config.DefinitionRoundTrip | orchestration-hub/src/config.ts:36-48 | round trip: an entry written as `name:url` parses back to that name and url |
| Config.Definitions | orchestration-hub/src/config.ts:36 | one `name:url` entry per pair, in order |
| Config.ProjectsRoundTrip | orchestration-hub/src/config.ts:34-54 | round trip: a non-empty list of well-formed pairs, written as comma-separated entries, parses back to one project per pair |
| Config.DefinitionsParse | orchestration-hub/src/config.ts:42-48 | every entry written from a well-formed pair parses back to that pair |
| Config.NoCommaInDefinition | orchestration-hub/src/config.ts:41 | a well-formed entry holds no ',' |
| Config.UrlStopsAtSecondColon | orchestration-hub/src/config.ts:42-48 | as written, the url of `name:scheme:rest` is `scheme` (an error when `scheme` is empty) |
| Config.DefaultEntries | orchestration-hub/src/config.ts:39 | the default setting splits into its three entries |
| Config.BlankUrlAsWritten | orchestration-hub/src/config.ts:42-48 | as written, `name: :rest` with a blank second field is accepted with an empty url |
| Database.StatusRoundTrip | orchestration-hub/src/database.ts:72-81 | a health snapshot recorded as `StatusRowOf` reads back with every stored field intact, stamped with its recording time |
| Database.MetricsRoundTrip | orchestration-hub/src/database.ts:95-107 | a reading recorded as `MetricsRowOf` reads back as the same reading, under its project name and recording time |
| Database.Database.constructor | orchestration-hub/src/database.ts:16 | a new database is uninitialized, with empty tables |
| Database.Database.Initialize | orchestration-hub/src/database.ts:34-63 | once initialized, stays so; otherwise initialized iff the check reaches the service or reports the missing-table code; other failures are swallowed |
| Database.Database.RecordStatusHistory | orchestration-hub/src/database.ts:68-86 | an accepted insert appends exactly the snapshot's row; an error answer changes nothing and is swallowed; a rejected call changes nothing and is returned to the caller |
| Database.Database.RecordMetrics | orchestration-hub/src/database.ts:91-112 | the same, for a metrics reading |
| Database.Database.GetLatestStatus | orchestration-hub/src/database.ts:117-138 | null iff no row was found or the query failed; otherwise the row's fields |
| Database.Database.GetStatusHistory | orchestration-hub/src/database.ts:143-169 | empty on an error or null data; otherwise one record per row, in order |
| Database.Database.GetLatestMetricsForAll | orchestration-hub/src/database.ts:176-210 | one entry per project name among the rows, holding that project's first (newest) row; empty on an error or null data |
| EventBus.AuditProjectName | orchestration-hub/src/services/EventBus.ts:61 | the payload's project name when present and non-empty, else "system" |
| EventBus.Description | orchestration-hub/src/services/EventBus.ts:77-81 | never empty: the payload's message when present, else "Metrics collected" for metrics events, else a text naming the type and the source |
| EventBus.SeverityByType | orchestration-hub/src/services/EventBus.ts:83-88 | `Severity` (getEventSeverity) is the payload's severity when present; with no explicit severity: critical iff the type is `project.down` or `action.failed`; warning iff it is `project.degraded` or `anomaly_detected`; info otherwise |
| EventBus.ContainsDown | orchestration-hub/src/services/EventBus.ts:85 | among all event types, only `project.down` contains "down" |
| EventBus.ContainsFailed | orchestration-hub/src/services/EventBus.ts:85 | only `action.failed` contains "failed" |
| EventBus.ContainsDegraded | orchestration-hub/src/services/EventBus.ts:86 | only `project.degraded` contains "degraded" |
| EventBus.ContainsAnomaly | orchestration-hub/src/services/EventBus.ts:86 | only `anomaly_detected` contains "anomaly" |
| EventBus.WithHandler | orchestration-hub/src/services/EventBus.ts:50-52 | registering appends the handler to its type's list and leaves every other type's list unchanged |
| EventBus.SubscribeAddsOneDelivery | orchestration-hub/src/services/EventBus.ts:33-34 | subscribing adds exactly one delivery of the handler to its type, after that type's earlier handlers and before the '*' handlers; no other type changes, so a handler subscribed twice runs twice |
| EventBus.EventBus.constructor | orchestration-hub/src/services/EventBus.ts:14-17 | a new bus has no handlers, no events and no audit rows |
| EventBus.EventBus.Publish | orchestration-hub/src/services/EventBus.ts:22-45 | the event gets a never-used id; it is delivered to its type's handlers, then to the '*' handlers; its audit write is only queued; nothing else changes |
| EventBus.EventBus.Subscribe | orchestration-hub/src/services/EventBus.ts:50-52 | appends the handler to its topic; nothing is de-duplicated and nothing else changes |
| EventBus.EventBus.Close | orchestration-hub/src/services/EventBus.ts:90-92 | removes every handler, so no event reaches anyone; the events and the audit are kept |
| EventBus.EventBus.SettleAudit | orchestration-hub/src/services/EventBus.ts:57-75 | the oldest queued audit write settles: a stored row is the event's audit row (`AuditRecordOf`: project name, type, description, severity, the event and its time); a sink error is logged unless it is the missing-table code; a rejected call is logged; handlers and events are untouched |
| Agents.StartSubscriptions | orchestration-hub/src/agents/AutoFixerAgent.ts:19-25 | each agent's `onStart` adds its handler to each type it listens to: the auto-fixer to `anomaly_detected` and `project.down`, the health monitor to `project.health.changed` only, the metrics analyzer to `metrics.collected` only; every other type is unchanged |
| Agents.Agent.constructor | orchestration-hub/src/agents/BaseAgent.ts:8-13 | a new agent is stopped, under its class name |
| Agents.Agent.Start | orchestration-hub/src/agents/BaseAgent.ts:18-25 | afterwards running; `onStart` is called once, and its handlers registered, iff the agent was stopped |
| Agents.Agent.Stop | orchestration-hub/src/agents/BaseAgent.ts:30-37 | afterwards stopped; `onStop` is called once iff the agent was running |
| Agents.Agent.OnStartHook | orchestration-hub/src/agents/HealthMonitorAgent.ts:9-13 | `onStart` registers exactly the agent's subscriptions, and publishes nothing |
| Agents.Agent.Publish | orchestration-hub/src/agents/BaseAgent.ts:42-44 | forwards to the bus with the agent's name as the source: exactly one event with the given type, payload and metadata |
| Agents.Agent.Subscribe | orchestration-hub/src/agents/BaseAgent.ts:49-51 | forwards to the bus; only the handler registry changes |
| HealthMonitorAgent.AlertRules | orchestration-hub/src/agents/HealthMonitorAgent.ts:24-43 | `AlertFor` (and `Alert` on a payload) gives an alert iff the new status is down, or degraded, or healthy after a status other than healthy; with severities critical, warning and info; the alert names the incoming project |
| HealthMonitorAgent.AlertSeverityMatchesBus | orchestration-hub/src/agents/HealthMonitorAgent.ts:24-43 | each alert's explicit severity is the one the bus would derive from its type alone |
| HealthMonitorAgent.HandleHealthChange | orchestration-hub/src/agents/HealthMonitorAgent.ts:19-44 | publishes exactly the alert the rules call for, from the agent, and nothing when they call for none |
| MetricsAnalyzerAgent.AnomaliesSpec | orchestration-hub/src/agents/MetricsAnalyzerAgent.ts:24-36 | in `Anomalies`, each anomaly is listed iff its threshold is strictly exceeded, with the reading's value; at most one of each kind, in CPU, memory, error-rate order; none iff all three are within bounds |
| MetricsAnalyzerAgent.AnalyzeMetrics | orchestration-hub/src/agents/MetricsAnalyzerAgent.ts:18-48 | publishes one `anomaly_detected` event of severity warning with the project, the metrics and the anomaly list iff the list is non-empty; otherwise nothing |
| ActionExecutor.PerformActionLogic | orchestration-hub/src/services/ActionExecutor.ts:64-84 | succeeds iff the action is restart, clear-cache or pause |
| ActionExecutor.ActionExecutor.ExecuteAction | orchestration-hub/src/services/ActionExecutor.ts:16-59 | returns the action's success; on success exactly one `action_executed` event from "ActionExecutor" whose payload (`SuccessPayload`) has the action type, the project name, status "success" and the message "Successfully executed <type>", on failure no event; the request is recorded either way |
| AutoFixerAgent.FixMetadata | orchestration-hub/src/agents/AutoFixerAgent.ts:85-90 | the project name doubles as the id; the request is marked as coming from the auto-fixer |
| AutoFixerAgent.ExecuteFix | orchestration-hub/src/agents/AutoFixerAgent.ts:84-91 | exactly one request for the action on the project, with the reason; the bus changes only as that execution makes it |
| AutoFixerAgent.HandleProjectDown | orchestration-hub/src/agents/AutoFixerAgent.ts:74-79 | every down report leads to exactly one restart request for the project it names, and one success event |
| AutoFixerAgent.HandleAnomaly | orchestration-hub/src/agents/AutoFixerAgent.ts:34-69 | the oracle's decision is always published first; its action is requested, with "AI Recommendation: " plus the reasoning as the reason, iff the decision is confident; otherwise nothing else happens |
| AutoFixerAgent.ActOnDecision | orchestration-hub/src/agents/AutoFixerAgent.ts:56-68 | the gate: a request iff an action is named and the confidence is strictly above 0.7 |
| AutoFixerAgent.FailedOracleNeverActs | orchestration-hub/src/agents/AutoFixerAgent.ts:56 | when the oracle fails, or its reply holds no block or a block that does not parse, the auto-fixer never acts |
| AutoFixerAgent.ConfidentMeansParsed | orchestration-hub/src/agents/AutoFixerAgent.ts:56-64 | a decision that passes the gate is the parsed reply, unchanged |
| ClaudeAnalyzer.ExtractJson | orchestration-hub/src/services/ClaudeAnalyzer.ts:65-69 | the greedy `{...}` match exists iff some '}' follows some '{', and then runs from the first '{' to the last '}' |
| ClaudeAnalyzer.Fallback | orchestration-hub/src/services/ClaudeAnalyzer.ts:79-84 | the safe default: no action, confidence 0, no alternatives, and a reasoning of "AI Analysis failed due to error: " plus the message (or "Unknown") |
| ClaudeAnalyzer.AnalyzeSituation | orchestration-hub/src/services/ClaudeAnalyzer.ts:40-86 | the parsed decision exactly when the first text block holds a block that parses; otherwise the fallback for the first failure (call failed, empty content, no block, parse error) |
| ClaudeAnalyzer.NonTextFallsBack | orchestration-hub/src/services/ClaudeAnalyzer.ts:64-68 | a reply whose first block is not text falls back with "Could not parse JSON from Claude response" |
| ClaudeAnalyzer.ExtractFromProse | orchestration-hub/src/services/ClaudeAnalyzer.ts:62-65 | brace-free prose around a block does not matter: the block itself is extracted |
| ProjectMonitor.JobsAt | orchestration-hub/src/services/ProjectMonitor.ts:42-45 | `start` creates two jobs per project: the k-th project's health job at 2k and its metrics job at 2k+1 |
| ProjectMonitor.PrefixStep | orchestration-hub/src/services/ProjectMonitor.ts:42-45 | one more iteration of `start`'s loop adds that project's two jobs and its two registry entries |
| ProjectMonitor.ReportedDefaults | orchestration-hub/src/services/ProjectMonitor.ts:121-128 | `Reported`, the 2xx snapshot, is running, with a non-empty status (the reported one, else degraded) and a non-zero uptime (the reported one unless missing or 0, then 100) |
| ProjectMonitor.ReportedDownKeepsUptime | orchestration-hub/src/services/ProjectMonitor.ts:121-128 | a 2xx reply that says "down" is cached as running, with its reported uptime |
| ProjectMonitor.MetricsFrom | orchestration-hub/src/services/ProjectMonitor.ts:170-180 | a missing number reads as 0 and a missing API usage as empty; present values are kept; stamped with the project name and the time |
| ProjectMonitor.CacheUpdate | orchestration-hub/src/services/ProjectMonitor.ts:132 | filing a snapshot under its own name keeps every cached snapshot under its own name, and every stopped one down with uptime 0 |
| ProjectMonitor.RegistryKeys | orchestration-hub/src/services/ProjectMonitor.ts:42-45 | after `start` each registry has exactly one entry per project name |
| ProjectMonitor.RegistryEntries | orchestration-hub/src/services/ProjectMonitor.ts:79 | each entry holds the timer of the last project with that name |
| ProjectMonitor.RegistryLast | orchestration-hub/src/services/ProjectMonitor.ts:79 | the last project of each name has its timer registered under that name |
| ProjectMonitor.RegistrySkipsShadowed | orchestration-hub/src/services/ProjectMonitor.ts:94 | a project followed by another of the same name has its timer in no registry entry |
| ProjectMonitor.RegistryJobs | orchestration-hub/src/services/ProjectMonitor.ts:42-45 | each entry is the id of a timer `start` created, running that project's job of the registry's kind |
| ProjectMonitor.StartedRegistries | orchestration-hub/src/services/ProjectMonitor.ts:29-46 | after `start` both registries point at live timers of the right kind and project, one entry per project name |
| ProjectMonitor.DuplicateRegistries | orchestration-hub/src/services/ProjectMonitor.ts:42-45 | two projects with one name leave one entry per registry, holding the second project's timers |
| ProjectMonitor.ProjectMonitor.constructor | orchestration-hub/src/services/ProjectMonitor.ts:15-23 | a new monitor is stopped, with an empty cache and no timers |
| ProjectMonitor.ProjectMonitor.Start | orchestration-hub/src/services/ProjectMonitor.ts:29-46 | on a running monitor nothing changes. Otherwise: running; the database initialized as `initialize` decides; two checks started and two timers created per project in order; the registries as `Registry` builds them |
| ProjectMonitor.ProjectMonitor.StartAll | orchestration-hub/src/services/ProjectMonitor.ts:42-45 | the loop of `start`: the timers and started checks are the projects' jobs in order; the registries are built entry by entry |
| ProjectMonitor.ProjectMonitor.StartProject | orchestration-hub/src/services/ProjectMonitor.ts:43-44 | one iteration: the health check, then the metrics collection |
| ProjectMonitor.ProjectMonitor.StartHealthCheck | orchestration-hub/src/services/ProjectMonitor.ts:70-80 | one check at once, one new repeating timer, registered under the project name |
| ProjectMonitor.ProjectMonitor.StartMetricsCheck | orchestration-hub/src/services/ProjectMonitor.ts:85-95 | the same, for metrics |
| ProjectMonitor.ProjectMonitor.Stop | orchestration-hub/src/services/ProjectMonitor.ts:51-65 | on a stopped monitor nothing changes. Otherwise: stopped; exactly the registered timers are cleared, so the live timers lose exactly those; both registries are emptied; the cache stays |
| ProjectMonitor.ProjectMonitor.StopClearingAll | orchestration-hub/src/services/ProjectMonitor.ts:51-65 | corrected `stop`: clears every timer the monitor created, so no timer stays live whatever the project names; otherwise as `stop` |
| ProjectMonitor.ProjectMonitor.Tick | orchestration-hub/src/services/ProjectMonitor.ts:75-77 | a live timer firing starts its job again |
| ProjectMonitor.ProjectMonitor.HandleUnhealthyProject | orchestration-hub/src/services/ProjectMonitor.ts:195-221 | caches a down snapshot (`DownHealth`: down, uptime 0, not running); writes it without waiting; notes the outage iff the cached status was not already down; timers are untouched |
| ProjectMonitor.ProjectMonitor.CheckProjectHealth | orchestration-hub/src/services/ProjectMonitor.ts:101-148 | a 2xx reply caches the reported snapshot, writes it, and notes a change from the cached status; a non-2xx reply (with its elapsed time) or an exception (with 5000 ms) goes down; a rejected write of a 2xx snapshot goes down too |
| ProjectMonitor.ProjectMonitor.RecordReported | orchestration-hub/src/services/ProjectMonitor.ts:121-146 | the 2xx path: cache, write and change notice; a rejected write is caught as a failure, noted as an outage iff the reported status was not down |
| ProjectMonitor.ProjectMonitor.CollectMetrics | orchestration-hub/src/services/ProjectMonitor.ts:154-190 | a 2xx reading is written; a non-2xx reply, an exception or a rejected write changes nothing |
| ProjectMonitor.ProjectMonitor.GetStatus | orchestration-hub/src/services/ProjectMonitor.ts:227-229 | a new map holding the cached snapshots: each snapshot under its own name, each stopped one down with uptime 0 |
| ProjectMonitor.ProjectMonitor.GetProjectStatus | orchestration-hub/src/services/ProjectMonitor.ts:234-236 | the cached snapshot of that project iff there is one |

## Left out

- Console logging is left out, except where a line is the only trace of a
  behaviour: the monitor's status-change and outage lines (`notices`) and the
  bus's audit-error lines (`log`).
- The network, timers, the clock, uuids and the database service are not
  modelled. They enter as parameters (probe, write and query outcomes; the
  time) or as counters (event ids, timer ids).
- Promises run to completion in the order the model's calls give them. The
  bus's audit inserts settle one at a time, oldest first (`SettleAudit`). Other
  interleavings of concurrent checks are not modelled.
- A handler that throws is not modelled. The bus has no per-handler delivery,
  so `Publish` returns the handlers it reaches and the agents' handlers are
  separate methods.
- `setMaxListeners(50)` is not modelled, and neither is the debug log switch
  in `publish`.
- Numbers are reals or unbounded integers. NaN, the `toFixed` formatting of
  anomaly texts, and the precision limits of `parseInt` are not modelled.
- Anomalies are values (`HighCpu(value)` and so on) rather than formatted
  strings.
- The prompt text sent to the oracle, the oracle client's construction and the
  API key warning are not modelled. The JSON parser is a parameter (see the
  line on `AnalyzeSituation` for what its typed result assumes).
- The query filters and orderings (`limit(100)`, the 24-hour window, newest
  first) belong to the database service. The model takes the rows it is given.
- The database's `close` does nothing and is not modelled.
- The database client's construction and its credentials warning are not
  modelled.
- Loading `.env` files (dotenv) is not modelled.
- The config object assembled at `config.ts:60-86` is not modelled: its fields
  are plain calls of the readers. Its declared type does not match the object
  the code builds (`supabase`, `ai`).
- The `handleUnhealthyProject` database write is neither awaited nor caught.
  The model does not capture a rejection of this write: the runtime would
  report it as an unhandled rejection, which by default ends the process.
- AutoFixerAgent.HandleProjectDown: requires the payload to carry a project
  name, because the source would pass `undefined` along and the model's
  metadata holds a string.
- The monitor never publishes health-changed or metrics-collected events on
  the bus, because the code does not (see above).
- ProjectMonitor.ProjectMonitor.GetStatus: snapshots are values, so the model
  does not capture that `getStatus` copies only the map. In the source the
  snapshot objects are shared with the cache, and a caller that mutates one
  changes the cache.
- ClaudeAnalyzer.AnalyzeSituation and AutoFixerAgent.HandleAnomaly: a parsed
  decision is assumed to name a known action or none, with a numeric
  confidence. The source casts the parsed JSON without checking it. An unknown
  action string would pass the gate and then fail in the executor's default
  branch. A non-numeric confidence is not represented.
- Types from `types.ts` that the core does not use (the dashboard's and the
  API's records) are not modelled.
- `index.ts` wiring is not modelled: it only creates the singletons and the
  HTTP API, which are outside the core.

## Findings

| source | as written | input that shows it | evidently intended | confidence | as-written member | corrected member |
|---|---|---|---|---|---|---|
| orchestration-hub/src/config.ts:42 | each entry is split at every ':' and only the first two fields are kept, so a url's own ':' cuts it short | the default entry `email-blast:http://email-blast:3000` gets the url `http` | the url is everything after the first ':' (`http://email-blast:3000`), as the format comment at config.ts:36 shows | high (not executed) | Config.UrlStopsAtSecondColon | Config.ParseDefinition |
| orchestration-hub/src/config.ts:43 | the emptiness check runs before trimming, so a blank field passes it and is then trimmed to nothing | the entry `api: :9000` is accepted with an empty url | an entry without a url is rejected: every accepted project has a non-empty name and url | high (not executed) | Config.BlankUrlAsWritten | Config.ParseDefinition |
| orchestration-hub/src/services/ProjectMonitor.ts:79 | a project's timers are registered by name, so a second project with the same name overwrites the entry, and `stop` (lines 60-64) clears only registered timers | two projects both named `api`: after `start` and `stop`, the first one's health and metrics timers keep firing (the scenario method `ProjectMonitor.DuplicateNamesLeakTimers`) | `stop` ends every check the monitor started | high (not executed) | ProjectMonitor.DuplicateRegistries | ProjectMonitor.ProjectMonitor.StopClearingAll |
