# Incident impact evaluation and configuration merge

A Dafny model of two parts of the on-call assistant server:

- **The impact evaluator** (`src/impact/evaluator.js`). `ImpactEvaluator` is
  configured with a list of metric names, a severity scale and per-severity
  notification thresholds. `evaluate` completes a possibly partial assessment
  of an incident:
  - it scores every configured metric the assessment's metrics map does not
    already hold (service, customer, revenue and security impact, or an
    'unknown' result);
  - it derives the overall severity from the metric severities, unless one is
    already set;
  - it always recomputes the response and escalation times;
  - it fills in the impacted systems, the impacted users and a
    recommendation text, unless those are already set.
- **Configuration merging and validation** (`src/core/config.js`).
  `mergeConfigs` deep-merges a custom configuration over the defaults.
  `validateConfig` rejects a merged configuration with the first of five
  errors that applies.

Modules:

- `Optional`: the option type.
- `JsonValue`: JSON values with JavaScript truthiness, property access and
  object spread.
- `Config`: the merge, the validation and their lemmas.
- `Scoring`: the four metric scorers and the dispatch by metric name.
- `Severity`: `determineSeverity` as functions on sequences.
- `Derived`: impacted systems, impacted users, notification times and the
  recommendation.
- `Evaluator`: the metrics map, `ImpactEvaluator` and its methods, and the
  specification function `Complete` that `Evaluate` is proved against.

## How the overall severity is chosen

The severity ranking follows what the code computes. It does not follow the
intent of the code's own comments, under which the most severe level would
win: "sort them by priority" at src/impact/evaluator.js:406 and "Find the
highest severity level" at src/impact/evaluator.js:415.

The code builds a map from each level to its index on the scale; a repeated
level keeps its last index. It then ranks a severity by
`severityOrder[s] || 999`, so the level at index 0 ranks 999 instead of 0.
That level is never chosen when three conditions hold:

- it is not 'low';
- it does not appear again further down the scale;
- the scale has at most 1000 levels.

With 'low' at index 1000 or beyond, 'low' itself ranks above 999 and the
index-0 level can win. The default scale meets all three conditions, so
'critical' is never chosen, and two 'critical' metrics give an overall
severity of 'low'. `Severity.IndexZeroNeverWins` and
`Evaluator.EndToEndExample` prove this.

## Model

| member | source | states |
|---|---|---|
| Config.MergeConfigs | src/core/config.js:65-84 | the result has the keys of both configurations; a key only in the defaults keeps its default; a custom key replaces the default unless it is a non-array object over a non-null object (or array), in which case the result holds the recursive merge of the spread default and the custom object |
| Config.MergeWithEmpty | src/core/config.js:65-84 | merging an empty custom configuration gives the defaults back |
| Config.MergeWithSelf | src/core/config.js:65-84 | merging a configuration over itself gives it back |
| Config.MergeIdempotent | src/core/config.js:65-84 | merging the same custom configuration a second time changes nothing |
| Config.MergeKeepsCustomLeaf | src/core/config.js:70-80 | every non-object value of the custom configuration appears in the result at the same path of keys |
| Config.NotOverridden | src/core/config.js:70-77 | a path the custom configuration leaves alone: its first key is absent from the custom side, or the custom side holds an object there that leaves the rest of the path alone |
| Config.MergeKeepsDefaultLeaf | src/core/config.js:66-77 | every default value whose path the custom configuration leaves alone survives the merge at the same path, at any depth |
| Config.CustomPortKeepsDefaultHost | src/core/config.js:12-25 | a custom file that sets only `server.port` to 8080 gets that port, keeps the default `server.host` of 'localhost', and keeps the default `database` section |
| Config.ArrayDefaultBecomesObject | src/core/config.js:66-77 | an object merged over a default array turns it into an object keyed by the decimal indices; each array element is kept unless the custom object overrides its index |
| JsonValue.Spread | src/core/config.js:66 | spreading an object copies its fields; spreading an array gives its elements under their decimal index keys |
| JsonValue.ArraySpread | src/core/config.js:66 | every element `i` of an array is found under the key `Decimal(i)` |
| JsonValue.ArraySpreadKeys | src/core/config.js:66 | those decimal index keys are the only keys of the spread array: no `length` and no other property |
| Config.DefaultConfig | src/core/config.js:12-25 | the built-in defaults: `server` with port 3000 on 'localhost', `database` of type 'sqlite', and `logging` at level 'info' |
| Config.MergesRecursively | src/core/config.js:70-76 | the recursion test: the custom value is a non-array object and the default value is an object or an array |
| Config.ValidateConfig | src/core/config.js:91-122 | the configuration is valid iff every check passes; each of the five errors is reported iff its check is the first one that fails, in the order server, AI models present, every AI model usable, impact, future |
| Config.ServerOk | src/core/config.js:93 | `server` is truthy and `server.port` is a number |
| Config.AiEnabled | src/core/config.js:98 | `ai` is truthy and so is `ai.enabled` |
| Config.HasModels | src/core/config.js:99 | `ai.models` is truthy and has at least one key (a string has one per character) |
| Config.ModelUsable | src/core/config.js:105 | a model has a truthy `name` and a truthy `endpoint` |
| Config.EveryModelUsable | src/core/config.js:104-108 | every value of `ai.models` is a usable model; a non-empty string's values are its characters, which are never usable |
| Config.ImpactOk | src/core/config.js:112 | `impact` is truthy and `impact.severityLevels` is an array |
| Config.FutureOk | src/core/config.js:117-118 | learning is not enabled, or `future.dataRetentionDays` is a number |
| Config.DefaultsLackImpact | src/core/config.js:12-25 | the built-in defaults alone fail validation with the impact error, because they have no `impact` section |
| Config.MergedServerValid | src/core/config.js:41-44 | after merging over the defaults, the server check passes whenever the custom `server` is absent, or is an object whose `port` is absent or a number |
| Scoring.Band | src/impact/evaluator.js:151-159 | a score maps to 'critical', 'high', 'medium' or 'low' iff it lies in that level's band |
| Scoring.BandMonotone | src/impact/evaluator.js:151-159 | a higher score never gives a less severe band |
| Scoring.ServiceScore | src/impact/evaluator.js:129-148 | for an impacted share between 0 and 100 percent, the service score lies between 5 and 125 |
| Scoring.EvaluateServiceImpact | src/impact/evaluator.js:116-172 | confidence 0.8; the impact score is the service score; the bands are at 75, 50 and 25; the details echo the facts read |
| Scoring.ServiceScoreMonotone | src/impact/evaluator.js:129-159 | an incident at least as bad in every service fact has a score and a severity at least as high |
| Scoring.CustomerScore | src/impact/evaluator.js:192-224 | the customer score lies between 0 and 110 |
| Scoring.TierPoints | src/impact/evaluator.js:208-215 | between 0 and 20 points, and no points exactly when the tier is not 'enterprise', 'business' or 'premium' |
| Scoring.EvaluateCustomerImpact | src/impact/evaluator.js:179-248 | confidence 0.7; the bands are at 70, 50 and 30; the details echo the facts read |
| Scoring.CustomerScoreMonotone | src/impact/evaluator.js:192-235 | an incident at least as bad in every customer fact (tier points included) has a score and a severity at least as high |
| Scoring.RevenueScore | src/impact/evaluator.js:269-302 | the revenue score lies between 0 and 135 |
| Scoring.EvaluateRevenueImpact | src/impact/evaluator.js:255-327 | confidence 0.6; the bands are at 75, 50 and 30; the details echo the facts read |
| Scoring.RevenueScoreMonotone | src/impact/evaluator.js:269-313 | an incident at least as bad in every revenue fact has a score and a severity at least as high |
| Scoring.CompromisedPoints | src/impact/evaluator.js:373 | five points per compromised system, capped at 20 |
| Scoring.SecurityScore | src/impact/evaluator.js:348-373 | the security score lies between 0 and 150 |
| Scoring.EvaluateSecurityImpact | src/impact/evaluator.js:334-398 | confidence 0.7; the bands are at 70, 50 and 30; the details echo the facts read |
| Scoring.SecurityScoreMonotone | src/impact/evaluator.js:348-384 | an incident at least as bad in every security fact has a score and a severity at least as high |
| Scoring.EvaluateMetric | src/impact/evaluator.js:84-109 | each of the four known names gives its scorer's result, which has a severity on the default scale, a score and a confidence strictly between 0 and 1; any other name gives 'unknown' with confidence 0 and no score |
| Scoring.UnknownMetric | src/impact/evaluator.js:101-107 | the result for an unknown name: severity 'unknown', confidence 0, no score, and the details text "Unknown metric type: " followed by the name |
| Scoring.UnknownMetricReported | src/impact/evaluator.js:101-107 | any name other than the four known ones is scored as `UnknownMetric`, so its details text names it |
| Scoring.ScoringExamples | src/impact/evaluator.js:116-248 | worked scores: a 70-minute full outage scores 125 ('critical'), a large enterprise customer incident 110 ('critical'), a short outage at 50 percent 80 ('critical'), and an hour of degradation 40 ('medium') |
| Severity.SeverityOrderIsLastIndex | src/impact/evaluator.js:416-419 | the order map holds exactly the levels of the scale, each at the index of its last occurrence |
| Severity.SeverityOrder | src/impact/evaluator.js:416-419 | the order map as the forEach builds it, one level at a time; `SeverityOrderIsLastIndex` states its content |
| Severity.RankIn | src/impact/evaluator.js:422-425 | `severityOrder[s] \|\| 999`: a level's index when it is on the map and nonzero, else 999 |
| Severity.Priority | src/impact/evaluator.js:422-425 | the rank of a severity on a given scale; `PriorityIsLastIndex` states its value |
| Severity.PriorityIsLastIndex | src/impact/evaluator.js:422-425 | a level's priority is its last index on the scale, or 999 if it is off the scale or at index 0 |
| Severity.InScale | src/impact/evaluator.js:407-409 | the kept severities are exactly those of the metrics that are on the scale |
| Severity.InScaleAppend | src/impact/evaluator.js:407-409 | filtering a concatenation of severities filters each part separately |
| Severity.OffScaleIgnored | src/impact/evaluator.js:407-409 | an off-scale severity (such as 'unknown') at any position among the metrics is filtered out and does not change the overall severity |
| Severity.Best | src/impact/evaluator.js:421-430 | the chosen severity is 'low' or one of the given severities; its priority is the lowest among them, and strictly below that of 'low' unless it is 'low' |
| Severity.Overall | src/impact/evaluator.js:405-433 | the overall severity is 'low' or one of the given severities; 'low' when there are none |
| Severity.OverallIsLowOrGiven | src/impact/evaluator.js:405-433 | the overall severity is 'low' or one of the metric severities on the scale |
| Severity.OverallNoneBelowLow | src/impact/evaluator.js:421-432 | if no severity ranks strictly below 'low', the result is 'low' |
| Severity.OverallFirstMinimum | src/impact/evaluator.js:424-430 | the result is the first severity with the lowest priority, when that priority is strictly below the priority of 'low' |
| Severity.IndexZeroNeverWins | src/impact/evaluator.js:422-425 | the level at index 0 of a scale (not 'low', not repeated) is never the result |
| Severity.DefaultPriorities | src/impact/evaluator.js:15 | on the default scale, 'high' ranks 1, 'medium' 2, 'low' 3, and everything else, 'critical' included, 999 |
| Severity.DefaultLevelsOverall | src/impact/evaluator.js:405-433 | on the default scale the result is 'high' if any metric is 'high', else 'medium' if any is 'medium', else 'low' |
| Severity.DefaultLevelsExamples | src/impact/evaluator.js:405-433 | on the default scale, two 'critical' give 'low', 'critical' and 'medium' give 'medium', and 'medium', 'high', 'low' give 'high' |
| Derived.Dedup | src/impact/evaluator.js:444 | the result has no duplicates and the same elements as the input, in order of first occurrence |
| Derived.IdentifyImpactedSystems | src/impact/evaluator.js:440-447 | the affected systems followed by the related services, without duplicates, in order of first occurrence |
| Derived.Round | src/impact/evaluator.js:460 | the nearest integer, with halves rounded up |
| Derived.EstimateImpactedUsers | src/impact/evaluator.js:455-472 | with a user count and a positive share: the share of the users, rounded, and within the user count when the share is at most 100 percent; with only a user count: that count; otherwise 100 users per impacted system |
| Derived.ResponseTimeFor | src/impact/evaluator.js:54-55 | the configured response time for the severity when it is nonzero, else 30; never 0 |
| Derived.EscalationTimeFor | src/impact/evaluator.js:54-56 | the configured escalation time for the severity when it is nonzero, else 60; never 0 |
| Derived.GuidanceIndex | src/impact/evaluator.js:485-512 | which guidance text the switch selects: one per level, and the fallback for anything else, `null` included |
| Derived.Template | src/impact/evaluator.js:485-512 | the selected text is one of the five guidance texts, and it is not empty |
| Derived.TemplateTexts | src/impact/evaluator.js:485-512 | 'critical', 'high', 'medium' and 'low' select their own texts, and anything else selects the fallback text |
| Derived.Join | src/impact/evaluator.js:516 | `items.join(separator)`: the items with the separator between each pair |
| Derived.SystemsClause | src/impact/evaluator.js:515-517 | the affected-systems clause is empty exactly when there are no impacted systems |
| Derived.UsersClause | src/impact/evaluator.js:520-524 | the public-update clause above 1000 users, the support-watch clause above 100, else nothing |
| Derived.Compose | src/impact/evaluator.js:514-526 | the result starts with the guidance text and continues with the systems clause and the users clause; with no systems and at most 100 users it is the guidance alone |
| Derived.GenerateRecommendation | src/impact/evaluator.js:479-527 | the recommendation is non-empty; it starts with the severity's guidance text, followed by exactly the systems clause and the users clause |
| Derived.TemplatesPrefixFree | src/impact/evaluator.js:485-512 | no guidance text is a prefix of a different one |
| Derived.RecommendationRevealsGuidance | src/impact/evaluator.js:479-527 | two equal recommendations were built from the same guidance text |
| Evaluator.Assign | src/impact/evaluator.js:44 | assigning a metric keeps an existing key in its place or appends a new key last, and changes only that key's value |
| Evaluator.Holds | src/impact/evaluator.js:43 | `!!metrics[name]`: the entry is present and is not a falsy placeholder |
| Evaluator.Lookup | src/impact/evaluator.js:43 | `metrics[name]`: found exactly when the name is a key of the map |
| Evaluator.SeveritiesOf | src/impact/evaluator.js:407-408 | the severities of the map's values in insertion order, skipping placeholders |
| Evaluator.MetricTable.constructor | src/impact/evaluator.js:33 | a new metrics map is empty |
| Evaluator.MetricTable.Put | src/impact/evaluator.js:44 | the map is updated in place by that assignment and keeps each key once |
| Evaluator.FillStep | src/impact/evaluator.js:43-45 | one pass of the loop body: a metric the map does not hold truthily gets the new result |
| Evaluator.FillStepLookup | src/impact/evaluator.js:43-45 | after one pass, only the looked-at name can change, and only if it was not held |
| Evaluator.FillMetrics | src/impact/evaluator.js:42-46 | the metric loop as a function of the map it starts from; the `FillMetrics*` lemmas state what it does |
| Evaluator.FillMetricsLookup | src/impact/evaluator.js:42-46 | after the loop, a configured metric the map did not hold (truthily) is scored from the incident; every other entry is unchanged |
| Evaluator.FillMetricsNames | src/impact/evaluator.js:42-46 | the loop keeps existing keys in place and adds only configured names |
| Evaluator.FillMetricsNoop | src/impact/evaluator.js:42-46 | when every configured metric is already held, the loop changes nothing |
| Evaluator.FillMetricsIdempotent | src/impact/evaluator.js:42-46 | running the loop twice is the same as running it once |
| Evaluator.Complete | src/impact/evaluator.js:27-76 | the whole evaluation, field by field in the code's order; `CompleteKeepsSupplied`, `CompleteFillsEverything` and `CompleteIdempotent` state what it does |
| Evaluator.CompleteKeepsSupplied | src/impact/evaluator.js:27-76 | a truthy severity, a non-empty system list, a nonzero user count, a truthy recommendation and every held metric of the partial assessment are kept, and no key is removed from the metrics map |
| Evaluator.CompleteFillsEverything | src/impact/evaluator.js:27-76 | every configured metric ends up held, scored from the incident if it was missing; a severity, nonzero times computed from that severity, and a non-empty recommendation are always set |
| Evaluator.CompleteIdempotent | src/impact/evaluator.js:27-76 | evaluating a completed assessment again gives it back unchanged |
| Evaluator.ScenarioScores | src/impact/evaluator.js:116-248 | a 45-minute outage at 80 percent scores 105 and reaching 500 business customers scores 75, so both metrics are 'critical' |
| Evaluator.TwoCriticalsGiveLow | src/impact/evaluator.js:27-76 | with two 'critical' metrics on the default scale, no thresholds, no systems and no users, the evaluation gives 'low', 30 and 60 minutes, 0 users and the 'low' guidance |
| Evaluator.EndToEndExample | src/impact/evaluator.js:27-76 | the worked incident, evaluated from scratch with the default scale, comes out as 'low' with the 'low' guidance |
| Evaluator.ImpactEvaluator.constructor | src/impact/evaluator.js:12-19 | each setting is taken from the configuration, or defaults to no metrics, the default scale, and no thresholds |
| Evaluator.ImpactEvaluator.DetermineSeverity | src/impact/evaluator.js:405-433 | the loops compute `Overall` of the on-scale metric severities: the order map as built by the first loop, then the first severity with the lowest priority |
| Evaluator.ImpactEvaluator.Evaluate | src/impact/evaluator.js:27-76 | the returned assessment equals `Complete` of the partial assessment (or of the empty skeleton); its metrics map is the caller's own, updated in place, or a fresh one, and still has each key once |

## Left out

- Logging, the `load` and `update` file I/O, and the asynchronous calls are not modelled. The incident id is read only for logging.
- Numbers are mathematical reals and integers, not IEEE doubles. NaN, infinities and rounding of the `* 0.5` and `/ 100` steps are not modelled.
- Incident facts are typed: each boolean, number, string or list takes the value the code defaults it to when absent. Facts of the wrong type, and JavaScript coercions on them, are not modelled.
- Configuration objects are maps, so the key order of a JavaScript object is not modelled. Validation therefore says that some unusable AI model is reported, not which one.
- Config.ValidateConfig: the error message of an invalid AI model carries the model's JSON text; the model keeps only the error kind. A `null` model makes the source throw a `TypeError` when it reads `model.name`; the model reports it as the invalid-model error.
- Config.MergeConfigs: property names inherited from JavaScript's object prototype (such as `__proto__` or `constructor`) are treated as ordinary absent keys.
- JsonValue.Spread: spreading a string (only reachable through the prototype names above) is not modelled.
- Evaluator.MetricTable: JavaScript places integer-like keys before all others in an object; the model keeps every metric name in insertion order.
- Evaluator.MetricEntry: a partial assessment may hold falsy entries (`0`, `false` or an empty string), and these are modelled as placeholders. A `null` or `undefined` entry is not modelled. For such an entry under a name that is not configured, the source's `determineSeverity` throws a `TypeError` when it reads `m.severity`. A `null` or missing `metrics` map, and a non-object entry that is truthy, are not modelled either; the source would throw or misread these.
- Evaluator.Lookup: property names inherited from JavaScript's object prototype (such as `constructor`, `toString` or `__proto__`) are treated as absent. In the source such a configured metric name reads as truthy on the metrics map, so it is never scored; the model scores it as an unknown metric.
- Evaluator.Report: a partial assessment is assumed to have every field; a missing `impactedSystems` list or a non-string severity is not modelled.
