# TelemetryFactory of ApplicationInsights-Docker, in Dafny

ApplicationInsights-Docker forwards Docker container lifecycle events and
resource statistics to Application Insights. Its `TelemetryFactory` is the
only piece with logic of its own. It turns a container state event into an
event record and a container stats metric into a telemetry record. That record
is a performance-counter record when the metric is one of the backend's
built-in counters (CPU, total memory), and a generic metric record otherwise.

This project models that factory as pure functions over immutable values:

- `optional.dfy` (`Optional`): `Option` for Java's `null`, and `Map.get` as `Lookup`.
- `string_utils.dfy` (`StringUtils`): `StringUtils.isNullOrEmpty` and Java's
  `String.equalsIgnoreCase`. The latter uses the JDK's per-character rule with
  ASCII case mappings, and is proved equal to "the lower-cased copies are equal".
- `contracts.dfy` (`Contracts`): the parsed inputs `ContainerStateEvent` and
  `ContainerStatsMetric`.
- `telemetry.dfy` (`TelemetryRecords`): the three record shapes as one tagged
  union. Each record has a context (instrumentation key, operation id and
  name) and a `map<string, string>` property bag.
- `constants.dfy` (`Constants`): the four Docker property keys, the `_Total`
  instance label, and the SDK's counter and category names. The SDK names are
  a parameter (`PerfCounterNames`) because their values are not part of this model.
- `telemetry_factory.dfy` (`TelemetryFactory`): the two public entry points
  and the private performance-counter helper.
- `factory_properties.dfy` (`FactoryProperties`): inverse readers and round
  trips, the correlation invariant, case-insensitive classification, canonical
  counter names, and the scenarios of the sender's unit tests.

Where the CPU and memory counter names would be equal up to case, the source
takes the CPU branch. The model does the same. The predicate `Distinguishable`
states that the two names differ up to case. Only `MemoryNameGivesMemoryCounter`
assumes it: without it, a memory-counter name that also matches the CPU name
gives the CPU record.

The factory does not check that the event name is non-empty, so `CreateEventTelemetry` has no precondition.

## Model

| member | source | states |
|---|---|---|
| Optional.Lookup | src/main/java/com/microsoft/applicationinsights/common/TelemetryFactory.java:48 | A property lookup returns the stored value when the key is present, and null otherwise. It never fails. |
| StringUtils.IsNullOrEmpty | src/main/java/com/microsoft/applicationinsights/common/TelemetryFactory.java:43 | The instrumentation-key test holds exactly for a null key and for the empty string. |
| StringUtils.EqualsIgnoreCase | src/main/java/com/microsoft/applicationinsights/common/TelemetryFactory.java:63 | `equalsIgnoreCase` holds exactly when the two names have the same length and every pair of characters at the same index matches under the per-character rule. |
| StringUtils.RegionMatchesIgnoreCase | src/main/java/com/microsoft/applicationinsights/common/TelemetryFactory.java:63 | The per-character loop of `equalsIgnoreCase` accepts two equal-length strings exactly when their lower-cased copies are equal. |
| StringUtils.CharEqualsIgnoreCaseIffSameLower | src/main/java/com/microsoft/applicationinsights/common/TelemetryFactory.java:88 | The per-character rule (equal, or equal upper-case, or equal lower-case of upper-case) is the same as "equal lower-case forms". |
| StringUtils.EqualsIgnoreCaseIffSameLowercase | src/main/java/com/microsoft/applicationinsights/common/TelemetryFactory.java:94 | `equalsIgnoreCase` holds in both directions exactly when the lower-cased copies are equal; a length mismatch means not equal. |
| StringUtils.EqualsIgnoreCaseIsEquivalence | src/main/java/com/microsoft/applicationinsights/common/TelemetryFactory.java:63 | The case-insensitive comparison is reflexive, symmetric and transitive. |
| TelemetryRecords.PutProperty | src/main/java/com/microsoft/applicationinsights/common/TelemetryFactory.java:75-79 | Putting a property overwrites that one key and adds it if missing. Every other key, and every other field of the record, stays the same. |
| TelemetryFactory.IsPerformanceCounterName | src/main/java/com/microsoft/applicationinsights/common/TelemetryFactory.java:63 | The classification test of `createMetricTelemetry`: a name is a built-in counter exactly when its lower-cased copy equals that of the CPU counter name or of the memory counter name. |
| TelemetryFactory.CreateEventTelemetry | src/main/java/com/microsoft/applicationinsights/common/TelemetryFactory.java:40-55 | The event record's name and operation name are the event's name. The operation id is the container-id property, or unset when that key is missing. The instrumentation key is set only if the event's key is non-null and non-empty; otherwise it stays at the fresh default. The properties are exactly the event's properties. |
| TelemetryFactory.CreatePerformanceCounterTelemetry | src/main/java/com/microsoft/applicationinsights/common/TelemetryFactory.java:84-103 | The helper returns a record exactly when the name matches a built-in counter up to case. A CPU match gives (CPU category, canonical CPU counter, `_Total`); otherwise a memory match gives (memory category, canonical memory counter, empty instance). The value is the metric's value, and the record's counter name equals the input name up to case. |
| TelemetryFactory.AddDockerProperties | src/main/java/com/microsoft/applicationinsights/common/TelemetryFactory.java:75-79 | The four Docker keys take the metric's host, image, container name and container id, overwriting earlier values. Other keys and the record's shape and fields do not change. |
| TelemetryFactory.CreateMetricTelemetry | src/main/java/com/microsoft/applicationinsights/common/TelemetryFactory.java:57-82 | The result is a performance-counter record exactly when the name is a built-in counter up to case, and a generic metric record otherwise. A generic record copies the name unchanged, plus value, min, max, count and standard deviation. A CPU-name match gives the CPU category, the canonical CPU counter and `_Total`. Otherwise a memory-name match gives the memory category, the canonical memory counter and an empty instance. In both branches the property bag is exactly the four Docker keys with the metric's values. |
| FactoryProperties.EventTelemetryIsCorrelated | src/main/java/com/microsoft/applicationinsights/common/TelemetryFactory.java:47-50 | Every event record's operation id equals its own container-id property, and its operation name equals its name. This is the correlation invariant. |
| FactoryProperties.EventRoundTrip | src/main/java/com/microsoft/applicationinsights/common/TelemetryFactory.java:40-52 | Reading an event back from its record gives the original event. The only loss is that an empty instrumentation key reads back as none. |
| FactoryProperties.EventTelemetryInjective | src/main/java/com/microsoft/applicationinsights/common/TelemetryFactory.java:40-52 | Two events give equal records exactly when they agree once empty keys are treated as none (both directions). |
| FactoryProperties.CustomMetricRoundTrip | src/main/java/com/microsoft/applicationinsights/common/TelemetryFactory.java:66-79 | For a non-counter name, the whole stats metric, container identity included, can be read back from the generic record. |
| FactoryProperties.ClassificationIgnoresCase | src/main/java/com/microsoft/applicationinsights/common/TelemetryFactory.java:63 | Two names equal up to case are classified the same way, against each counter separately and overall. |
| FactoryProperties.PerformanceCounterIgnoresSpellingAndStatistics | src/main/java/com/microsoft/applicationinsights/common/TelemetryFactory.java:84-99 | For a counter name, the record depends only on the name up to case, the value and the container identity. The caller's casing, min, max, count and standard deviation do not reach it. |
| FactoryProperties.MemoryNameGivesMemoryCounter | src/main/java/com/microsoft/applicationinsights/common/TelemetryFactory.java:94-99 | When the two counter names differ up to case, any spelling of the memory counter gives the memory category, the canonical memory counter and an empty instance. |
| FactoryProperties.CanonicalCounterNameIsFixedPoint | src/main/java/com/microsoft/applicationinsights/common/TelemetryFactory.java:88-99 | The emitted counter name is canonical: feeding it back as the metric name reproduces the same record. This holds for any values of the counter constants. |
| FactoryProperties.CpuMetricScenario | src/test/java/com/microsoft/applicationinsights/common/ApplicationInsightsSenderTests.java:97-110 | A metric named by the CPU counter, with zero statistics and Docker fields `x`, becomes a CPU performance counter. It has instance `_Total`, value 0 and exactly the four Docker keys set to `x`. |
| FactoryProperties.CustomMetricScenario | src/test/java/com/microsoft/applicationinsights/common/ApplicationInsightsSenderTests.java:65-68 | A metric named `non_pc` becomes a generic metric record named `non_pc`. |
| FactoryProperties.StateEventScenario | src/test/java/com/microsoft/applicationinsights/common/ApplicationInsightsSenderTests.java:83-90 | The event `docker-container-state` with container id `con_id` gets operation id `con_id` and operation name `docker-container-state`. |

## Left out

- Parsing `ContainerStateEvent` and `ContainerStatsMetric` from JSON: their constructors are not part of this model, so the inputs are already-parsed records.
- `ApplicationInsightsSender` and `TelemetryClient.track`: transport, batching and delivery are outside the factory.
- The SDK's record classes are plain datatypes here. Defaults the SDK may fill in later, such as the sender's instrumentation key, are not modelled; a fresh record's context is simply unset.
- The values of the SDK's counter and category names: they are taken as parameters (`PerfCounterNames`). The SDK constant `INSTANCE_NAME_TOTAL` is assumed to be "_Total".
- StringUtils.EqualsIgnoreCase: applies ASCII case mappings only. Java applies Unicode per-character mappings to UTF-16 code units, so names with non-ASCII letters may compare differently.
- The source of `StringUtils.isNullOrEmpty` is not shown; `IsNullOrEmpty` assumes it means null or zero length. The four `DOCKER_*_PROPERTY_KEY` values of the project's `common.Constants` are not shown either. The keys are fixed to the literals "Docker host", "Docker image", "Docker container name" and "Docker container id", which are the property names in the metric template of src/test/java/com/microsoft/applicationinsights/common/ApplicationInsightsSenderTests.java:52.
- Floating point: value, min, max and standard deviation are only copied, so they are `real`. `count` is an unbounded `int`.
- Java `null` is modelled only where the factory handles it: a missing instrumentation key and a missing container id. A null metric name or Docker field, or a null value in the event's property map, would make the Java code throw or store null. The model has no such inputs.
- Thread safety: the factory has no state, and nothing here is concurrent.
