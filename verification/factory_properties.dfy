/**
 * Properties relating several calls of the factory: inverse readers and the
 * round trips they complete, the correlation invariant of event records,
 * case-insensitive classification, and the canonical counter names.
 */
module FactoryProperties {
  import opened Optional
  import opened StringUtils
  import opened Contracts
  import opened TelemetryRecords
  import opened Constants
  import opened TelemetryFactory

  // ----- Events -----

  /** The event as the factory sees it: an empty instrumentation key counts as none. */
  function NormalizeKey(e: ContainerStateEvent): ContainerStateEvent {
    if IsNullOrEmpty(e.instrumentationKey) then e.(instrumentationKey := None) else e
  }

  /** Read an event back out of an event record. */
  function RecoverStateEvent(t: Telemetry): Option<ContainerStateEvent> {
    if t.Event? then Some(ContainerStateEvent(t.name, t.context.instrumentationKey, t.properties)) else None
  }

  /** Every event record is correlated by container id and named after its event. */
  lemma EventTelemetryIsCorrelated(e: ContainerStateEvent)
    ensures Correlated(CreateEventTelemetry(e))
  {
  }

  /** An event record loses nothing but the difference between a missing and an empty key. */
  lemma EventRoundTrip(e: ContainerStateEvent)
    ensures RecoverStateEvent(CreateEventTelemetry(e)) == Some(NormalizeKey(e))
  {
  }

  /** Two events give the same record exactly when they agree once empty keys are dropped. */
  lemma EventTelemetryInjective(e1: ContainerStateEvent, e2: ContainerStateEvent)
    ensures CreateEventTelemetry(e1) == CreateEventTelemetry(e2) <==> NormalizeKey(e1) == NormalizeKey(e2)
  {
  }

  // ----- Metrics -----

  /** Read a stats metric back out of a generic metric record carrying the Docker keys. */
  function RecoverStatsMetric(t: Telemetry): Option<ContainerStatsMetric> {
    if t.Metric? && DockerKeys <= t.properties.Keys then
      Some(ContainerStatsMetric(
        t.name, t.value, t.min, t.max, t.count, t.standardDeviation,
        t.properties[DockerHostKey], t.properties[DockerImageKey],
        t.properties[DockerContainerNameKey], t.properties[DockerContainerIdKey]))
    else
      None
  }

  /** A custom metric is sent without loss: the stats metric can be read back in full. */
  lemma CustomMetricRoundTrip(k: PerfCounterNames, m: ContainerStatsMetric)
    requires !IsPerformanceCounterName(k, m.metricName)
    ensures RecoverStatsMetric(CreateMetricTelemetry(k, m)) == Some(m)
  {
  }

  /** Whether a name is a built-in counter does not depend on its case. */
  lemma ClassificationIgnoresCase(k: PerfCounterNames, a: string, b: string)
    requires EqualsIgnoreCase(a, b)
    ensures EqualsIgnoreCase(a, k.cpuCounterName) <==> EqualsIgnoreCase(b, k.cpuCounterName)
    ensures EqualsIgnoreCase(a, k.memoryCounterName) <==> EqualsIgnoreCase(b, k.memoryCounterName)
    ensures IsPerformanceCounterName(k, a) <==> IsPerformanceCounterName(k, b)
  {
  }

  /**
   * A performance-counter record depends only on the case-folded name, the
   * value and the container identity: the caller's spelling and the min, max,
   * count and standard deviation do not reach it.
   */
  lemma PerformanceCounterIgnoresSpellingAndStatistics(k: PerfCounterNames, m1: ContainerStatsMetric, m2: ContainerStatsMetric)
    requires IsPerformanceCounterName(k, m1.metricName)
    requires EqualsIgnoreCase(m1.metricName, m2.metricName)
    requires m1.value == m2.value
    requires m1.dockerHost == m2.dockerHost && m1.dockerImage == m2.dockerImage
    requires m1.dockerContainerName == m2.dockerContainerName && m1.dockerContainerId == m2.dockerContainerId
    ensures CreateMetricTelemetry(k, m1) == CreateMetricTelemetry(k, m2)
  {
  }

  /** With distinguishable counters, a memory name always gives the memory counter. */
  lemma MemoryNameGivesMemoryCounter(k: PerfCounterNames, m: ContainerStatsMetric)
    requires Distinguishable(k)
    requires EqualsIgnoreCase(m.metricName, k.memoryCounterName)
    ensures CreatePerformanceCounterTelemetry(k, m) ==
              Some(PerformanceCounter(k.memoryCategoryName, k.memoryCounterName, "", m.value, NewContext, map[]))
  {
  }

  /**
   * The counter name a record carries is canonical: sending it back in as a
   * metric name reproduces the same record.
   */
  lemma CanonicalCounterNameIsFixedPoint(k: PerfCounterNames, m: ContainerStatsMetric)
    requires IsPerformanceCounterName(k, m.metricName)
    ensures var r := CreatePerformanceCounterTelemetry(k, m).value;
            CreatePerformanceCounterTelemetry(k, m.(metricName := r.counterName)) == Some(r)
  {
  }

  // ----- The scenarios the sender's tests exercise -----

  /** A stats metric named by the CPU counter becomes the CPU performance counter. */
  lemma CpuMetricScenario(k: PerfCounterNames)
    ensures var r := CreateMetricTelemetry(k, ContainerStatsMetric(k.cpuCounterName, 0.0, 0.0, 0.0, 0, 0.0, "x", "x", "x", "x"));
            && r.PerformanceCounter?
            && r.categoryName == k.cpuCategoryName && r.instanceName == "_Total" && r.value == 0.0
            && r.properties == map[DockerHostKey := "x", DockerImageKey := "x", DockerContainerNameKey := "x", DockerContainerIdKey := "x"]
  {
  }

  /** A stats metric with any other name becomes a custom metric under that name. */
  lemma CustomMetricScenario(k: PerfCounterNames)
    requires !IsPerformanceCounterName(k, "non_pc")
    ensures var r := CreateMetricTelemetry(k, ContainerStatsMetric("non_pc", 0.0, 0.0, 0.0, 0, 0.0, "x", "x", "x", "x"));
            r.Metric? && r.name == "non_pc"
  {
  }

  /** A state event carrying container id `con_id` is correlated under that id. */
  lemma StateEventScenario(key: Option<string>, props: map<string, string>)
    requires DockerContainerIdKey in props && props[DockerContainerIdKey] == "con_id"
    ensures var r := CreateEventTelemetry(ContainerStateEvent("docker-container-state", key, props));
            r.context.operation == OperationContext(Some("con_id"), Some("docker-container-state"))
  {
  }
}
