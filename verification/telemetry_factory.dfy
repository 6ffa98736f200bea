/**
 * The factory that turns parsed Docker inputs into telemetry records: one
 * entry point for lifecycle events, one for stats metrics, and the private
 * helper that builds performance-counter records.
 */
module TelemetryFactory {
  import opened Optional
  import opened StringUtils
  import opened Contracts
  import opened TelemetryRecords
  import opened Constants

  /** The metric name denotes one of the backend's built-in counters (case ignored). */
  predicate IsPerformanceCounterName(k: PerfCounterNames, name: string)
    ensures IsPerformanceCounterName(k, name) <==>
              Lowercase(name) == Lowercase(k.cpuCounterName) || Lowercase(name) == Lowercase(k.memoryCounterName)
  {
    EqualsIgnoreCase(name, k.cpuCounterName) || EqualsIgnoreCase(name, k.memoryCounterName)
  }

  /** `t` carries the four Docker keys with the values of `m`'s container identity. */
  predicate HasDockerProperties(t: Telemetry, m: ContainerStatsMetric) {
    && DockerKeys <= t.properties.Keys
    && t.properties[DockerHostKey] == m.dockerHost
    && t.properties[DockerImageKey] == m.dockerImage
    && t.properties[DockerContainerNameKey] == m.dockerContainerName
    && t.properties[DockerContainerIdKey] == m.dockerContainerId
  }

  /**
   * An event record is correlated when its operation id is the value stored
   * under the container-id key (unset when that key is missing) and its
   * operation name is the record's name.
   */
  predicate Correlated(t: Telemetry) {
    && t.Event?
    && t.context.operation.id == Lookup(t.properties, DockerContainerIdKey)
    && t.context.operation.name == Some(t.name)
  }

  /**
   * `createEventTelemetry`: a record named after the event, carrying the
   * event's instrumentation key only when it is non-empty, correlated by
   * container id and holding a copy of the event's properties.
   */
  function CreateEventTelemetry(e: ContainerStateEvent): (r: Telemetry)
    ensures r.Event? && r.name == e.name
    ensures r.context.operation.name == Some(e.name)
    ensures DockerContainerIdKey in e.properties ==>
              r.context.operation.id == Some(e.properties[DockerContainerIdKey])
    ensures DockerContainerIdKey !in e.properties ==> r.context.operation.id.None?
    ensures !IsNullOrEmpty(e.instrumentationKey) ==>
              r.context.instrumentationKey == e.instrumentationKey
    ensures IsNullOrEmpty(e.instrumentationKey) ==>
              r.context.instrumentationKey == NewContext.instrumentationKey
    ensures r.properties == e.properties
  {
    var keyed :=
      if !IsNullOrEmpty(e.instrumentationKey)
      then NewContext.(instrumentationKey := e.instrumentationKey)
      else NewContext;
    var operation := keyed.operation.(id := Lookup(e.properties, DockerContainerIdKey), name := Some(e.name));
    // The new record's bag is empty, so `putAll` leaves exactly the event's entries.
    Event(e.name, keyed.(operation := operation), e.properties)
  }

  /**
   * `createPerformanceCounterTelemetry`: a record for a built-in counter,
   * named by the canonical constant rather than by the caller's spelling;
   * absent for any other name. The CPU test comes first.
   */
  function CreatePerformanceCounterTelemetry(k: PerfCounterNames, m: ContainerStatsMetric): (r: Option<Telemetry>)
    ensures r.Some? <==> IsPerformanceCounterName(k, m.metricName)
    ensures r.Some? ==> r.value.PerformanceCounter? && r.value.value == m.value
    ensures r.Some? ==> EqualsIgnoreCase(m.metricName, r.value.counterName)
    ensures r.Some? ==> r.value.context == NewContext && r.value.properties == map[]
    ensures EqualsIgnoreCase(m.metricName, k.cpuCounterName) ==>
              && r.Some?
              && r.value.categoryName == k.cpuCategoryName
              && r.value.counterName == k.cpuCounterName
              && r.value.instanceName == TotalInstanceName
    ensures !EqualsIgnoreCase(m.metricName, k.cpuCounterName) && EqualsIgnoreCase(m.metricName, k.memoryCounterName) ==>
              && r.Some?
              && r.value.categoryName == k.memoryCategoryName
              && r.value.counterName == k.memoryCounterName
              && r.value.instanceName == ""
  {
    if EqualsIgnoreCase(m.metricName, k.cpuCounterName) then
      Some(PerformanceCounter(k.cpuCategoryName, k.cpuCounterName, TotalInstanceName, m.value, NewContext, map[]))
    else if EqualsIgnoreCase(m.metricName, k.memoryCounterName) then
      Some(PerformanceCounter(k.memoryCategoryName, k.memoryCounterName, "", m.value, NewContext, map[]))
    else
      None
  }

  /**
   * The unconditional tail of `createMetricTelemetry`: write the four Docker
   * keys, overwriting earlier values, leaving the record and its other keys alone.
   */
  function AddDockerProperties(t: Telemetry, m: ContainerStatsMetric): (r: Telemetry)
    ensures r == t.(properties := r.properties)
    ensures HasDockerProperties(r, m)
    ensures r.properties.Keys == t.properties.Keys + DockerKeys
    ensures forall key :: key in t.properties && key !in DockerKeys ==> r.properties[key] == t.properties[key]
  {
    var withHost := PutProperty(t, DockerHostKey, m.dockerHost);
    var withImage := PutProperty(withHost, DockerImageKey, m.dockerImage);
    var withName := PutProperty(withImage, DockerContainerNameKey, m.dockerContainerName);
    PutProperty(withName, DockerContainerIdKey, m.dockerContainerId)
  }

  /**
   * `createMetricTelemetry`: a performance-counter record for the built-in
   * counter names, a generic metric record copying the statistics otherwise;
   * either way the record's properties are exactly the four Docker keys.
   */
  function CreateMetricTelemetry(k: PerfCounterNames, m: ContainerStatsMetric): (r: Telemetry)
    ensures r.PerformanceCounter? <==> IsPerformanceCounterName(k, m.metricName)
    ensures r.Metric? <==> !IsPerformanceCounterName(k, m.metricName)
    ensures r.Metric? ==>
              && r.name == m.metricName
              && r.value == m.value && r.min == m.min && r.max == m.max
              && r.count == m.count && r.standardDeviation == m.stdDev
    ensures r.PerformanceCounter? ==>
              r.value == m.value && EqualsIgnoreCase(m.metricName, r.counterName)
    ensures EqualsIgnoreCase(m.metricName, k.cpuCounterName) ==>
              && r.PerformanceCounter?
              && r.categoryName == k.cpuCategoryName
              && r.counterName == k.cpuCounterName
              && r.instanceName == TotalInstanceName
    ensures !EqualsIgnoreCase(m.metricName, k.cpuCounterName) && EqualsIgnoreCase(m.metricName, k.memoryCounterName) ==>
              && r.PerformanceCounter?
              && r.categoryName == k.memoryCategoryName
              && r.counterName == k.memoryCounterName
              && r.instanceName == ""
    ensures r.context == NewContext
    ensures HasDockerProperties(r, m) && r.properties.Keys == DockerKeys
  {
    var base :=
      if IsPerformanceCounterName(k, m.metricName) then
        CreatePerformanceCounterTelemetry(k, m).value
      else
        Metric(m.metricName, m.value, m.min, m.max, m.count, m.stdDev, NewContext, map[]);
    AddDockerProperties(base, m)
  }
}
