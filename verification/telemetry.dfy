/**
 * The three telemetry record shapes the factory produces, as plain values.
 * Every record carries a context (instrumentation key and operation) and a
 * string property bag, as the monitoring SDK's records do.
 */
module TelemetryRecords {
  import opened Optional

  /** Correlation data: operation id and operation name, each possibly unset. */
  datatype OperationContext = OperationContext(id: Option<string>, name: Option<string>)

  /** Per-record context: the instrumentation key (unset means "use the sender's default"). */
  datatype TelemetryContext = TelemetryContext(
    instrumentationKey: Option<string>,
    operation: OperationContext)

  /** The context of a freshly constructed record: nothing is set. */
  const NewContext := TelemetryContext(None, OperationContext(None, None))

  datatype Telemetry =
    | Event(
        name: string,
        context: TelemetryContext,
        properties: map<string, string>)
    | Metric(
        name: string,
        value: real,
        min: real,
        max: real,
        count: int,
        standardDeviation: real,
        context: TelemetryContext,
        properties: map<string, string>)
    | PerformanceCounter(
        categoryName: string,
        counterName: string,
        instanceName: string,
        value: real,
        context: TelemetryContext,
        properties: map<string, string>)

  /** `getProperties().put(key, value)`: overwrite one entry, leave everything else alone. */
  function PutProperty(t: Telemetry, key: string, value: string): (r: Telemetry)
    ensures r == t.(properties := r.properties)
    ensures r.properties.Keys == t.properties.Keys + {key}
    ensures r.properties[key] == value
    ensures forall k :: k in t.properties && k != key ==> r.properties[k] == t.properties[k]
  {
    t.(properties := t.properties[key := value])
  }
}
