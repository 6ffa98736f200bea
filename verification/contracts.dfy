/**
 * The two already-parsed inputs of the factory. Parsing them from Docker's
 * JSON is not part of this model.
 */
module Contracts {
  import opened Optional

  /** A container lifecycle event: its name, an optional instrumentation key and a property bag. */
  datatype ContainerStateEvent = ContainerStateEvent(
    name: string,
    instrumentationKey: Option<string>,
    properties: map<string, string>)

  /** One point-in-time resource measurement of a container, with the container's identity. */
  datatype ContainerStatsMetric = ContainerStatsMetric(
    metricName: string,
    value: real,
    min: real,
    max: real,
    count: int,
    stdDev: real,
    dockerHost: string,
    dockerImage: string,
    dockerContainerName: string,
    dockerContainerId: string)
}
