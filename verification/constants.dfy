/**
 * Names shared with the monitoring backend: the four Docker property keys,
 * and the built-in performance counters the backend recognises.
 */
module Constants {
  import opened StringUtils

  const DockerHostKey := "Docker host"
  const DockerImageKey := "Docker image"
  const DockerContainerNameKey := "Docker container name"
  const DockerContainerIdKey := "Docker container id"

  /** The four keys every stats-derived record carries. */
  const DockerKeys := {DockerHostKey, DockerImageKey, DockerContainerNameKey, DockerContainerIdKey}

  /** Instance label of the CPU counter: the machine-wide total. */
  const TotalInstanceName := "_Total"

  /**
   * The counter and category names of the SDK's built-in CPU and total-memory
   * counters. Their values live in the SDK, so the model takes them as a parameter.
   */
  datatype PerfCounterNames = PerfCounterNames(
    cpuCounterName: string,
    cpuCategoryName: string,
    memoryCounterName: string,
    memoryCategoryName: string)

  /** The CPU and memory counter names are distinct even when case is ignored. */
  predicate Distinguishable(k: PerfCounterNames) {
    !EqualsIgnoreCase(k.cpuCounterName, k.memoryCounterName)
  }
}
