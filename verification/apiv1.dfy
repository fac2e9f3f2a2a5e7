/**
 * The parts of the Cluster resource (API group postgresql.cnpg.io/v1) that the
 * plugin controller reads and writes.
 */
module ApiV1 {

  /** One entry of `Status.PluginStatus`: what the cluster reports about one attached plugin. */
  datatype PluginStatus = PluginStatus(
    name: string,
    version: string,
    capabilities: seq<string>,
    operatorCapabilities: seq<string>,
    walCapabilities: seq<string>,
    backupCapabilities: seq<string>)

  /** The zero value Go gives every element of a freshly made status slice. */
  const ZeroStatus := PluginStatus("", "", [], [], [], [])

  /**
   * A deep copy of a cluster, as a value. Every field other than
   * `Status.PluginStatus` (metadata, spec, the rest of the status) is kept
   * abstract as `rest`.
   */
  datatype ClusterImage<R> = ClusterImage(rest: R, pluginStatus: seq<PluginStatus>)

  /** The cluster object the reconciler receives by pointer and mutates in place. */
  class Cluster<R> {
    var rest: R
    var pluginStatus: seq<PluginStatus>

    constructor (rest: R, pluginStatus: seq<PluginStatus>)
      ensures this.rest == rest && this.pluginStatus == pluginStatus
    {
      this.rest := rest;
      this.pluginStatus := pluginStatus;
    }

    /** `DeepCopy`: a snapshot that later mutations of the object do not affect. */
    function DeepCopy(): (c: ClusterImage<R>)
      reads this
      ensures c.rest == rest && c.pluginStatus == pluginStatus
    {
      ClusterImage(rest, pluginStatus)
    }
  }
}
