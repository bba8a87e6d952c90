/** The plain records of actions/replacer.go, actions/ecs.go and config/config.go. */
module Records {
  /** AsgInstance: what the program keeps about one instance of the group. */
  datatype AsgInstance = AsgInstance(
    instanceId: string,
    instanceArn: string,
    imageId: string,
    runningTasks: int,
    pendingTasks: int,
    draining: bool,
    scalinProtection: bool,
    availabilityZone: string,
    cluster: string,
    clusterSize: int)

  /** A composite literal that sets only these fields; Go zeroes the others. */
  function NewAsgInstance(instanceId: string, instanceArn: string, imageId: string, cluster: string,
                          runningTasks: int, pendingTasks: int, availabilityZone: string): (i: AsgInstance)
    ensures i.instanceId == instanceId && i.instanceArn == instanceArn && i.imageId == imageId
    ensures i.cluster == cluster && i.availabilityZone == availabilityZone
    ensures i.runningTasks == runningTasks && i.pendingTasks == pendingTasks
    ensures !i.draining && !i.scalinProtection && i.clusterSize == 0
  {
    AsgInstance(instanceId, instanceArn, imageId, runningTasks, pendingTasks, false, false, availabilityZone, cluster, 0)
  }

  /** The snapshot of the cluster that setClusterStatus builds. */
  datatype Cluster = Cluster(
    clustername: string,
    ecsInstance: seq<AsgInstance>,
    unusedInstances: seq<string>,
    freeInstances: seq<AsgInstance>,
    clusterSize: int)

  /** The command configuration. */
  datatype Config = Config(
    image: string,
    owner: string,
    asgname: string,
    clustername: string,
    dryrun: bool,
    debug: bool,
    generation: int)
}
