/**
 * The cloud services the program talks to, seen through the requests it
 * sends. Every request is appended to a log; the reply to a request is a
 * fixed function of the log up to and including it, so the environment
 * may answer the same question differently as time passes (an instance
 * that is still stopping, a group that is still shrinking). Helpers that
 * the actions package calls but that are not part of this model are
 * requests of their own.
 */
module Sdk {
  import opened Wrappers
  import opened Records
  import Apis

  /** One instance of an auto-scaling group, as autoscaling.Instance. */
  datatype GroupInstance = GroupInstance(instanceId: string)

  /** autoscaling.Group: its name and its instances. */
  datatype Group = Group(name: string, instances: seq<GroupInstance>)

  /** ecs.ContainerInstance: the fields the classification reads. */
  datatype ContainerInstance = ContainerInstance(
    ec2InstanceId: string,
    containerInstanceArn: string,
    runningTasksCount: int,
    pendingTasksCount: int)

  /** ec2.Instance: its placement and its state code (80 is "stopped"). */
  datatype Ec2Instance = Ec2Instance(instanceId: string, availabilityZone: string, stateCode: int)

  /** ec2.Reservation, by its instances. */
  type Reservation = seq<Ec2Instance>

  /** autoscaling.LaunchTemplateSpecification */
  datatype LaunchTemplate = LaunchTemplate(templateId: string, version: string)

  /** autoscaling.InstanceDetails: the launch template is optional. */
  datatype InstanceDetails = InstanceDetails(instanceId: string, launchTemplate: Option<LaunchTemplate>)

  /** ec2.LaunchTemplateVersion by the image id of its data, which may be absent. */
  datatype LaunchTemplateVersion = LaunchTemplateVersion(imageId: Option<string>)

  /** ec2.Filter */
  datatype Filter = Filter(name: string, values: seq<string>)

  /** ec2.Volume */
  datatype Volume = Volume(volumeId: string, snapshotId: string)

  /** The output of a mutating call, which the program only passes on. */
  datatype Output = Output(token: nat)

  /** The reply of the snapshot-taking swapInstance, and whether it left the state machine running. */
  datatype SwapReply = SwapReply(result: Result<Output>, leftRunning: bool)

  /** A request, with the arguments the program puts in it. */
  datatype Call =
    | DescribeAutoScalingGroups(groupNames: seq<string>)
    | DescribeAutoScalingInstances(instanceIds: seq<string>)
    | DescribeLaunchTemplateVersions(templateId: string, versions: seq<string>)
    | DescribeImages(owners: seq<string>, filters: seq<Filter>)
    | DeregisterImage(imageId: string, dryRun: bool)
    | DescribeSnapshots(ownerIds: seq<string>)
    | DescribeVolumes(filters: seq<Filter>)
    | DeleteSnapshot(snapshotId: string, dryRun: bool)
    | StopInstances(instanceIds: seq<string>, dryRun: bool)
    | DescribeInstances(instanceIds: seq<string>)
    | ListContainerInstances(cluster: string)
    | DescribeContainerInstances(cluster: string, containerInstances: seq<string>)
    | UpdateContainerInstancesState(cluster: string, containerInstances: seq<string>, status: string)
      // helpers of the actions package that this model does not open up
    | InfoAsg(asgName: string)
    | NewestAmi(owner: string, image: string)
    | GetEcsInstance(cluster: string, asgName: string, newest: string, size: int)
    | GetUnusedInstance(cluster: string, newest: string)
    | GetFreeInstance(cluster: string, asgName: string, newest: string, size: int)
    | OptimizeClusterSize(snapshot: Cluster, asgName: string, size: int)
    | SwapInstance(snapshot: Cluster, newest: string, dryRun: bool)
    | StopUnusedInstance(asgName: string, instanceIds: seq<string>, dryRun: bool)
    | DeregisterAmi(imageId: string, owner: string, image: string, generation: int, dryRun: bool)

  /**
   * The replies. Each logged request is answered by its field applied to the
   * log that ends with it. Two lookups are not logged: the image an instance
   * was launched from (AmiAsg) and the description getRegion reads an
   * instance's zone from; both are fixed properties of the instance.
   * `idPointer` is how `%v` prints the `*string` id of the first running
   * instance in the description the log ends with: a memory address the
   * process picks, not the id.
   */
  datatype Env = Env(
    describeAutoScalingGroups: seq<Call> -> Result<seq<Group>>,
    describeAutoScalingInstances: seq<Call> -> Result<seq<InstanceDetails>>,
    describeLaunchTemplateVersions: seq<Call> -> Result<seq<LaunchTemplateVersion>>,
    describeImages: seq<Call> -> Result<Option<seq<Apis.Image>>>,
    deregisterImage: seq<Call> -> Result<Output>,
    describeSnapshots: seq<Call> -> Result<Option<seq<Apis.Snapshot>>>,
    describeVolumes: seq<Call> -> Result<Option<seq<Volume>>>,
    deleteSnapshot: seq<Call> -> Result<Output>,
    stopInstances: seq<Call> -> Result<Output>,
    describeInstances: seq<Call> -> Result<seq<Reservation>>,
    listContainerInstances: seq<Call> -> Result<seq<Option<string>>>,
    describeContainerInstances: seq<Call> -> Result<seq<ContainerInstance>>,
    updateContainerInstancesState: seq<Call> -> Result<Output>,
    infoAsg: seq<Call> -> Result<Group>,
    newestAmi: seq<Call> -> Result<string>,
    getEcsInstance: seq<Call> -> Result<seq<AsgInstance>>,
    getUnusedInstance: seq<Call> -> Result<seq<string>>,
    getFreeInstance: seq<Call> -> Result<seq<AsgInstance>>,
    optimizeClusterSize: seq<Call> -> Option<Error>,
    swapInstance: seq<Call> -> SwapReply,
    stopUnusedInstance: seq<Call> -> Result<Output>,
    deregisterAmi: seq<Call> -> Result<Output>,
    amiAsg: string -> Result<string>,
    placement: string -> Result<seq<Reservation>>,
    idPointer: seq<Call> -> string)

  /** A result together with the log of the requests sent to obtain it. */
  datatype Sent<T> = Sent(out: T, log: seq<Call>)

  /** The service clients of one Replacement, with the log of what they were asked. */
  class Aws {
    const env: Env
    var calls: seq<Call>

    constructor (env: Env)
      ensures this.env == env && calls == []
    {
      this.env := env;
      calls := [];
    }

    /** Sends one request; its reply is then the matching field of `env` applied to `calls`. */
    method Send(c: Call)
      modifies this
      ensures calls == old(calls) + [c]
    {
      calls := calls + [c];
    }
  }
}
