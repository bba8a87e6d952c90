/**
 * actions/ecs.go: the container-service views of a cluster, and the
 * snapshot record that setClusterStatus builds from the helpers it calls.
 * getEcsInstanceArn and EcsInstanceStatus are defined twice in the package
 * (actions/ecs.go:62-90 and actions/asg.go:134-162, identically); they are
 * modelled once, here.
 */
module Ecs {
  import opened Wrappers
  import opened Records
  import opened Sdk
  import opened Replacer

  /** aws.StringValue over a list: a missing string reads as "". */
  function StringValues(ps: seq<Option<string>>): (out: seq<string>)
    ensures |out| == |ps|
    ensures forall i :: 0 <= i < |ps| ==> out[i] == (if ps[i].Some? then ps[i].value else "")
  {
    seq(|ps|, i requires 0 <= i < |ps| => if ps[i].Some? then ps[i].value else "")
  }

  /** The arns getEcsInstanceArn reports for a ListContainerInstances reply: the error as it is, or every listed arn in order. */
  function Arns(reply: Result<seq<Option<string>>>): (r: Result<seq<string>>)
    ensures reply.Err? <==> r.Err?
    ensures reply.Err? ==> r.error == reply.error
    ensures reply.Ok? ==> r.value == StringValues(reply.value)
  {
    match reply
    case Err(e) => Err(e)
    case Ok(ps) => Ok(StringValues(ps))
  }

  /** getEcsInstanceArn: one listing request, then the appending loop over the listed arns. */
  method GetEcsInstanceArn(r: Replacement, cluster: string) returns (res: Result<seq<string>>)
    modifies r.aws
    ensures r.aws.calls == old(r.aws.calls) + [ListContainerInstances(cluster)]
    ensures res == Arns(r.aws.env.listContainerInstances(r.aws.calls))
  {
    r.aws.Send(ListContainerInstances(cluster));
    var output := r.aws.env.listContainerInstances(r.aws.calls);
    if output.Err? {
      return Err(output.error);
    }
    var ps := output.value;
    var instanceArns: seq<string> := [];
    var i := 0;
    while i < |ps|
      invariant 0 <= i <= |ps|
      invariant |instanceArns| == i
      invariant forall k :: 0 <= k < i ==> instanceArns[k] == (if ps[k].Some? then ps[k].value else "")
    {
      instanceArns := instanceArns + [if ps[i].Some? then ps[i].value else ""];
      i := i + 1;
    }
    assert instanceArns == StringValues(ps);
    return Ok(instanceArns);
  }

  /** EcsInstanceStatus: describes the given container instances of the cluster; errors pass through. */
  method EcsInstanceStatus(r: Replacement, cluster: string, arns: seq<string>) returns (res: Result<seq<ContainerInstance>>)
    modifies r.aws
    ensures r.aws.calls == old(r.aws.calls) + [DescribeContainerInstances(cluster, arns)]
    ensures res == r.aws.env.describeContainerInstances(r.aws.calls)
  {
    r.aws.Send(DescribeContainerInstances(cluster, arns));
    res := r.aws.env.describeContainerInstances(r.aws.calls);
  }

  /**
   * getClusterStatus (and the same two steps at the start of the older
   * ReplaceInstance): list the arns, describe them, and flatten either
   * error behind its own prefix.
   */
  function ContainerStatus(env: Env, log: seq<Call>, cluster: string): Sent<Result<seq<ContainerInstance>>>
  {
    var l1 := log + [ListContainerInstances(cluster)];
    match Arns(env.listContainerInstances(l1))
    case Err(e) => Sent(Err(Flatten("cannnot get instance arn: ", e)), l1)
    case Ok(arns) =>
      var l2 := l1 + [DescribeContainerInstances(cluster, arns)];
      match env.describeContainerInstances(l2)
      case Err(e) => Sent(Err(Flatten("cannnot get ecs status : ", e)), l2)
      case Ok(sts) => Sent(Ok(sts), l2)
  }

  /**
   * The status request describes exactly the arns the listing returned, and
   * a failure of either request fails the whole with its text kept.
   */
  lemma ContainerStatusShape(env: Env, log: seq<Call>, cluster: string)
    ensures var st := ContainerStatus(env, log, cluster);
      var l1 := log + [ListContainerInstances(cluster)];
      var listed := env.listContainerInstances(l1);
      (listed.Err? ==>
         st.log == l1 && st.out.Err? &&
         st.out.error.Text() == "cannnot get instance arn: " + listed.error.Text()) &&
      (listed.Ok? ==>
         var l2 := l1 + [DescribeContainerInstances(cluster, StringValues(listed.value))];
         st.log == l2 &&
         (env.describeContainerInstances(l2).Ok? ==> st.out == env.describeContainerInstances(l2)) &&
         (env.describeContainerInstances(l2).Err? ==>
            st.out.Err? && st.out.error.Text() == "cannnot get ecs status : " + env.describeContainerInstances(l2).error.Text()))
  {
  }

  /** Either error of a status comes flattened behind its prefix. */
  lemma ContainerStatusErrors(env: Env, log: seq<Call>, cluster: string)
    ensures ContainerStatus(env, log, cluster).out.Err? ==>
      exists e :: ContainerStatus(env, log, cluster).out.error == Flatten("cannnot get instance arn: ", e) ||
                  ContainerStatus(env, log, cluster).out.error == Flatten("cannnot get ecs status : ", e)
  {
  }

  method GetClusterStatus(r: Replacement, cluster: string) returns (res: Result<seq<ContainerInstance>>)
    modifies r.aws
    ensures Sent(res, r.aws.calls) == ContainerStatus(r.aws.env, old(r.aws.calls), cluster)
  {
    var arns := GetEcsInstanceArn(r, cluster);
    if arns.Err? {
      return Err(Flatten("cannnot get instance arn: ", arns.error));
    }
    var status := EcsInstanceStatus(r, cluster, arns.value);
    if status.Err? {
      return Err(Flatten("cannnot get ecs status : ", status.error));
    }
    return status;
  }

  /** The request drainInstance sends. */
  function DrainRequest(inst: AsgInstance): Call
  {
    UpdateContainerInstancesState(inst.cluster, [inst.instanceArn], "DRAINING")
  }

  /** drainInstance: sets that one instance, in its own cluster, to DRAINING; the error passes through. */
  method DrainInstance(r: Replacement, inst: AsgInstance) returns (res: Result<Output>)
    modifies r.aws
    ensures r.aws.calls == old(r.aws.calls) + [UpdateContainerInstancesState(inst.cluster, [inst.instanceArn], "DRAINING")]
    ensures res == r.aws.env.updateContainerInstancesState(r.aws.calls)
  {
    r.aws.Send(DrainRequest(inst));
    res := r.aws.env.updateContainerInstancesState(r.aws.calls);
  }

  /**
   * setClusterStatus: the group's size, then the three lists built for the
   * cluster and the newest image; the first failure is returned unchanged.
   */
  function ClusterStatus(env: Env, log: seq<Call>, asg: string, cluster: string, newest: string): Sent<Result<Cluster>>
  {
    var l1 := log + [InfoAsg(asg)];
    match env.infoAsg(l1)
    case Err(e) => Sent(Err(e), l1)
    case Ok(g) =>
      var size := |g.instances|;
      var l2 := l1 + [GetEcsInstance(cluster, asg, newest, size)];
      match env.getEcsInstance(l2)
      case Err(e) => Sent(Err(e), l2)
      case Ok(ecsInstance) =>
        var l3 := l2 + [GetUnusedInstance(cluster, newest)];
        match env.getUnusedInstance(l3)
        case Err(e) => Sent(Err(e), l3)
        case Ok(unused) =>
          var l4 := l3 + [GetFreeInstance(cluster, asg, newest, size)];
          match env.getFreeInstance(l4)
          case Err(e) => Sent(Err(e), l4)
          case Ok(free) => Sent(Ok(Cluster(cluster, ecsInstance, unused, free, size)), l4)
  }

  /** The four requests of a full status: the group, then the three lists, each for this cluster, group, image and size. */
  function StatusCalls(asg: string, cluster: string, newest: string, size: int): seq<Call>
  {
    [InfoAsg(asg), GetEcsInstance(cluster, asg, newest, size), GetUnusedInstance(cluster, newest),
     GetFreeInstance(cluster, asg, newest, size)]
  }

  /**
   * A snapshot exists iff the group lookup and all three list builders
   * succeed; it then holds exactly the given cluster name, the three lists
   * as returned and the number of instances in the group. Otherwise the
   * first error is returned and the requests stop there.
   */
  lemma ClusterStatusSnapshot(env: Env, log: seq<Call>, asg: string, cluster: string, newest: string)
    ensures var st := ClusterStatus(env, log, asg, cluster, newest);
      var g := env.infoAsg(log + [InfoAsg(asg)]);
      (g.Err? ==> st == Sent(Err(g.error), log + [InfoAsg(asg)])) &&
      (g.Ok? ==>
         var calls := StatusCalls(asg, cluster, newest, |g.value.instances|);
         var e := env.getEcsInstance(log + calls[..2]);
         var u := env.getUnusedInstance(log + calls[..3]);
         var f := env.getFreeInstance(log + calls);
         (st.out.Ok? <==> e.Ok? && u.Ok? && f.Ok?) &&
         (st.out.Ok? ==>
            st.log == log + calls && st.out.value == Cluster(cluster, e.value, u.value, f.value, |g.value.instances|)) &&
         (e.Err? ==> st == Sent(Err(e.error), log + calls[..2])) &&
         (e.Ok? && u.Err? ==> st == Sent(Err(u.error), log + calls[..3])) &&
         (e.Ok? && u.Ok? && f.Err? ==> st == Sent(Err(f.error), log + calls)))
  {
    var l1 := log + [InfoAsg(asg)];
    if env.infoAsg(l1).Ok? {
      var calls := StatusCalls(asg, cluster, newest, |env.infoAsg(l1).value.instances|);
      assert log + calls[..2] == l1 + [calls[1]];
      assert log + calls[..3] == l1 + [calls[1]] + [calls[2]];
      assert log + calls == l1 + [calls[1]] + [calls[2]] + [calls[3]];
    }
  }

  /** A status adds no request other than the four of StatusCalls, all naming this group, cluster and image. */
  lemma ClusterStatusCalls(env: Env, log: seq<Call>, asg: string, cluster: string, newest: string)
    ensures var st := ClusterStatus(env, log, asg, cluster, newest);
      |log| < |st.log| <= |log| + 4 && st.log[..|log|] == log &&
      forall k :: |log| <= k < |st.log| ==>
        st.log[k] == InfoAsg(asg) ||
        (st.log[k].GetEcsInstance? && st.log[k].cluster == cluster && st.log[k].asgName == asg && st.log[k].newest == newest) ||
        st.log[k] == GetUnusedInstance(cluster, newest) ||
        (st.log[k].GetFreeInstance? && st.log[k].cluster == cluster && st.log[k].asgName == asg && st.log[k].newest == newest)
  {
  }

  method SetClusterStatus(r: Replacement, asg: string, cluster: string, newest: string) returns (res: Result<Cluster>)
    modifies r.aws
    ensures Sent(res, r.aws.calls) == ClusterStatus(r.aws.env, old(r.aws.calls), asg, cluster, newest)
  {
    r.aws.Send(InfoAsg(asg));
    var g := r.aws.env.infoAsg(r.aws.calls);
    if g.Err? {
      return Err(g.error);
    }
    var size := |g.value.instances|;
    r.aws.Send(GetEcsInstance(cluster, asg, newest, size));
    var ecsInstance := r.aws.env.getEcsInstance(r.aws.calls);
    if ecsInstance.Err? {
      return Err(ecsInstance.error);
    }
    r.aws.Send(GetUnusedInstance(cluster, newest));
    var unused := r.aws.env.getUnusedInstance(r.aws.calls);
    if unused.Err? {
      return Err(unused.error);
    }
    r.aws.Send(GetFreeInstance(cluster, asg, newest, size));
    var free := r.aws.env.getFreeInstance(r.aws.calls);
    if free.Err? {
      return Err(free.error);
    }
    return Ok(Cluster(cluster, ecsInstance.value, unused.value, free.value, size));
  }
}
