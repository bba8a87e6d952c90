/**
 * actions/asg.go, the older iteration of the actions package: its
 * ReplaceInstance classifies the cluster's container instances itself,
 * stops the obsolete idle ones under the state machine and then swaps busy
 * obsolete instances zone by zone.
 */
module AsgIteration {
  import opened Wrappers
  import opened Records
  import opened Sdk
  import opened Fsm
  import opened Replacer
  import opened Backoff
  import Ecs

  /** Ids: the instance ids of a group, in order. */
  method Ids(g: Group) returns (ids: seq<string>)
    ensures |ids| == |g.instances|
    ensures forall i :: 0 <= i < |ids| ==> ids[i] == g.instances[i].instanceId
  {
    ids := [];
    var i := 0;
    while i < |g.instances|
      invariant 0 <= i <= |g.instances|
      invariant |ids| == i
      invariant forall k :: 0 <= k < i ==> ids[k] == g.instances[k].instanceId
    {
      ids := ids + [g.instances[i].instanceId];
      i := i + 1;
    }
  }

  /**
   * getRegion: the zone of the first instance of the first reservation in the
   * description of one instance. The Go code does not look at the error and
   * indexes unchecked, so any reply without such an instance is a panic (None).
   */
  function Region(reply: Result<seq<Reservation>>): (r: Option<string>)
    ensures r.Some? <==> reply.Ok? && |reply.value| > 0 && |reply.value[0]| > 0
    ensures r.Some? ==> r.value == reply.value[0][0].availabilityZone
  {
    if reply.Ok? && |reply.value| > 0 && |reply.value[0]| > 0 then Some(reply.value[0][0].availabilityZone) else None
  }

  /** The three lists the classification loop appends to. */
  datatype Lists = Lists(ecsInstance: seq<AsgInstance>, unusedInstances: seq<string>, freeInstances: seq<string>)

  /** No running and no pending task. */
  predicate Idle(st: ContainerInstance)
  {
    st.runningTasksCount == 0 && st.pendingTasksCount == 0
  }

  /** One pass of the loop at actions/asg.go:52-97 over one container instance. */
  function Place(env: Env, acc: Lists, st: ContainerInstance, newest: string, cluster: string): Outcome<Lists>
  {
    var id := st.ec2InstanceId;
    if Idle(st) then
      match env.amiAsg(id)
      case Err(e) => Failed(Flatten("cannnot get ami id: ", e))
      case Ok(image) =>
        if image != newest then
          Done(acc.(unusedInstances := acc.unusedInstances + [id]))
        else
          match Region(env.placement(id))
          case None => Aborted(IndexOutOfRange)
          case Some(az) =>
            Done(acc.(freeInstances := acc.freeInstances + [id],
                      ecsInstance := acc.ecsInstance + [NewAsgInstance(id, st.containerInstanceArn, newest, cluster, 0, 0, az)]))
    else if st.runningTasksCount == 1 then
      match Region(env.placement(id))
      case None => Aborted(IndexOutOfRange)
      case Some(az) =>
        match env.amiAsg(id)
        case Err(e) => Failed(Flatten("cannnot get ami id: ", e))
        case Ok(image) =>
          Done(acc.(ecsInstance := acc.ecsInstance + [NewAsgInstance(id, st.containerInstanceArn, image, cluster, 1, 0, az)]))
    else
      Done(acc)
  }

  /** The whole loop: instances in order, stopping at the first failure. */
  function Classify(env: Env, sts: seq<ContainerInstance>, newest: string, cluster: string): Outcome<Lists>
    decreases |sts|
  {
    if |sts| == 0 then Done(Lists([], [], []))
    else
      match Classify(env, sts[..|sts| - 1], newest, cluster)
      case Done(acc) => Place(env, acc, sts[|sts| - 1], newest, cluster)
      case Failed(e) => Failed(e)
      case Aborted(m) => Aborted(m)
  }

  /** The lookups the loop needs for one instance all succeed. */
  predicate LookupsSucceed(env: Env, st: ContainerInstance, newest: string)
  {
    var id := st.ec2InstanceId;
    if Idle(st) then
      env.amiAsg(id).Ok? && (env.amiAsg(id).value == newest ==> Region(env.placement(id)).Some?)
    else
      st.runningTasksCount == 1 ==> env.amiAsg(id).Ok? && Region(env.placement(id)).Some?
  }

  /** The record the loop keeps for an instance that goes into ecsInstance. */
  function Record(env: Env, st: ContainerInstance, newest: string, cluster: string): AsgInstance
  {
    var id := st.ec2InstanceId;
    var az := Region(env.placement(id));
    var image := if Idle(st) then newest else if env.amiAsg(id).Ok? then env.amiAsg(id).value else "";
    NewAsgInstance(id, st.containerInstanceArn, image, cluster, if Idle(st) then 0 else 1, 0, if az.Some? then az.value else "")
  }

  predicate DistinctIds(sts: seq<ContainerInstance>)
  {
    forall i, j :: 0 <= i < j < |sts| ==> sts[i].ec2InstanceId != sts[j].ec2InstanceId
  }

  /** Some instance of the list has this id. */
  predicate Listed(sts: seq<ContainerInstance>, id: string)
  {
    exists k :: 0 <= k < |sts| && sts[k].ec2InstanceId == id
  }

  /** Some record of the list has this id. */
  predicate HasRecord(recs: seq<AsgInstance>, id: string)
  {
    exists j :: 0 <= j < |recs| && recs[j].instanceId == id
  }

  /** Once a prefix has failed, the rest of the instances are not looked at. */
  lemma {:induction false} ClassifyStops(env: Env, sts: seq<ContainerInstance>, i: nat, newest: string, cluster: string)
    requires i <= |sts|
    requires !Classify(env, sts[..i], newest, cluster).Done?
    ensures Classify(env, sts, newest, cluster) == Classify(env, sts[..i], newest, cluster)
    decreases |sts|
  {
    if i < |sts| {
      var pre := sts[..|sts| - 1];
      assert pre[..i] == sts[..i];
      ClassifyStops(env, pre, i, newest, cluster);
    } else {
      assert sts[..i] == sts;
    }
  }

  /**
   * A lookup failure is never skipped: the classification succeeds iff every
   * lookup it needs succeeds, and an image-lookup error comes back behind
   * "cannnot get ami id: ".
   */
  lemma {:induction false} ClassifyDoneIff(env: Env, sts: seq<ContainerInstance>, newest: string, cluster: string)
    ensures Classify(env, sts, newest, cluster).Done? <==>
      forall k :: 0 <= k < |sts| ==> LookupsSucceed(env, sts[k], newest)
    ensures Classify(env, sts, newest, cluster).Failed? ==>
      exists k :: 0 <= k < |sts| && env.amiAsg(sts[k].ec2InstanceId).Err? &&
        Classify(env, sts, newest, cluster).error == Flatten("cannnot get ami id: ", env.amiAsg(sts[k].ec2InstanceId).error)
    decreases |sts|
  {
    if |sts| > 0 {
      var pre := sts[..|sts| - 1];
      ClassifyDoneIff(env, pre, newest, cluster);
      assert forall k :: 0 <= k < |pre| ==> pre[k] == sts[k];
      var c := Classify(env, sts, newest, cluster);
      if c.Failed? && !Classify(env, pre, newest, cluster).Done? {
        var k :| 0 <= k < |pre| && env.amiAsg(pre[k].ec2InstanceId).Err? &&
          Classify(env, pre, newest, cluster).error == Flatten("cannnot get ami id: ", env.amiAsg(pre[k].ec2InstanceId).error);
        assert sts[k] == pre[k];
      }
    }
  }

  /** Every id in the three lists belongs to one of the classified instances. */
  lemma {:induction false} ClassifyOnlyListed(env: Env, sts: seq<ContainerInstance>, newest: string, cluster: string)
    requires Classify(env, sts, newest, cluster).Done?
    ensures var c := Classify(env, sts, newest, cluster).value;
      (forall x :: x in c.unusedInstances ==> Listed(sts, x)) &&
      (forall x :: x in c.freeInstances ==> Listed(sts, x)) &&
      (forall j :: 0 <= j < |c.ecsInstance| ==> Listed(sts, c.ecsInstance[j].instanceId))
    decreases |sts|
  {
    if |sts| > 0 {
      var pre := sts[..|sts| - 1];
      ClassifyOnlyListed(env, pre, newest, cluster);
      assert forall x :: Listed(pre, x) ==> Listed(sts, x) by {
        forall x | Listed(pre, x) ensures Listed(sts, x) {
          var k :| 0 <= k < |pre| && pre[k].ec2InstanceId == x;
          assert sts[k] == pre[k];
        }
      }
      assert Listed(sts, sts[|sts| - 1].ec2InstanceId);
    }
  }

  /**
   * Unlike what one might expect of three lists, they are not disjoint: every
   * free instance is also in ecsInstance.
   */
  lemma {:induction false} FreeAlsoInEcs(env: Env, sts: seq<ContainerInstance>, newest: string, cluster: string)
    requires Classify(env, sts, newest, cluster).Done?
    ensures var c := Classify(env, sts, newest, cluster).value;
      forall x :: x in c.freeInstances ==> HasRecord(c.ecsInstance, x)
    decreases |sts|
  {
    if |sts| > 0 {
      var pre := sts[..|sts| - 1];
      FreeAlsoInEcs(env, pre, newest, cluster);
      var acc := Classify(env, pre, newest, cluster).value;
      var c := Classify(env, sts, newest, cluster).value;
      forall x | x in c.freeInstances ensures HasRecord(c.ecsInstance, x) {
        if x in acc.freeInstances {
          var j :| 0 <= j < |acc.ecsInstance| && acc.ecsInstance[j].instanceId == x;
          assert c.ecsInstance[j] == acc.ecsInstance[j];
        } else {
          assert c.ecsInstance[|c.ecsInstance| - 1].instanceId == x;
        }
      }
    }
  }

  /** What one pass adds to each list. */
  lemma PlaceAdds(env: Env, acc: Lists, st: ContainerInstance, newest: string, cluster: string)
    requires Place(env, acc, st, newest, cluster).Done?
    ensures var c := Place(env, acc, st, newest, cluster).value;
      var id := st.ec2InstanceId;
      var onNewest := Idle(st) && env.amiAsg(id) == Ok(newest);
      c.unusedInstances == acc.unusedInstances + (if Idle(st) && !onNewest then [id] else []) &&
      c.freeInstances == acc.freeInstances + (if onNewest then [id] else []) &&
      c.ecsInstance == acc.ecsInstance +
        (if onNewest || (!Idle(st) && st.runningTasksCount == 1) then [Record(env, st, newest, cluster)] else [])
  {
  }

  /**
   * Where each instance lands, for instances with distinct ids: an idle one
   * on an obsolete image only in unusedInstances; an idle one on the newest
   * image in freeInstances and, as a 0/0 record with the newest image, in
   * ecsInstance; one with exactly one running task in ecsInstance with its
   * own image, obsolete or not; any other in no list.
   */
  lemma {:induction false} ClassifyPlaces(env: Env, sts: seq<ContainerInstance>, newest: string, cluster: string, k: nat)
    requires Classify(env, sts, newest, cluster).Done?
    requires DistinctIds(sts)
    requires k < |sts|
    ensures var c := Classify(env, sts, newest, cluster).value;
      var st := sts[k];
      var id := st.ec2InstanceId;
      (id in c.unusedInstances <==> Idle(st) && env.amiAsg(id) != Ok(newest)) &&
      (id in c.freeInstances <==> Idle(st) && env.amiAsg(id) == Ok(newest)) &&
      (HasRecord(c.ecsInstance, id) <==>
         (Idle(st) && env.amiAsg(id) == Ok(newest)) || (!Idle(st) && st.runningTasksCount == 1)) &&
      (forall j :: 0 <= j < |c.ecsInstance| && c.ecsInstance[j].instanceId == id ==>
         c.ecsInstance[j] == Record(env, st, newest, cluster))
    decreases |sts|
  {
    var n := |sts|;
    var pre := sts[..n - 1];
    var last := sts[n - 1];
    assert forall i :: 0 <= i < |pre| ==> pre[i] == sts[i];
    assert DistinctIds(pre);
    var acc := Classify(env, pre, newest, cluster).value;
    var c := Classify(env, sts, newest, cluster).value;
    var id := sts[k].ec2InstanceId;
    PlaceAdds(env, acc, last, newest, cluster);
    if k < n - 1 {
      ClassifyPlaces(env, pre, newest, cluster, k);
      assert pre[k] == sts[k];
      PlaceOther(env, acc, last, newest, cluster, id);
    } else {
      ClassifyOnlyListed(env, pre, newest, cluster);
      assert forall i :: 0 <= i < |pre| ==> pre[i].ec2InstanceId != id;
      assert !Listed(pre, id);
      assert id !in acc.unusedInstances && id !in acc.freeInstances;
      assert forall j :: 0 <= j < |acc.ecsInstance| ==> acc.ecsInstance[j].instanceId != id;
      assert c == Place(env, acc, last, newest, cluster).value;
      PlaceNew(env, acc, last, newest, cluster);
    }
  }

  /** One pass over an instance leaves where any other id is listed as it was. */
  lemma PlaceOther(env: Env, acc: Lists, st: ContainerInstance, newest: string, cluster: string, id: string)
    requires Place(env, acc, st, newest, cluster).Done?
    requires st.ec2InstanceId != id
    ensures var c := Place(env, acc, st, newest, cluster).value;
      (id in c.unusedInstances <==> id in acc.unusedInstances) &&
      (id in c.freeInstances <==> id in acc.freeInstances) &&
      (HasRecord(c.ecsInstance, id) <==> HasRecord(acc.ecsInstance, id)) &&
      (forall j :: 0 <= j < |c.ecsInstance| && c.ecsInstance[j].instanceId == id ==>
         j < |acc.ecsInstance| && c.ecsInstance[j] == acc.ecsInstance[j])
  {
    PlaceAdds(env, acc, st, newest, cluster);
    var c := Place(env, acc, st, newest, cluster).value;
    var n := |acc.ecsInstance|;
    assert forall j :: 0 <= j < n ==> c.ecsInstance[j] == acc.ecsInstance[j];
    if HasRecord(c.ecsInstance, id) {
      var j :| 0 <= j < |c.ecsInstance| && c.ecsInstance[j].instanceId == id;
      assert j < n;
    }
  }

  /** One pass over an instance whose id is in no list yet puts it exactly where ClassifyPlaces says. */
  lemma PlaceNew(env: Env, acc: Lists, st: ContainerInstance, newest: string, cluster: string)
    requires Place(env, acc, st, newest, cluster).Done?
    requires st.ec2InstanceId !in acc.unusedInstances && st.ec2InstanceId !in acc.freeInstances
    requires forall j :: 0 <= j < |acc.ecsInstance| ==> acc.ecsInstance[j].instanceId != st.ec2InstanceId
    ensures var c := Place(env, acc, st, newest, cluster).value;
      var id := st.ec2InstanceId;
      (id in c.unusedInstances <==> Idle(st) && env.amiAsg(id) != Ok(newest)) &&
      (id in c.freeInstances <==> Idle(st) && env.amiAsg(id) == Ok(newest)) &&
      (HasRecord(c.ecsInstance, id) <==>
         (Idle(st) && env.amiAsg(id) == Ok(newest)) || (!Idle(st) && st.runningTasksCount == 1)) &&
      (forall j :: 0 <= j < |c.ecsInstance| && c.ecsInstance[j].instanceId == id ==>
         c.ecsInstance[j] == Record(env, st, newest, cluster))
  {
    PlaceAdds(env, acc, st, newest, cluster);
    var c := Place(env, acc, st, newest, cluster).value;
    var n := |acc.ecsInstance|;
    assert forall j :: 0 <= j < n ==> c.ecsInstance[j] == acc.ecsInstance[j];
    if |c.ecsInstance| > n {
      assert c.ecsInstance[n] == Record(env, st, newest, cluster);
    }
  }

  /** The classification loop itself, appending to the three lists. */
  method ClassifyInstances(r: Replacement, sts: seq<ContainerInstance>, newest: string, cluster: string)
    returns (res: Outcome<Lists>)
    ensures res == Classify(r.aws.env, sts, newest, cluster)
  {
    var ecsInstance: seq<AsgInstance> := [];
    var unusedInstances: seq<string> := [];
    var freeInstances: seq<string> := [];
    var i := 0;
    while i < |sts|
      invariant 0 <= i <= |sts|
      invariant Classify(r.aws.env, sts[..i], newest, cluster) == Done(Lists(ecsInstance, unusedInstances, freeInstances))
    {
      var st := sts[i];
      var id := st.ec2InstanceId;
      assert sts[..i + 1][..i] == sts[..i];
      res := Failed(Flatten("cannnot get ami id: ", Message("")));
      if st.runningTasksCount == 0 && st.pendingTasksCount == 0 {
        var image := r.aws.env.amiAsg(id);
        if image.Err? {
          res := Failed(Flatten("cannnot get ami id: ", image.error));
          ClassifyStops(r.aws.env, sts, i + 1, newest, cluster);
          return;
        }
        if image.value != newest {
          unusedInstances := unusedInstances + [id];
        } else {
          var region := Region(r.aws.env.placement(id));
          if region.None? {
            res := Aborted(IndexOutOfRange);
            ClassifyStops(r.aws.env, sts, i + 1, newest, cluster);
            return;
          }
          freeInstances := freeInstances + [id];
          ecsInstance := ecsInstance + [NewAsgInstance(id, st.containerInstanceArn, newest, cluster, 0, 0, region.value)];
        }
      } else if st.runningTasksCount == 1 {
        var region := Region(r.aws.env.placement(id));
        if region.None? {
          res := Aborted(IndexOutOfRange);
          ClassifyStops(r.aws.env, sts, i + 1, newest, cluster);
          return;
        }
        var image := r.aws.env.amiAsg(id);
        if image.Err? {
          res := Failed(Flatten("cannnot get ami id: ", image.error));
          ClassifyStops(r.aws.env, sts, i + 1, newest, cluster);
          return;
        }
        ecsInstance := ecsInstance + [NewAsgInstance(id, st.containerInstanceArn, image.value, cluster, 1, 0, region.value)];
      }
      i := i + 1;
    }
    assert sts[..i] == sts;
    res := Done(Lists(ecsInstance, unusedInstances, freeInstances));
  }

  /** The state code of a stopped EC2 instance. */
  const StoppedCode := 80

  /** The first instance of a reservation that is not stopped. */
  function FirstRunningIn(insts: seq<Ec2Instance>): (r: Option<string>)
    ensures r.None? <==> forall j :: 0 <= j < |insts| ==> insts[j].stateCode == StoppedCode
    ensures r.Some? ==> exists j :: 0 <= j < |insts| && insts[j].stateCode != StoppedCode && insts[j].instanceId == r.value
    decreases |insts|
  {
    if |insts| == 0 then None
    else if insts[0].stateCode != StoppedCode then Some(insts[0].instanceId)
    else
      var r := FirstRunningIn(insts[1..]);
      assert forall j :: 1 <= j < |insts| ==> insts[j] == insts[1..][j - 1];
      r
  }

  /** The first instance, over all reservations in order, that is not stopped. */
  function FirstRunning(rs: seq<Reservation>): (r: Option<string>)
    ensures r.None? <==> forall i, j :: 0 <= i < |rs| && 0 <= j < |rs[i]| ==> rs[i][j].stateCode == StoppedCode
    ensures r.Some? ==>
      exists i, j :: 0 <= i < |rs| && 0 <= j < |rs[i]| && rs[i][j].stateCode != StoppedCode && rs[i][j].instanceId == r.value
    decreases |rs|
  {
    if |rs| == 0 then None
    else
      match FirstRunningIn(rs[0])
      case Some(id) => Some(id)
      case None =>
        var r := FirstRunning(rs[1..]);
        assert forall i :: 1 <= i < |rs| ==> rs[i] == rs[1..][i - 1];
        r
  }

  /**
   * The describe closure of replaceUnusedInstance: fails with the request's
   * error or while some described instance is not yet stopped. The message
   * prints the running instance's id pointer, so it carries an address
   * (`idPointer`) rather than the id.
   */
  function StoppedProbe(env: Env): seq<Call> -> Option<Error>
  {
    (l: seq<Call>) =>
      match env.describeInstances(l)
      case Err(e) => Some(e)
      case Ok(rs) =>
        match FirstRunning(rs)
        case None => None
        case Some(_) => Some(Message("still running instance: " + env.idPointer(l)))
  }

  /** The counter closure: fails until the group is back to `num` instances. */
  function CountProbe(env: Env, num: int): seq<Call> -> Option<Error>
  {
    (l: seq<Call>) =>
      match env.infoAsg(l)
      case Err(e) => Some(Flatten("cannnot get Asg Info: ", e))
      case Ok(g) => if |g.instances| != num then Some(Message("still pending instance")) else None
  }

  /**
   * replaceUnusedInstance: fire "start", take the group's size, stop the
   * instances, retry until they are all stopped, retry until the group is
   * back to its size, fire "finish".
   */
  function StopUnused(env: Env, log: seq<Call>, s: State, asg: string, ids: seq<string>, dryrun: bool): Run<Result<Output>>
  {
    match Transition(s, StartEvent)
    case Err(e) => Run(Err(Flatten("failed to set state ", e)), log, s)
    case Ok(s1) =>
      var l1 := log + [InfoAsg(asg)];
      match env.infoAsg(l1)
      case Err(e) => Run(Err(Flatten("cannnot get Asg Info: ", e)), l1, s1)
      case Ok(g) =>
        var num := |g.instances|;
        var l2 := l1 + [StopInstances(ids, dryrun)];
        match env.stopInstances(l2)
        case Err(e) => Run(Err(e), l2, s1)
        case Ok(result) =>
          var p1 := Poll(l2, DescribeInstances(ids), StoppedProbe(env), MaxRetries);
          if p1.err.Some? then Run(Err(p1.err.value), p1.log, s1)
          else
            var p2 := Poll(p1.log, InfoAsg(asg), CountProbe(env, num), MaxRetries);
            if p2.err.Some? then Run(Err(p2.err.value), p2.log, s1)
            else
              match Transition(s1, FinishEvent)
              case Err(e) => Run(Err(Flatten("failed to set state ", e)), p2.log, s1)
              case Ok(s2) => Run(Ok(result), p2.log, s2)
  }

  /**
   * The state machine brackets the stop: from "running" the start is refused
   * and nothing is sent; from "closed" the run succeeds iff it ends "closed"
   * again, and every failure after the start leaves it "running".
   */
  lemma StopUnusedBrackets(env: Env, log: seq<Call>, s: State, asg: string, ids: seq<string>, dryrun: bool)
    ensures var run := StopUnused(env, log, s, asg, ids, dryrun);
      (s == Running ==>
         run.log == log && run.state == Running &&
         run.out == Err(Flatten("failed to set state ", Transition(Running, StartEvent).error))) &&
      (s == Closed ==> (run.out.Ok? <==> run.state == Closed) && (run.out.Err? ==> run.state == Running))
  {
  }

  /** A description that lists only stopped instances. */
  predicate AllStopped(reply: Result<seq<Reservation>>)
  {
    reply.Ok? &&
    forall i, j :: 0 <= i < |reply.value| && 0 <= j < |reply.value[i]| ==> reply.value[i][j].stateCode == StoppedCode
  }

  /**
   * A successful stop sent, after the group lookup and the stop request,
   * one to five descriptions of the instances, the last of which saw them
   * all stopped, and one to five group lookups, the last of which saw the
   * size taken before the stop.
   */
  lemma {:induction false} StopUnusedSucceeded(env: Env, log: seq<Call>, s: State, asg: string, ids: seq<string>, dryrun: bool)
    requires StopUnused(env, log, s, asg, ids, dryrun).out.Ok?
    ensures var run := StopUnused(env, log, s, asg, ids, dryrun);
      var l2 := log + [InfoAsg(asg), StopInstances(ids, dryrun)];
      var num := |env.infoAsg(log + [InfoAsg(asg)]).value.instances|;
      exists k1, k2 :: 1 <= k1 <= MaxRetries + 1 && 1 <= k2 <= MaxRetries + 1 &&
        run.log == l2 + Repeat(DescribeInstances(ids), k1) + Repeat(InfoAsg(asg), k2) &&
        AllStopped(env.describeInstances(l2 + Repeat(DescribeInstances(ids), k1))) &&
        env.infoAsg(run.log).Ok? && |env.infoAsg(run.log).value.instances| == num
  {
    var l1 := log + [InfoAsg(asg)];
    var l2 := l1 + [StopInstances(ids, dryrun)];
    assert l2 == log + [InfoAsg(asg), StopInstances(ids, dryrun)];
    var num := |env.infoAsg(l1).value.instances|;
    PollTries(l2, DescribeInstances(ids), StoppedProbe(env), MaxRetries);
    var p1 := Poll(l2, DescribeInstances(ids), StoppedProbe(env), MaxRetries);
    PollTries(p1.log, InfoAsg(asg), CountProbe(env, num), MaxRetries);
    var p2 := Poll(p1.log, InfoAsg(asg), CountProbe(env, num), MaxRetries);
    var k1 := Tries(l2, p1);
    var k2 := Tries(p1.log, p2);
    assert StoppedProbe(env)(p1.log).None?;
    assert CountProbe(env, num)(p2.log).None?;
  }

  /** A successful stop sent its stop request second, after the group lookup. */
  lemma StopUnusedStops(env: Env, log: seq<Call>, s: State, asg: string, ids: seq<string>, dryrun: bool)
    requires StopUnused(env, log, s, asg, ids, dryrun).out.Ok?
    ensures |log| + 2 <= |StopUnused(env, log, s, asg, ids, dryrun).log|
    ensures StopUnused(env, log, s, asg, ids, dryrun).log[|log| + 1] == StopInstances(ids, dryrun)
  {
    StopUnusedSucceeded(env, log, s, asg, ids, dryrun);
  }

  /** The only requests a stop sends are the group lookup, the stop and the description of those instances. */
  lemma {:induction false} StopUnusedCalls(env: Env, log: seq<Call>, s: State, asg: string, ids: seq<string>, dryrun: bool)
    ensures var run := StopUnused(env, log, s, asg, ids, dryrun);
      |log| <= |run.log| && run.log[..|log|] == log &&
      forall k :: |log| <= k < |run.log| ==>
        run.log[k] == InfoAsg(asg) || run.log[k] == StopInstances(ids, dryrun) || run.log[k] == DescribeInstances(ids)
  {
    var run := StopUnused(env, log, s, asg, ids, dryrun);
    var l1 := log + [InfoAsg(asg)];
    var l2 := l1 + [StopInstances(ids, dryrun)];
    if Transition(s, StartEvent).Ok? && env.infoAsg(l1).Ok? && env.stopInstances(l2).Ok? {
      var num := |env.infoAsg(l1).value.instances|;
      PollTries(l2, DescribeInstances(ids), StoppedProbe(env), MaxRetries);
      var p1 := Poll(l2, DescribeInstances(ids), StoppedProbe(env), MaxRetries);
      PollTries(p1.log, InfoAsg(asg), CountProbe(env, num), MaxRetries);
      var p2 := Poll(p1.log, InfoAsg(asg), CountProbe(env, num), MaxRetries);
      assert run.log == p1.log || run.log == p2.log;
      assert forall k :: |l2| <= k < |p1.log| ==> p1.log[k] == DescribeInstances(ids);
      assert forall k :: |p1.log| <= k < |p2.log| ==> p2.log[k] == InfoAsg(asg);
      assert p2.log[..|p1.log|] == p1.log;
    }
  }

  method ReplaceUnusedInstance(r: Replacement, asg: string, ids: seq<string>, dryrun: bool) returns (res: Result<Output>)
    modifies r.aws, r.deploy
    ensures Run(res, r.aws.calls, r.deploy.current) ==
      StopUnused(r.aws.env, old(r.aws.calls), old(r.deploy.current), asg, ids, dryrun)
  {
    var starterr, _ := r.deploy.Event(StartEvent);
    if starterr.Some? {
      return Err(Flatten("failed to set state ", starterr.value));
    }
    r.aws.Send(InfoAsg(asg));
    var asginfo := r.aws.env.infoAsg(r.aws.calls);
    if asginfo.Err? {
      return Err(Flatten("cannnot get Asg Info: ", asginfo.error));
    }
    var num := |asginfo.value.instances|;
    r.aws.Send(StopInstances(ids, dryrun));
    var result := r.aws.env.stopInstances(r.aws.calls);
    if result.Err? {
      return Err(result.error);
    }
    var retryerr := Retry(r.aws, DescribeInstances(ids), StoppedProbe(r.aws.env));
    if retryerr.Some? {
      return Err(retryerr.value);
    }
    var retryerr2 := Retry(r.aws, InfoAsg(asg), CountProbe(r.aws.env, num));
    if retryerr2.Some? {
      return Err(retryerr2.value);
    }
    // the machine is running here, so "finish" is always accepted
    var _, _ := r.deploy.Event(FinishEvent);
    return Ok(result.value);
  }

  /** An AsgInstance record with no running and no pending task. */
  predicate IdleRecord(inst: AsgInstance)
  {
    inst.runningTasks == 0 && inst.pendingTasks == 0
  }

  /** Busy with one task, on an obsolete image, in zone `az`: what a swap round drains. */
  predicate Drainable(inst: AsgInstance, newest: string, az: string)
  {
    inst.runningTasks == 1 && inst.imageId != newest && inst.availabilityZone == az
  }

  /** The zones of the idle instances, one per idle instance, in order. */
  function TargetZones(instances: seq<AsgInstance>): (zones: seq<string>)
    ensures |zones| <= |instances|
    ensures forall z :: z in zones <==> exists i :: 0 <= i < |instances| && IdleRecord(instances[i]) && instances[i].availabilityZone == z
    decreases |instances|
  {
    if |instances| == 0 then []
    else
      var pre := instances[..|instances| - 1];
      var last := instances[|instances| - 1];
      assert forall i :: 0 <= i < |pre| ==> pre[i] == instances[i];
      TargetZones(pre) + (if IdleRecord(last) then [last.availabilityZone] else [])
  }

  /** The first loop of swapInstance: the target zones and their count. */
  method IdleZones(instances: seq<AsgInstance>) returns (targetAZ: seq<string>, emptyInstanceCount: int)
    ensures targetAZ == TargetZones(instances)
    ensures emptyInstanceCount == |targetAZ|
  {
    targetAZ := [];
    emptyInstanceCount := 0;
    var i := 0;
    while i < |instances|
      invariant 0 <= i <= |instances|
      invariant targetAZ == TargetZones(instances[..i])
      invariant emptyInstanceCount == |targetAZ|
    {
      assert instances[..i + 1][..i] == instances[..i];
      if instances[i].runningTasks == 0 && instances[i].pendingTasks == 0 {
        targetAZ := targetAZ + [instances[i].availabilityZone];
        emptyInstanceCount := emptyInstanceCount + 1;
      }
      i := i + 1;
    }
    assert instances[..i] == instances;
  }

  /** Where a swap stands: its outcome so far, the log, the machine state and the accumulated stop list. */
  datatype Swapped = Swapped(out: Outcome<()>, log: seq<Call>, state: State, stop: seq<string>)

  /** One drained instance: drain it, add it to the stop list, stop the whole list; either failure is fatal. */
  function DrainAndStop(env: Env, log: seq<Call>, s: State, inst: AsgInstance, asg: string, dryrun: bool, stop: seq<string>): Swapped
  {
    var l1 := log + [Ecs.DrainRequest(inst)];
    match env.updateContainerInstancesState(l1)
    case Err(e) => Swapped(Aborted("failed to drain instance: " + e.Text()), l1, s, stop)
    case Ok(_) =>
      var stoptarget := stop + [inst.instanceId];
      var run := StopUnused(env, l1, s, asg, stoptarget, dryrun);
      match run.out
      case Err(e) => Swapped(Aborted("cannnot stop instance: " + e.Text()), run.log, run.state, stoptarget)
      case Ok(_) => Swapped(Done(()), run.log, run.state, stoptarget)
  }

  /** One zone's round over the instances (sequentially; the source runs each instance in a goroutine). */
  function Round(env: Env, log: seq<Call>, s: State, az: string, insts: seq<AsgInstance>, newest: string,
                 asg: string, dryrun: bool, stop: seq<string>): Swapped
    decreases |insts|
  {
    if |insts| == 0 then Swapped(Done(()), log, s, stop)
    else if Drainable(insts[0], newest, az) then
      var d := DrainAndStop(env, log, s, insts[0], asg, dryrun, stop);
      if d.out.Done? then Round(env, d.log, d.state, az, insts[1..], newest, asg, dryrun, d.stop) else d
    else
      Round(env, log, s, az, insts[1..], newest, asg, dryrun, stop)
  }

  /** The rounds, one per target zone, in order. */
  function Rounds(env: Env, log: seq<Call>, s: State, zones: seq<string>, instances: seq<AsgInstance>, newest: string,
                  asg: string, dryrun: bool, stop: seq<string>): Swapped
    decreases |zones|
  {
    if |zones| == 0 then Swapped(Done(()), log, s, stop)
    else
      var r := Round(env, log, s, zones[0], instances, newest, asg, dryrun, stop);
      if r.out.Done? then Rounds(env, r.log, r.state, zones[1..], instances, newest, asg, dryrun, r.stop) else r
  }

  /** swapInstance: nothing to do without an idle instance; otherwise the rounds, starting from an empty stop list. */
  function Swap(env: Env, log: seq<Call>, s: State, instances: seq<AsgInstance>, newest: string, dryrun: bool, asg: string): Run<Outcome<()>>
  {
    var zones := TargetZones(instances);
    if |zones| == 0 then Run(Done(()), log, s)
    else
      var r := Rounds(env, log, s, zones, instances, newest, asg, dryrun, []);
      Run(r.out, r.log, r.state)
  }

  /** The drain requests of a log, in order. */
  function Drains(calls: seq<Call>): seq<Call>
    decreases |calls|
  {
    if |calls| == 0 then []
    else
      var last := calls[|calls| - 1];
      Drains(calls[..|calls| - 1]) + (if last.UpdateContainerInstancesState? then [last] else [])
  }

  /** The drain requests one round should send, in instance order. */
  function RoundRequests(insts: seq<AsgInstance>, newest: string, az: string): seq<Call>
    decreases |insts|
  {
    if |insts| == 0 then []
    else (if Drainable(insts[0], newest, az) then [Ecs.DrainRequest(insts[0])] else []) + RoundRequests(insts[1..], newest, az)
  }

  /** The ids one round adds to the stop list. */
  function RoundStops(insts: seq<AsgInstance>, newest: string, az: string): seq<string>
    decreases |insts|
  {
    if |insts| == 0 then []
    else (if Drainable(insts[0], newest, az) then [insts[0].instanceId] else []) + RoundStops(insts[1..], newest, az)
  }

  /** The ids all rounds add to the stop list, in order. */
  function SwapStops(zones: seq<string>, instances: seq<AsgInstance>, newest: string): seq<string>
    decreases |zones|
  {
    if |zones| == 0 then [] else RoundStops(instances, newest, zones[0]) + SwapStops(zones[1..], instances, newest)
  }

  /** The drain requests of all rounds. */
  function SwapRequests(zones: seq<string>, instances: seq<AsgInstance>, newest: string): seq<Call>
    decreases |zones|
  {
    if |zones| == 0 then [] else RoundRequests(instances, newest, zones[0]) + SwapRequests(zones[1..], instances, newest)
  }

  /** The drains of `after` are those of `before` followed by a prefix of `want`, all of it when `complete`. */
  ghost predicate DrainedPrefix(before: seq<Call>, after: seq<Call>, want: seq<Call>, complete: bool)
  {
    exists p :: 0 <= p <= |want| && Drains(after) == Drains(before) + want[..p] && (complete ==> p == |want|)
  }

  /** A log extended by requests none of which drains has the same drains. */
  lemma {:induction false} DrainsKept(log: seq<Call>, log2: seq<Call>)
    requires |log| <= |log2| && log2[..|log|] == log
    requires forall k :: |log| <= k < |log2| ==> !log2[k].UpdateContainerInstancesState?
    ensures Drains(log2) == Drains(log)
    decreases |log2|
  {
    if |log2| > |log| {
      var pre := log2[..|log2| - 1];
      assert pre[..|log|] == log;
      DrainsKept(log, pre);
    } else {
      assert log2 == log;
    }
  }

  /**
   * `after` extends `before`, and for each prefix of `ids` (from its first
   * id to all of it) the extension holds a stop request for `stop` followed
   * by that prefix: the stop list grows one drained instance at a time and
   * each new list is stopped.
   */
  ghost predicate StopsSent(before: seq<Call>, after: seq<Call>, stop: seq<string>, ids: seq<string>, dryrun: bool)
  {
    |before| <= |after| && after[..|before|] == before &&
    forall k :: 1 <= k <= |ids| ==> StopInstances(stop + ids[..k], dryrun) in after[|before|..]
  }

  lemma StopsJoin(a: seq<Call>, b: seq<Call>, c: seq<Call>, stop: seq<string>, i1: seq<string>, i2: seq<string>, dryrun: bool)
    requires StopsSent(a, b, stop, i1, dryrun)
    requires StopsSent(b, c, stop + i1, i2, dryrun)
    ensures StopsSent(a, c, stop, i1 + i2, dryrun)
  {
    assert c[..|a|] == c[..|b|][..|a|];
    forall k | 1 <= k <= |i1 + i2|
      ensures StopInstances(stop + (i1 + i2)[..k], dryrun) in c[|a|..]
    {
      if k <= |i1| {
        assert (i1 + i2)[..k] == i1[..k];
        var j :| 0 <= j < |b| - |a| && b[|a|..][j] == StopInstances(stop + i1[..k], dryrun);
        assert c[|a|..][j] == b[|a|..][j];
      } else {
        assert stop + (i1 + i2)[..k] == (stop + i1) + i2[..k - |i1|];
        var j :| 0 <= j < |c| - |b| && c[|b|..][j] == StopInstances((stop + i1) + i2[..k - |i1|], dryrun);
        assert c[|a|..][j + |b| - |a|] == c[|b|..][j];
      }
    }
  }

  /** One stop in front of a run of stops. */
  lemma StopsCons(a: seq<Call>, b: seq<Call>, c: seq<Call>, stop: seq<string>, id: string, rest: seq<string>, dryrun: bool)
    requires |a| <= |b| && b[..|a|] == a && StopInstances(stop + [id], dryrun) in b[|a|..]
    requires StopsSent(b, c, stop + [id], rest, dryrun)
    ensures StopsSent(a, c, stop, [id] + rest, dryrun)
  {
    assert [id][..1] == [id];
    StopsJoin(a, b, c, stop, [id], rest, dryrun);
  }

  /**
   * One drain-and-stop sends exactly one drain request, for that instance;
   * when it completes, the drain was accepted, the whole stop list with
   * that instance added was stopped, and that stop succeeded.
   */
  lemma DrainAndStopTrace(env: Env, log: seq<Call>, s: State, inst: AsgInstance, asg: string, dryrun: bool, stop: seq<string>)
    ensures var d := DrainAndStop(env, log, s, inst, asg, dryrun, stop);
      var l1 := log + [Ecs.DrainRequest(inst)];
      |log| <= |d.log| && d.log[..|log|] == log &&
      Drains(d.log) == Drains(log) + [Ecs.DrainRequest(inst)] &&
      (d.out.Done? || d.out.Aborted?) &&
      (d.out.Done? ==>
         env.updateContainerInstancesState(l1).Ok? &&
         StopUnused(env, l1, s, asg, stop + [inst.instanceId], dryrun).out.Ok? &&
         StopInstances(stop + [inst.instanceId], dryrun) in d.log[|log|..] &&
         d.stop == stop + [inst.instanceId]) &&
      (s == Closed && d.out.Done? ==> d.state == Closed)
  {
    var l1 := log + [Ecs.DrainRequest(inst)];
    assert l1[..|l1| - 1] == log;
    assert Drains(l1) == Drains(log) + [Ecs.DrainRequest(inst)];
    if env.updateContainerInstancesState(l1).Ok? {
      var stoptarget := stop + [inst.instanceId];
      var run := StopUnused(env, l1, s, asg, stoptarget, dryrun);
      StopUnusedCalls(env, l1, s, asg, stoptarget, dryrun);
      DrainsKept(l1, run.log);
      StopUnusedBrackets(env, l1, s, asg, stoptarget, dryrun);
      assert run.log[..|log|] == run.log[..|l1|][..|log|];
      if run.out.Ok? {
        StopUnusedStops(env, l1, s, asg, stoptarget, dryrun);
        assert run.log[|log|..][2] == run.log[|l1| + 1];
      }
    }
  }

  /**
   * A round never returns an error; a completed one has added exactly the
   * ids it drained to the stop list, and from "closed" it leaves the machine
   * "closed".
   */
  lemma {:induction false} RoundOutcome(env: Env, log: seq<Call>, s: State, az: string, insts: seq<AsgInstance>, newest: string,
                                        asg: string, dryrun: bool, stop: seq<string>)
    ensures Round(env, log, s, az, insts, newest, asg, dryrun, stop).out.Done? ||
            Round(env, log, s, az, insts, newest, asg, dryrun, stop).out.Aborted?
    ensures Round(env, log, s, az, insts, newest, asg, dryrun, stop).out.Done? ==>
      Round(env, log, s, az, insts, newest, asg, dryrun, stop).stop == stop + RoundStops(insts, newest, az)
    ensures s == Closed && Round(env, log, s, az, insts, newest, asg, dryrun, stop).out.Done? ==>
      Round(env, log, s, az, insts, newest, asg, dryrun, stop).state == Closed
    decreases |insts|
  {
    if |insts| > 0 {
      if Drainable(insts[0], newest, az) {
        var d := DrainAndStop(env, log, s, insts[0], asg, dryrun, stop);
        DrainAndStopTrace(env, log, s, insts[0], asg, dryrun, stop);
        if d.out.Done? {
          RoundOutcome(env, d.log, d.state, az, insts[1..], newest, asg, dryrun, d.stop);
        }
      } else {
        RoundOutcome(env, log, s, az, insts[1..], newest, asg, dryrun, stop);
        assert RoundStops(insts, newest, az) == RoundStops(insts[1..], newest, az);
      }
    }
  }

  /**
   * A completed round stopped, for each instance it drained, the stop list
   * as it stood after adding that instance.
   */
  lemma {:induction false} RoundStopsSent(env: Env, log: seq<Call>, s: State, az: string, insts: seq<AsgInstance>, newest: string,
                                          asg: string, dryrun: bool, stop: seq<string>)
    ensures Round(env, log, s, az, insts, newest, asg, dryrun, stop).out.Done? ==>
      StopsSent(log, Round(env, log, s, az, insts, newest, asg, dryrun, stop).log, stop, RoundStops(insts, newest, az), dryrun)
    decreases |insts|
  {
    if |insts| == 0 {
      assert log[..|log|] == log;
    } else if Drainable(insts[0], newest, az) {
      var d := DrainAndStop(env, log, s, insts[0], asg, dryrun, stop);
      DrainAndStopTrace(env, log, s, insts[0], asg, dryrun, stop);
      if d.out.Done? {
        RoundStopsSent(env, d.log, d.state, az, insts[1..], newest, asg, dryrun, d.stop);
        var r := Round(env, d.log, d.state, az, insts[1..], newest, asg, dryrun, d.stop);
        if r.out.Done? {
          StopsCons(log, d.log, r.log, stop, insts[0].instanceId, RoundStops(insts[1..], newest, az), dryrun);
        }
      }
    } else {
      RoundStopsSent(env, log, s, az, insts[1..], newest, asg, dryrun, stop);
      assert RoundStops(insts, newest, az) == RoundStops(insts[1..], newest, az);
    }
  }

  /** One drain request in front of a prefix. */
  lemma ConsPrefix(log: seq<Call>, mid: seq<Call>, end: seq<Call>, x: Call, rest: seq<Call>, complete: bool)
    requires Drains(mid) == Drains(log) + [x]
    requires DrainedPrefix(mid, end, rest, complete)
    ensures DrainedPrefix(log, end, [x] + rest, complete)
  {
    var p :| 0 <= p <= |rest| && Drains(end) == Drains(mid) + rest[..p] && (complete ==> p == |rest|);
    assert ([x] + rest)[..p + 1] == [x] + rest[..p];
    assert Drains(end) == Drains(log) + ([x] + rest)[..p + 1];
  }

  /** A prefix in front of which a whole sequence was sent. */
  lemma AppendPrefix(log: seq<Call>, mid: seq<Call>, end: seq<Call>, first: seq<Call>, rest: seq<Call>, complete: bool)
    requires Drains(mid) == Drains(log) + first
    requires DrainedPrefix(mid, end, rest, complete)
    ensures DrainedPrefix(log, end, first + rest, complete)
  {
    var p :| 0 <= p <= |rest| && Drains(end) == Drains(mid) + rest[..p] && (complete ==> p == |rest|);
    JoinPrefix(Drains(log), first, rest, p);
    var q := |first| + p;
    assert 0 <= q <= |first + rest| && Drains(end) == Drains(log) + (first + rest)[..q] && (complete ==> q == |first + rest|);
  }

  lemma JoinPrefix<T>(a: seq<T>, first: seq<T>, rest: seq<T>, p: nat)
    requires p <= |rest|
    ensures (a + first) + rest[..p] == a + (first + rest)[..|first| + p]
  {
    assert (first + rest)[..|first| + p] == first + rest[..p];
  }

  /** A prefix of the first part only. */
  lemma PrefixOfFirst(log: seq<Call>, end: seq<Call>, first: seq<Call>, rest: seq<Call>)
    requires DrainedPrefix(log, end, first, false)
    ensures DrainedPrefix(log, end, first + rest, false)
  {
    var p :| 0 <= p <= |first| && Drains(end) == Drains(log) + first[..p];
    assert (first + rest)[..p] == first[..p];
  }

  /** A round sends a prefix of the drain requests it should send, all of them when it completes. */
  lemma {:induction false} RoundTrace(env: Env, log: seq<Call>, s: State, az: string, insts: seq<AsgInstance>, newest: string,
                                      asg: string, dryrun: bool, stop: seq<string>)
    ensures DrainedPrefix(log, Round(env, log, s, az, insts, newest, asg, dryrun, stop).log, RoundRequests(insts, newest, az),
                          Round(env, log, s, az, insts, newest, asg, dryrun, stop).out.Done?)
    decreases |insts|
  {
    var r := Round(env, log, s, az, insts, newest, asg, dryrun, stop);
    var want := RoundRequests(insts, newest, az);
    if |insts| == 0 {
      assert Drains(r.log) == Drains(log) + want[..0];
    } else if Drainable(insts[0], newest, az) {
      var d := DrainAndStop(env, log, s, insts[0], asg, dryrun, stop);
      DrainAndStopTrace(env, log, s, insts[0], asg, dryrun, stop);
      var rest := RoundRequests(insts[1..], newest, az);
      assert want == [Ecs.DrainRequest(insts[0])] + rest;
      if d.out.Done? {
        RoundTrace(env, d.log, d.state, az, insts[1..], newest, asg, dryrun, d.stop);
        ConsPrefix(log, d.log, r.log, Ecs.DrainRequest(insts[0]), rest, r.out.Done?);
      } else {
        assert want[..1] == [Ecs.DrainRequest(insts[0])];
        assert Drains(r.log) == Drains(log) + want[..1];
      }
    } else {
      RoundTrace(env, log, s, az, insts[1..], newest, asg, dryrun, stop);
      assert want == RoundRequests(insts[1..], newest, az);
    }
  }

  /** The same over all rounds. */
  lemma {:induction false} RoundsOutcome(env: Env, log: seq<Call>, s: State, zones: seq<string>, instances: seq<AsgInstance>,
                                         newest: string, asg: string, dryrun: bool, stop: seq<string>)
    ensures Rounds(env, log, s, zones, instances, newest, asg, dryrun, stop).out.Done? ||
            Rounds(env, log, s, zones, instances, newest, asg, dryrun, stop).out.Aborted?
    ensures s == Closed && Rounds(env, log, s, zones, instances, newest, asg, dryrun, stop).out.Done? ==>
      Rounds(env, log, s, zones, instances, newest, asg, dryrun, stop).state == Closed
    decreases |zones|
  {
    if |zones| > 0 {
      var r1 := Round(env, log, s, zones[0], instances, newest, asg, dryrun, stop);
      RoundOutcome(env, log, s, zones[0], instances, newest, asg, dryrun, stop);
      if r1.out.Done? {
        RoundsOutcome(env, r1.log, r1.state, zones[1..], instances, newest, asg, dryrun, r1.stop);
      }
    }
  }

  lemma RoundsStep(log: seq<Call>, l1: seq<Call>, l2: seq<Call>, stop: seq<string>, stop1: seq<string>, stop2: seq<string>,
                   i1: seq<string>, rest: seq<string>, done: bool, dryrun: bool)
    requires stop1 == stop + i1 && StopsSent(log, l1, stop, i1, dryrun)
    requires done ==> stop2 == stop1 + rest && StopsSent(l1, l2, stop1, rest, dryrun)
    ensures done ==> stop2 == stop + (i1 + rest) && StopsSent(log, l2, stop, i1 + rest, dryrun)
  {
    if done {
      StopsJoin(log, l1, l2, stop, i1, rest, dryrun);
    }
  }

  /**
   * Completed rounds carry the stop list from one round to the next and
   * stopped each list on the way; the last stop named every drained instance.
   */
  lemma {:induction false} RoundsStopsSent(env: Env, log: seq<Call>, s: State, zones: seq<string>, instances: seq<AsgInstance>,
                                           newest: string, asg: string, dryrun: bool, stop: seq<string>)
    ensures Rounds(env, log, s, zones, instances, newest, asg, dryrun, stop).out.Done? ==>
      Rounds(env, log, s, zones, instances, newest, asg, dryrun, stop).stop == stop + SwapStops(zones, instances, newest) &&
      StopsSent(log, Rounds(env, log, s, zones, instances, newest, asg, dryrun, stop).log, stop, SwapStops(zones, instances, newest), dryrun)
    decreases |zones|
  {
    if |zones| == 0 {
      assert log[..|log|] == log;
    } else {
      var r1 := Round(env, log, s, zones[0], instances, newest, asg, dryrun, stop);
      if r1.out.Done? {
        var i1 := RoundStops(instances, newest, zones[0]);
        var rest := SwapStops(zones[1..], instances, newest);
        assert SwapStops(zones, instances, newest) == i1 + rest;
        RoundOutcome(env, log, s, zones[0], instances, newest, asg, dryrun, stop);
        RoundStopsSent(env, log, s, zones[0], instances, newest, asg, dryrun, stop);
        RoundsStopsSent(env, r1.log, r1.state, zones[1..], instances, newest, asg, dryrun, r1.stop);
        var r := Rounds(env, r1.log, r1.state, zones[1..], instances, newest, asg, dryrun, r1.stop);
        assert Rounds(env, log, s, zones, instances, newest, asg, dryrun, stop) == r;
        RoundsStep(log, r1.log, r.log, stop, r1.stop, r.stop, i1, rest, r.out.Done?, dryrun);
      }
    }
  }

  lemma {:induction false} RoundsTrace(env: Env, log: seq<Call>, s: State, zones: seq<string>, instances: seq<AsgInstance>,
                                       newest: string, asg: string, dryrun: bool, stop: seq<string>)
    ensures DrainedPrefix(log, Rounds(env, log, s, zones, instances, newest, asg, dryrun, stop).log,
                          SwapRequests(zones, instances, newest),
                          Rounds(env, log, s, zones, instances, newest, asg, dryrun, stop).out.Done?)
    decreases |zones|
  {
    var r := Rounds(env, log, s, zones, instances, newest, asg, dryrun, stop);
    var want := SwapRequests(zones, instances, newest);
    if |zones| == 0 {
      assert Drains(r.log) == Drains(log) + want[..0];
    } else {
      var r1 := Round(env, log, s, zones[0], instances, newest, asg, dryrun, stop);
      RoundTrace(env, log, s, zones[0], instances, newest, asg, dryrun, stop);
      var first := RoundRequests(instances, newest, zones[0]);
      var rest := SwapRequests(zones[1..], instances, newest);
      assert want == first + rest;
      if r1.out.Done? {
        RoundsTrace(env, r1.log, r1.state, zones[1..], instances, newest, asg, dryrun, r1.stop);
        var p1 :| 0 <= p1 <= |first| && Drains(r1.log) == Drains(log) + first[..p1] && p1 == |first|;
        assert first[..p1] == first;
        AppendPrefix(log, r1.log, r.log, first, rest, r.out.Done?);
      } else {
        PrefixOfFirst(log, r.log, first, rest);
      }
    }
  }

  /** Every request a round should send drains one of its instances that is busy, obsolete and in that zone. */
  lemma {:induction false} RoundRequestsObsolete(insts: seq<AsgInstance>, newest: string, az: string)
    ensures forall c :: c in RoundRequests(insts, newest, az) ==>
      exists i :: 0 <= i < |insts| && Drainable(insts[i], newest, az) && c == Ecs.DrainRequest(insts[i])
    decreases |insts|
  {
    if |insts| > 0 {
      RoundRequestsObsolete(insts[1..], newest, az);
      forall c | c in RoundRequests(insts, newest, az)
        ensures exists i :: 0 <= i < |insts| && Drainable(insts[i], newest, az) && c == Ecs.DrainRequest(insts[i])
      {
        if c !in RoundRequests(insts[1..], newest, az) {
          assert Drainable(insts[0], newest, az) && c == Ecs.DrainRequest(insts[0]);
        } else {
          var i :| 0 <= i < |insts[1..]| && Drainable(insts[1..][i], newest, az) && c == Ecs.DrainRequest(insts[1..][i]);
          assert insts[1..][i] == insts[i + 1];
        }
      }
    }
  }

  /** Every request of a swap drains an instance with one task, an obsolete image and the zone of an idle instance. */
  lemma {:induction false} SwapRequestsObsolete(zones: seq<string>, instances: seq<AsgInstance>, newest: string)
    ensures forall c :: c in SwapRequests(zones, instances, newest) ==>
      exists i :: 0 <= i < |instances| && instances[i].runningTasks == 1 && instances[i].imageId != newest &&
        instances[i].availabilityZone in zones && c == Ecs.DrainRequest(instances[i])
    decreases |zones|
  {
    if |zones| > 0 {
      SwapRequestsObsolete(zones[1..], instances, newest);
      RoundRequestsObsolete(instances, newest, zones[0]);
      assert SwapRequests(zones, instances, newest) ==
        RoundRequests(instances, newest, zones[0]) + SwapRequests(zones[1..], instances, newest);
      forall c | c in SwapRequests(zones, instances, newest)
        ensures
          exists i :: 0 <= i < |instances| && instances[i].runningTasks == 1 && instances[i].imageId != newest &&
            instances[i].availabilityZone in zones && c == Ecs.DrainRequest(instances[i])
      {
        if c in RoundRequests(instances, newest, zones[0]) {
          var i :| 0 <= i < |instances| && Drainable(instances[i], newest, zones[0]) && c == Ecs.DrainRequest(instances[i]);
          assert instances[i].availabilityZone in zones;
        } else {
          var i :| 0 <= i < |instances| && instances[i].runningTasks == 1 && instances[i].imageId != newest &&
            instances[i].availabilityZone in zones[1..] && c == Ecs.DrainRequest(instances[i]);
          assert instances[i].availabilityZone in zones;
        }
      }
    }
  }

  /**
   * swapInstance: without an idle instance it sends nothing; otherwise it
   * sends, in order, a prefix of the drain requests of the rounds (all of
   * them when it completes), each for a busy instance on an obsolete image
   * in the zone of an idle instance. It never returns an error (failures
   * abort), and a completed swap from "closed" leaves the machine "closed".
   */
  lemma SwapDrains(env: Env, log: seq<Call>, s: State, instances: seq<AsgInstance>, newest: string, dryrun: bool, asg: string)
    ensures var sw := Swap(env, log, s, instances, newest, dryrun, asg);
      var want := SwapRequests(TargetZones(instances), instances, newest);
      ((forall i :: 0 <= i < |instances| ==> !IdleRecord(instances[i])) ==> sw == Run(Done(()), log, s)) &&
      DrainedPrefix(log, sw.log, want, sw.out.Done?) &&
      (forall c :: c in want ==>
         exists i :: 0 <= i < |instances| && instances[i].runningTasks == 1 && instances[i].imageId != newest &&
           (exists j :: 0 <= j < |instances| && IdleRecord(instances[j]) && instances[j].availabilityZone == instances[i].availabilityZone) &&
           c == Ecs.DrainRequest(instances[i])) &&
      (sw.out.Done? || sw.out.Aborted?) &&
      (s == Closed && sw.out.Done? ==> sw.state == Closed) &&
      (sw.out.Done? ==> StopsSent(log, sw.log, [], SwapStops(TargetZones(instances), instances, newest), dryrun))
  {
    var zones := TargetZones(instances);
    var want := SwapRequests(zones, instances, newest);
    var sw := Swap(env, log, s, instances, newest, dryrun, asg);
    SwapRequestsObsolete(zones, instances, newest);
    if |zones| == 0 {
      assert want == [];
      assert sw.log == log;
      assert Drains(sw.log) == Drains(log) + want[..0];
      assert log[..|log|] == log;
    } else {
      assert zones[0] in zones;
      RoundsTrace(env, log, s, zones, instances, newest, asg, dryrun, []);
      RoundsOutcome(env, log, s, zones, instances, newest, asg, dryrun, []);
      RoundsStopsSent(env, log, s, zones, instances, newest, asg, dryrun, []);
    }
  }

  method DrainAndStopOne(r: Replacement, inst: AsgInstance, asg: string, dryrun: bool, stop: seq<string>)
    returns (out: Outcome<()>, stoptarget: seq<string>)
    modifies r.aws, r.deploy
    ensures Swapped(out, r.aws.calls, r.deploy.current, stoptarget) ==
      DrainAndStop(r.aws.env, old(r.aws.calls), old(r.deploy.current), inst, asg, dryrun, stop)
  {
    var result := Ecs.DrainInstance(r, inst);
    if result.Err? {
      return Aborted("failed to drain instance: " + result.error.Text()), stop;
    }
    stoptarget := stop + [inst.instanceId];
    var output := ReplaceUnusedInstance(r, asg, stoptarget, dryrun);
    if output.Err? {
      return Aborted("cannnot stop instance: " + output.error.Text()), stoptarget;
    }
    out := Done(());
  }

  /** One zone's round: the inner loop of swapInstance. */
  method SwapRound(r: Replacement, az: string, instances: seq<AsgInstance>, newest: string, asg: string, dryrun: bool,
                   stop: seq<string>) returns (out: Outcome<()>, stoptarget: seq<string>)
    modifies r.aws, r.deploy
    ensures Swapped(out, r.aws.calls, r.deploy.current, stoptarget) ==
      Round(r.aws.env, old(r.aws.calls), old(r.deploy.current), az, instances, newest, asg, dryrun, stop)
  {
    stoptarget := stop;
    var i := 0;
    while i < |instances|
      invariant 0 <= i <= |instances|
      invariant Round(r.aws.env, old(r.aws.calls), old(r.deploy.current), az, instances, newest, asg, dryrun, stop) ==
        Round(r.aws.env, r.aws.calls, r.deploy.current, az, instances[i..], newest, asg, dryrun, stoptarget)
    {
      var inst := instances[i];
      assert instances[i..][0] == inst && instances[i..][1..] == instances[i + 1..];
      if inst.runningTasks == 1 && inst.imageId != newest && inst.availabilityZone == az {
        out, stoptarget := DrainAndStopOne(r, inst, asg, dryrun, stoptarget);
        if !out.Done? {
          return;
        }
      }
      i := i + 1;
    }
    out := Done(());
  }

  method SwapInstance(r: Replacement, instances: seq<AsgInstance>, newest: string, dryrun: bool, asg: string)
    returns (res: Outcome<()>)
    modifies r.aws, r.deploy
    ensures Run(res, r.aws.calls, r.deploy.current) ==
      Swap(r.aws.env, old(r.aws.calls), old(r.deploy.current), instances, newest, dryrun, asg)
  {
    var targetAZ, emptyInstanceCount := IdleZones(instances);
    if emptyInstanceCount == 0 {
      return Done(());
    }
    var stoptarget: seq<string> := [];
    var z := 0;
    while z < |targetAZ|
      invariant 0 <= z <= |targetAZ|
      invariant Rounds(r.aws.env, old(r.aws.calls), old(r.deploy.current), targetAZ, instances, newest, asg, dryrun, []) ==
        Rounds(r.aws.env, r.aws.calls, r.deploy.current, targetAZ[z..], instances, newest, asg, dryrun, stoptarget)
    {
      assert targetAZ[z..][0] == targetAZ[z] && targetAZ[z..][1..] == targetAZ[z + 1..];
      var out;
      out, stoptarget := SwapRound(r, targetAZ[z], instances, newest, asg, dryrun, stoptarget);
      if !out.Done? {
        return out;
      }
      z := z + 1;
    }
    res := Done(());
  }

  /** The steady-state check that ends ReplaceInstance. */
  function SteadyCheck(log: seq<Call>, s: State): Run<Outcome<()>>
  {
    if s != Closed then Run(Failed(NotSteady), log, s) else Run(Done(()), log, s)
  }

  /** The swap, run only when there are records and the machine is closed, then the steady-state check. */
  function SwapAndCheck(env: Env, log: seq<Call>, s: State, asg: string, dryrun: bool, newest: string,
                        ecsInstance: seq<AsgInstance>): Run<Outcome<()>>
  {
    if |ecsInstance| != 0 && s == Closed then
      var sw := Swap(env, log, s, ecsInstance, newest, dryrun, asg);
      match sw.out
      case Failed(e) => Run(Failed(Flatten("failed to replace instance: ", e)), sw.log, sw.state)
      case Aborted(m) => Run(Aborted(m), sw.log, sw.state)
      case Done(_) => SteadyCheck(sw.log, sw.state)
    else
      SteadyCheck(log, s)
  }

  /** Everything after the classification: stop the unused instances if there are any, then swap and check. */
  function AfterClassify(env: Env, log: seq<Call>, s: State, asg: string, dryrun: bool, newest: string, c: Lists): Run<Outcome<()>>
  {
    if |c.unusedInstances| != 0 then
      var run := StopUnused(env, log, s, asg, c.unusedInstances, dryrun);
      match run.out
      case Err(e) => Run(Failed(Flatten("cannnot stop unused instance: ", e)), run.log, run.state)
      case Ok(_) => SwapAndCheck(env, run.log, run.state, asg, dryrun, newest, c.ecsInstance)
    else
      SwapAndCheck(env, log, s, asg, dryrun, newest, c.ecsInstance)
  }

  /** ReplaceInstance of actions/asg.go:20-123 (the group it returns is always nil and is not modelled). */
  function ReplaceV1(env: Env, log: seq<Call>, s: State, asg: string, cluster: string, dryrun: bool,
                     image: string, owner: string): Run<Outcome<()>>
  {
    var l1 := log + [InfoAsg(asg)];
    match env.infoAsg(l1)
    case Err(e) => Run(Aborted("cannnot get Asg Info: " + e.Text()), l1, s)
    case Ok(_) =>
      var st := Ecs.ContainerStatus(env, l1, cluster);
      match st.out
      case Err(e) => Run(Failed(e), st.log, s)
      case Ok(sts) =>
        var l2 := st.log + [NewestAmi(owner, image)];
        match env.newestAmi(l2)
        case Err(e) => Run(Failed(Flatten("cannnot get newestami id: ", e)), l2, s)
        case Ok(newest) =>
          match Classify(env, sts, newest, cluster)
          case Failed(e) => Run(Failed(e), l2, s)
          case Aborted(m) => Run(Aborted(m), l2, s)
          case Done(c) => AfterClassify(env, l2, s, asg, dryrun, newest, c)
  }

  /** The steady-state error, which no flattened "cannnot ..." or "failed ..." error equals. */
  const NotSteady := Message("cluster is not steady state")

  lemma FlattenNotSteady(prefix: string, e: Error)
    requires |prefix| > 1 && prefix[1] == 'a'
    ensures Flatten(prefix, e) != NotSteady
  {
    assert Flatten(prefix, e).text[1] == 'a';
    assert NotSteady.text[1] == 'l';
  }

  /** The flattened errors the run can return before its last step all differ from the steady-state error. */
  lemma EarlyErrorsDiffer(e: Error)
    ensures Flatten("cannnot get instance arn: ", e) != NotSteady
    ensures Flatten("cannnot get ecs status : ", e) != NotSteady
    ensures Flatten("cannnot get newestami id: ", e) != NotSteady
    ensures Flatten("cannnot get ami id: ", e) != NotSteady
    ensures Flatten("cannnot stop unused instance: ", e) != NotSteady
    ensures Flatten("failed to replace instance: ", e) != NotSteady
  {
    FlattenNotSteady("cannnot get instance arn: ", e);
    FlattenNotSteady("cannnot get ecs status : ", e);
    FlattenNotSteady("cannnot get newestami id: ", e);
    FlattenNotSteady("cannnot get ami id: ", e);
    FlattenNotSteady("cannnot stop unused instance: ", e);
    FlattenNotSteady("failed to replace instance: ", e);
  }

  lemma SwapAndCheckSteady(env: Env, log: seq<Call>, s: State, asg: string, dryrun: bool, newest: string, ecsInstance: seq<AsgInstance>)
    ensures var run := SwapAndCheck(env, log, s, asg, dryrun, newest, ecsInstance);
      (!(|ecsInstance| != 0 && s == Closed) ==> run.log == log) &&
      (s == Closed ==> run.out.Done? || run.out.Aborted?) &&
      (run.out.Done? ==> run.state == Closed) &&
      (run.out == Failed(NotSteady) ==> run.state == Running)
  {
    SwapDrains(env, log, s, ecsInstance, newest, dryrun, asg);
  }

  lemma AfterClassifySteady(env: Env, log: seq<Call>, s: State, asg: string, dryrun: bool, newest: string, c: Lists)
    ensures var run := AfterClassify(env, log, s, asg, dryrun, newest, c);
      (run.out.Done? ==> run.state == Closed) &&
      (run.out == Failed(NotSteady) ==> run.state == Running)
  {
    var stop := StopUnused(env, log, s, asg, c.unusedInstances, dryrun);
    if stop.out.Err? {
      EarlyErrorsDiffer(stop.out.error);
    }
    SwapAndCheckSteady(env, log, s, asg, dryrun, newest, c.ecsInstance);
    SwapAndCheckSteady(env, stop.log, stop.state, asg, dryrun, newest, c.ecsInstance);
  }

  /**
   * Only the final check fails with the steady-state error, so that error
   * comes with a running machine, and success with a closed one.
   */
  lemma ReplaceV1Steady(env: Env, log: seq<Call>, s: State, asg: string, cluster: string, dryrun: bool, image: string, owner: string)
    ensures var run := ReplaceV1(env, log, s, asg, cluster, dryrun, image, owner);
      (run.out.Done? ==> run.state == Closed) &&
      (run.out == Failed(NotSteady) ==> run.state == Running)
  {
    var l1 := log + [InfoAsg(asg)];
    if env.infoAsg(l1).Ok? {
      var st := Ecs.ContainerStatus(env, l1, cluster);
      if st.out.Err? {
        Ecs.ContainerStatusErrors(env, l1, cluster);
        var e :| st.out.error == Flatten("cannnot get instance arn: ", e) || st.out.error == Flatten("cannnot get ecs status : ", e);
        EarlyErrorsDiffer(e);
      } else {
        var l2 := st.log + [NewestAmi(owner, image)];
        if env.newestAmi(l2).Err? {
          EarlyErrorsDiffer(env.newestAmi(l2).error);
        } else {
          var newest := env.newestAmi(l2).value;
          ClassifyDoneIff(env, st.out.value, newest, cluster);
          var cl := Classify(env, st.out.value, newest, cluster);
          if cl.Failed? {
            var k :| 0 <= k < |st.out.value| && env.amiAsg(st.out.value[k].ec2InstanceId).Err? &&
              cl.error == Flatten("cannnot get ami id: ", env.amiAsg(st.out.value[k].ec2InstanceId).error);
            EarlyErrorsDiffer(env.amiAsg(st.out.value[k].ec2InstanceId).error);
          } else if cl.Done? {
            AfterClassifySteady(env, l2, s, asg, dryrun, newest, cl.value);
          }
        }
      }
    }
  }

  /** Started from "closed", a run never ends in the unsteady state: every step that opens the machine closes it or fails. */
  lemma ReplaceV1FromClosed(env: Env, log: seq<Call>, asg: string, cluster: string, dryrun: bool, image: string, owner: string)
    ensures ReplaceV1(env, log, Closed, asg, cluster, dryrun, image, owner).out != Failed(NotSteady)
  {
    ReplaceV1Steady(env, log, Closed, asg, cluster, dryrun, image, owner);
    var l1 := log + [InfoAsg(asg)];
    var st := Ecs.ContainerStatus(env, l1, cluster);
    var l2 := st.log + [NewestAmi(owner, image)];
    if env.infoAsg(l1).Ok? && st.out.Ok? && env.newestAmi(l2).Ok? {
      var newest := env.newestAmi(l2).value;
      var cl := Classify(env, st.out.value, newest, cluster);
      if cl.Done? {
        AfterClassifyFromClosed(env, l2, asg, dryrun, newest, cl.value);
      }
    }
  }

  /** What follows the classification, started closed, never ends in the unsteady state. */
  lemma AfterClassifyFromClosed(env: Env, log: seq<Call>, asg: string, dryrun: bool, newest: string, c: Lists)
    ensures AfterClassify(env, log, Closed, asg, dryrun, newest, c).out != Failed(NotSteady)
  {
    var run := StopUnused(env, log, Closed, asg, c.unusedInstances, dryrun);
    StopUnusedBrackets(env, log, Closed, asg, c.unusedInstances, dryrun);
    SwapAndCheckFromClosed(env, log, asg, dryrun, newest, c.ecsInstance);
    if run.out.Err? {
      EarlyErrorsDiffer(run.out.error);
    } else {
      SwapAndCheckFromClosed(env, run.log, asg, dryrun, newest, c.ecsInstance);
    }
  }

  /** The swap and check, started closed, never end in the unsteady state. */
  lemma SwapAndCheckFromClosed(env: Env, log: seq<Call>, asg: string, dryrun: bool, newest: string, ecsInstance: seq<AsgInstance>)
    ensures SwapAndCheck(env, log, Closed, asg, dryrun, newest, ecsInstance).out != Failed(NotSteady)
  {
    SwapDrains(env, log, Closed, ecsInstance, newest, dryrun, asg);
  }

  /**
   * Started while the machine is "running" (another deployment in progress),
   * a run never succeeds, leaves the machine running and drains nothing.
   */
  lemma ReplaceV1FromRunning(env: Env, log: seq<Call>, asg: string, cluster: string, dryrun: bool, image: string, owner: string)
    ensures var run := ReplaceV1(env, log, Running, asg, cluster, dryrun, image, owner);
      !run.out.Done? && run.state == Running && Drains(run.log) == Drains(log)
  {
    var run := ReplaceV1(env, log, Running, asg, cluster, dryrun, image, owner);
    var l1 := log + [InfoAsg(asg)];
    assert l1[..|log|] == log;
    DrainsKept(log, l1);
    if env.infoAsg(l1).Ok? {
      var st := Ecs.ContainerStatus(env, l1, cluster);
      Ecs.ContainerStatusShape(env, l1, cluster);
      assert st.log[..|l1|] == l1;
      DrainsKept(l1, st.log);
      if st.out.Ok? {
        var l2 := st.log + [NewestAmi(owner, image)];
        assert l2[..|st.log|] == st.log;
        DrainsKept(st.log, l2);
      }
    }
  }

  method ReplaceInstance(r: Replacement, asg: string, cluster: string, dryrun: bool, image: string, owner: string)
    returns (res: Outcome<()>)
    modifies r.aws, r.deploy
    ensures Run(res, r.aws.calls, r.deploy.current) ==
      ReplaceV1(r.aws.env, old(r.aws.calls), old(r.deploy.current), asg, cluster, dryrun, image, owner)
  {
    r.aws.Send(InfoAsg(asg));
    var asgGroup := r.aws.env.infoAsg(r.aws.calls);
    if asgGroup.Err? {
      return Aborted("cannnot get Asg Info: " + asgGroup.error.Text());
    }
    var ids := Ids(asgGroup.value);
    var status := Ecs.GetClusterStatus(r, cluster);
    if status.Err? {
      return Failed(status.error);
    }
    r.aws.Send(NewestAmi(owner, image));
    var newestimage := r.aws.env.newestAmi(r.aws.calls);
    if newestimage.Err? {
      return Failed(Flatten("cannnot get newestami id: ", newestimage.error));
    }
    var newest := newestimage.value;
    var lists := ClassifyInstances(r, status.value, newest, cluster);
    if !lists.Done? {
      return match lists case Failed(e) => Failed(e) case Aborted(m) => Aborted(m) case Done(_) => Done(());
    }
    var c := lists.value;
    if |c.unusedInstances| != 0 {
      var output := ReplaceUnusedInstance(r, asg, c.unusedInstances, dryrun);
      if output.Err? {
        return Failed(Flatten("cannnot stop unused instance: ", output.error));
      }
    }
    if |c.ecsInstance| != 0 && r.deploy.current == Closed {
      var output := SwapInstance(r, c.ecsInstance, newest, dryrun, asg);
      match output
      case Failed(e) =>
        return Failed(Flatten("failed to replace instance: ", e));
      case Aborted(m) =>
        return Aborted(m);
      case Done(_) =>
    }
    if r.deploy.current != Closed {
      return Failed(NotSteady);
    }
    return Done(());
  }
}
