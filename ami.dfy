/**
 * actions/ami.go: the checks made of the group and launch-template
 * replies, and the generation-based deregistration of old images. The
 * package-level `dryrun` that deregisterAMI reads is not defined in the
 * files modelled here; it is a parameter.
 */
module Amis {
  import opened Wrappers
  import opened Records
  import opened Sdk
  import opened Replacer
  import Apis
  import Snapshot

  /**
   * What asgInfo makes of the group query's reply: the first group when
   * there is one and it has instances, otherwise an error saying which
   * of the three checks failed.
   */
  function GroupOf(reply: Result<seq<Group>>): (r: Result<Group>)
    ensures r.Ok? <==> reply.Ok? && |reply.value| > 0 && |reply.value[0].instances| > 0
    ensures r.Ok? ==> r.value == reply.value[0]
    ensures reply.Err? ==>
      r.error.Text() == "failed to describe asg groups: " + reply.error.Text() && r.error.Unwrap() == Some(reply.error)
    ensures reply.Ok? && |reply.value| == 0 ==> r == Err(Message("asg not found"))
    ensures reply.Ok? && |reply.value| > 0 && |reply.value[0].instances| == 0 ==> r == Err(Message("no instances in asg"))
  {
    match reply
    case Err(e) => Err(Wrap("failed to describe asg groups: ", e))
    case Ok(groups) =>
      if |groups| == 0 then Err(Message("asg not found"))
      else if |groups[0].instances| == 0 then Err(Message("no instances in asg"))
      else Ok(groups[0])
  }

  /** asgInfo: one query for the named group, checked by GroupOf. */
  method AsgInfo(r: Replacement, asgName: string) returns (res: Result<Group>)
    modifies r.aws
    ensures r.aws.calls == old(r.aws.calls) + [DescribeAutoScalingGroups([asgName])]
    ensures res == GroupOf(r.aws.env.describeAutoScalingGroups(r.aws.calls))
  {
    r.aws.Send(DescribeAutoScalingGroups([asgName]));
    var output := r.aws.env.describeAutoScalingGroups(r.aws.calls);
    if output.Err? {
      return Err(Wrap("failed to describe asg groups: ", output.error));
    }
    if |output.value| == 0 {
      return Err(Message("asg not found"));
    }
    var asgGroup := output.value[0];
    if |asgGroup.instances| == 0 {
      return Err(Message("no instances in asg"));
    }
    return Ok(asgGroup);
  }

  /** `%+v` of the instance details; only the instance id is rendered here. */
  function Pretty(d: InstanceDetails): string
  {
    "{ InstanceId: \"" + d.instanceId + "\" }"
  }

  /** The template request Ami sends for an instance's launch template. */
  function TemplateQuery(t: LaunchTemplate): Call
  {
    DescribeLaunchTemplateVersions(t.templateId, [t.version])
  }

  /** The template lookup succeeds: some version came back and its data names an image. */
  predicate HasImage(reply: Result<seq<LaunchTemplateVersion>>)
  {
    reply.Ok? && |reply.value| > 0 && reply.value[0].imageId.Some?
  }

  /**
   * Ami: the image of the launch template of the instance. The instance is
   * described; without a launch template that is an error; otherwise the
   * template's own version is described and the image of its first
   * version is the answer. Both query errors are wrapped; an empty list
   * or missing image data brings the process down.
   */
  function AmiOf(env: Env, log: seq<Call>, id: string): (a: Sent<Outcome<string>>)
    ensures var l1 := log + [DescribeAutoScalingInstances([id])];
      var insts := env.describeAutoScalingInstances(l1);
      (insts.Err? ==>
         a.log == l1 && a.out.Failed? &&
         a.out.error.Text() == "failed to describe asg instances: " + insts.error.Text() &&
         a.out.error.Unwrap() == Some(insts.error)) &&
      (insts.Ok? && |insts.value| == 0 ==> a == Sent(Aborted(IndexOutOfRange), l1)) &&
      (insts.Ok? && |insts.value| > 0 && insts.value[0].launchTemplate.None? ==>
         a.log == l1 && a.out.Failed? &&
         a.out.error.Text() == "AutoScaling Group is missing Instances: " + Pretty(insts.value[0]))
    ensures var l1 := log + [DescribeAutoScalingInstances([id])];
      var insts := env.describeAutoScalingInstances(l1);
      insts.Ok? && |insts.value| > 0 && insts.value[0].launchTemplate.Some? ==>
        var l2 := l1 + [TemplateQuery(insts.value[0].launchTemplate.value)];
        var vs := env.describeLaunchTemplateVersions(l2);
        (vs.Err? ==>
           a.log == l2 && a.out.Failed? &&
           a.out.error.Text() == "failed to describe launch templates: " + vs.error.Text() &&
           a.out.error.Unwrap() == Some(vs.error)) &&
        (vs.Ok? && |vs.value| == 0 ==> a == Sent(Aborted(IndexOutOfRange), l2)) &&
        (vs.Ok? && |vs.value| > 0 && vs.value[0].imageId.None? ==> a == Sent(Aborted(NilDereference), l2))
    ensures a.out.Done? <==>
      var l1 := log + [DescribeAutoScalingInstances([id])];
      var insts := env.describeAutoScalingInstances(l1);
      insts.Ok? && |insts.value| > 0 && insts.value[0].launchTemplate.Some? &&
      HasImage(env.describeLaunchTemplateVersions(l1 + [TemplateQuery(insts.value[0].launchTemplate.value)]))
    ensures a.out.Done? ==>
      var l1 := log + [DescribeAutoScalingInstances([id])];
      var insts := env.describeAutoScalingInstances(l1);
      var l2 := l1 + [TemplateQuery(insts.value[0].launchTemplate.value)];
      a.log == l2 && a.out.value == env.describeLaunchTemplateVersions(l2).value[0].imageId.value
  {
    var l1 := log + [DescribeAutoScalingInstances([id])];
    match env.describeAutoScalingInstances(l1)
    case Err(e) => Sent(Failed(Wrap("failed to describe asg instances: ", e)), l1)
    case Ok(insts) =>
      if |insts| == 0 then Sent(Aborted(IndexOutOfRange), l1)
      else
        match insts[0].launchTemplate
        case None => Sent(Failed(Message("AutoScaling Group is missing Instances: " + Pretty(insts[0]))), l1)
        case Some(t) =>
          var l2 := l1 + [TemplateQuery(t)];
          match env.describeLaunchTemplateVersions(l2)
          case Err(e) => Sent(Failed(Wrap("failed to describe launch templates: ", e)), l2)
          case Ok(vs) =>
            if |vs| == 0 then Sent(Aborted(IndexOutOfRange), l2)
            else
              match vs[0].imageId
              case None => Sent(Aborted(NilDereference), l2)
              case Some(image) => Sent(Done(image), l2)
  }

  method Ami(r: Replacement, id: string) returns (res: Outcome<string>)
    modifies r.aws
    ensures Sent(res, r.aws.calls) == AmiOf(r.aws.env, old(r.aws.calls), id)
  {
    r.aws.Send(DescribeAutoScalingInstances([id]));
    var output := r.aws.env.describeAutoScalingInstances(r.aws.calls);
    if output.Err? {
      return Failed(Wrap("failed to describe asg instances: ", output.error));
    }
    if |output.value| == 0 {
      return Aborted(IndexOutOfRange);
    }
    var inst := output.value[0];
    if inst.launchTemplate.None? {
      return Failed(Message("AutoScaling Group is missing Instances: " + Pretty(inst)));
    }
    r.aws.Send(TemplateQuery(inst.launchTemplate.value));
    var latest := r.aws.env.describeLaunchTemplateVersions(r.aws.calls);
    if latest.Err? {
      return Failed(Wrap("failed to describe launch templates: ", latest.error));
    }
    if |latest.value| == 0 {
      return Aborted(IndexOutOfRange);
    }
    if latest.value[0].imageId.None? {
      return Aborted(NilDereference);
    }
    return Done(latest.value[0].imageId.value);
  }

  /** The deregistration requests for images[from..to], in order. */
  function DeregisterCalls(images: seq<Apis.Image>, from: nat, to: nat, dryRun: bool): (cs: seq<Call>)
    requires from <= to <= |images|
    ensures |cs| == to - from
    ensures forall k :: 0 <= k < |cs| ==> cs[k] == DeregisterImage(images[from + k].imageId, dryRun)
  {
    seq(to - from, k requires 0 <= k < to - from => DeregisterImage(images[from + k].imageId, dryRun))
  }

  lemma DeregisterCallsCons(images: seq<Apis.Image>, from: nat, to: nat, dryRun: bool)
    requires from < to <= |images|
    ensures DeregisterCalls(images, from, to, dryRun) ==
      [DeregisterImage(images[from].imageId, dryRun)] + DeregisterCalls(images, from + 1, to, dryRun)
  {
  }

  /** The loop of deregisterAMI from index j on: one request per image, stopping at the first failure. */
  function DeregisterFrom(env: Env, log: seq<Call>, images: seq<Apis.Image>, j: nat, dryRun: bool): Sent<Outcome<()>>
    requires j <= |images|
    decreases |images| - j
  {
    if j == |images| then Sent(Done(()), log)
    else
      var l := log + [DeregisterImage(images[j].imageId, dryRun)];
      match env.deregisterImage(l)
      case Err(e) => Sent(Failed(Wrap("failed to deregister image: ", e)), l)
      case Ok(_) => DeregisterFrom(env, l, images, j + 1, dryRun)
  }

  /** How many requests a run added to `log`. */
  function Added<T>(log: seq<Call>, d: Sent<T>): int
  {
    |d.log| - |log|
  }

  /** Every one of the first n requests after `log` was answered without error. */
  ghost predicate EarlierSucceeded(env: Env, log: seq<Call>, images: seq<Apis.Image>, j: nat, n: nat, dryRun: bool)
    requires j + n <= |images|
  {
    forall m :: j < m <= j + n ==> env.deregisterImage(log + DeregisterCalls(images, j, m, dryRun)).Ok?
  }

  /**
   * The loop asks to deregister images[j], images[j+1], ... in order. It
   * never brings anything down. It has deregistered to the end of the list
   * iff it succeeds, and every request before the last one it made
   * succeeded. On failure the last request failed and its error is
   * returned wrapped, with the deregistrations before it left in place.
   */
  lemma DeregisterFromTrace(env: Env, log: seq<Call>, images: seq<Apis.Image>, j: nat, dryRun: bool)
    requires j <= |images|
    ensures var d := DeregisterFrom(env, log, images, j, dryRun);
      var n := Added(log, d);
      0 <= n && j + n <= |images| &&
      d.log == log + DeregisterCalls(images, j, j + n, dryRun) &&
      !d.out.Aborted? &&
      (d.out.Done? <==> j + n == |images| && EarlierSucceeded(env, log, images, j, n, dryRun)) &&
      (d.out.Failed? ==>
         n > 0 && EarlierSucceeded(env, log, images, j, n - 1, dryRun) &&
         env.deregisterImage(d.log).Err? &&
         d.out.error == Wrap("failed to deregister image: ", env.deregisterImage(d.log).error))
  {
    TraceFrom(env, log, images, j, dryRun);
  }

  /** The trace DeregisterFromTrace describes, for the loop from index j on. */
  ghost predicate Traced(env: Env, log: seq<Call>, images: seq<Apis.Image>, j: nat, dryRun: bool)
    requires j <= |images|
  {
    TraceOf(env, log, images, j, dryRun, DeregisterFrom(env, log, images, j, dryRun))
  }

  /** `d` deregisters a prefix of the images from j on, and ends as that trace requires. */
  ghost predicate TraceOf(env: Env, log: seq<Call>, images: seq<Apis.Image>, j: nat, dryRun: bool, d: Sent<Outcome<()>>)
    requires j <= |images|
  {
    var n := Added(log, d);
    0 <= n && j + n <= |images| &&
    d.log == log + DeregisterCalls(images, j, j + n, dryRun) &&
    !d.out.Aborted? &&
    (d.out.Done? <==> j + n == |images| && EarlierSucceeded(env, log, images, j, n, dryRun)) &&
    (d.out.Failed? ==>
       n > 0 && EarlierSucceeded(env, log, images, j, n - 1, dryRun) &&
       env.deregisterImage(d.log).Err? &&
       d.out.error == Wrap("failed to deregister image: ", env.deregisterImage(d.log).error))
  }

  lemma {:induction false} TraceFrom(env: Env, log: seq<Call>, images: seq<Apis.Image>, j: nat, dryRun: bool)
    requires j <= |images|
    ensures Traced(env, log, images, j, dryRun)
    decreases |images| - j
  {
    if j < |images| {
      var l := log + [DeregisterImage(images[j].imageId, dryRun)];
      if env.deregisterImage(l).Ok? {
        TraceFrom(env, l, images, j + 1, dryRun);
        var d := DeregisterFrom(env, l, images, j + 1, dryRun);
        assert DeregisterFrom(env, log, images, j, dryRun) == d;
        TraceStep(env, log, images, j, dryRun, d);
      } else {
        assert l == log + DeregisterCalls(images, j, j + 1, dryRun);
      }
    }
  }

  /** A deregistration that succeeds puts its own request in front of the rest of the trace. */
  lemma TraceStep(env: Env, log: seq<Call>, images: seq<Apis.Image>, j: nat, dryRun: bool, d: Sent<Outcome<()>>)
    requires j < |images|
    requires env.deregisterImage(log + [DeregisterImage(images[j].imageId, dryRun)]).Ok?
    requires TraceOf(env, log + [DeregisterImage(images[j].imageId, dryRun)], images, j + 1, dryRun, d)
    ensures TraceOf(env, log, images, j, dryRun, d)
  {
    var l := log + [DeregisterImage(images[j].imageId, dryRun)];
    var n := Added(l, d);
    DeregisterCallsCons(images, j, j + 1 + n, dryRun);
    assert d.log == log + DeregisterCalls(images, j, j + 1 + n, dryRun);
    if d.out.Done? {
      TraceStepDone(env, log, images, j, dryRun, d);
    } else {
      TraceStepFailed(env, log, images, j, dryRun, d);
    }
  }

  lemma TraceStepDone(env: Env, log: seq<Call>, images: seq<Apis.Image>, j: nat, dryRun: bool, d: Sent<Outcome<()>>)
    requires j < |images|
    requires env.deregisterImage(log + [DeregisterImage(images[j].imageId, dryRun)]).Ok?
    requires TraceOf(env, log + [DeregisterImage(images[j].imageId, dryRun)], images, j + 1, dryRun, d)
    requires d.log == log + DeregisterCalls(images, j, j + Added(log, d), dryRun)
    requires d.out.Done?
    ensures j + Added(log, d) == |images| && EarlierSucceeded(env, log, images, j, Added(log, d), dryRun)
  {
    var l := log + [DeregisterImage(images[j].imageId, dryRun)];
    EarlierStep(env, log, images, j, Added(l, d), dryRun);
  }

  lemma TraceStepFailed(env: Env, log: seq<Call>, images: seq<Apis.Image>, j: nat, dryRun: bool, d: Sent<Outcome<()>>)
    requires j < |images|
    requires env.deregisterImage(log + [DeregisterImage(images[j].imageId, dryRun)]).Ok?
    requires TraceOf(env, log + [DeregisterImage(images[j].imageId, dryRun)], images, j + 1, dryRun, d)
    requires d.log == log + DeregisterCalls(images, j, j + Added(log, d), dryRun)
    requires d.out.Failed?
    ensures Added(log, d) > 0 && EarlierSucceeded(env, log, images, j, Added(log, d) - 1, dryRun)
  {
    var l := log + [DeregisterImage(images[j].imageId, dryRun)];
    EarlierStep(env, log, images, j, Added(l, d) - 1, dryRun);
  }

  lemma EarlierStep(env: Env, log: seq<Call>, images: seq<Apis.Image>, j: nat, n: nat, dryRun: bool)
    requires j + 1 + n <= |images|
    requires env.deregisterImage(log + [DeregisterImage(images[j].imageId, dryRun)]).Ok?
    ensures EarlierSucceeded(env, log, images, j, n + 1, dryRun) <==>
      EarlierSucceeded(env, log + [DeregisterImage(images[j].imageId, dryRun)], images, j + 1, n, dryRun)
  {
    var l := log + [DeregisterImage(images[j].imageId, dryRun)];
    assert log + DeregisterCalls(images, j, j + 1, dryRun) == l;
    forall m | j + 1 < m <= j + 1 + n
      ensures log + DeregisterCalls(images, j, m, dryRun) == l + DeregisterCalls(images, j + 1, m, dryRun)
    {
      DeregisterCallsCons(images, j, m, dryRun);
    }
    if EarlierSucceeded(env, l, images, j + 1, n, dryRun) {
      forall m | j < m <= j + 1 + n
        ensures env.deregisterImage(log + DeregisterCalls(images, j, m, dryRun)).Ok?
      {
        if m > j + 1 {
          assert env.deregisterImage(l + DeregisterCalls(images, j + 1, m, dryRun)).Ok?;
        }
      }
    }
    if EarlierSucceeded(env, log, images, j, n + 1, dryRun) {
      var j1 := j + 1;
      forall m | j1 < m <= j1 + n
        ensures env.deregisterImage(l + DeregisterCalls(images, j1, m, dryRun)).Ok?
      {
        assert env.deregisterImage(log + DeregisterCalls(images, j, m, dryRun)).Ok?;
      }
    }
  }

  /**
   * deregisterAMI: the images of the configured name, newest first; "no
   * outdated images" when there are at most `generation` of them;
   * otherwise every image from index generation-1 to the end is
   * deregistered. The `if false` block never adds to its list, so the list
   * is not modelled.
   */
  function Deregistration(env: Env, log: seq<Call>, c: Config, dryRun: bool): Sent<Outcome<()>>
  {
    var l1 := log + [Snapshot.ImageQuery(c.owner, c.image)];
    match env.describeImages(l1)
    case Err(e) => Sent(Failed(Wrap("failed to describe images: ", e)), l1)
    case Ok(None) => Sent(Aborted(NilDereference), l1)
    case Ok(Some(images)) =>
      var sorted := Apis.InsertionSorted(images, Apis.ImageNewer);
      if |sorted| <= c.generation then Sent(Failed(Message("no outdated images")), l1)
      else if c.generation < 1 then Sent(Aborted(IndexOutOfRange), l1)
      else DeregisterFrom(env, l1, sorted, c.generation - 1, dryRun)
  }

  /**
   * With at most `generation` images nothing is deregistered and the run
   * fails with "no outdated images". With more, and a generation of at
   * least 1, the requests go to the sorted images from index
   * generation-1 on, in order: on success all len-generation+1 of them,
   * and every image kept is at least as new as every image deregistered.
   * The first failure stops the run with the deregistrations before it in
   * place.
   */
  lemma DeregistrationRange(env: Env, log: seq<Call>, c: Config, dryRun: bool, images: seq<Apis.Image>)
    requires env.describeImages(log + [Snapshot.ImageQuery(c.owner, c.image)]) == Ok(Some(images))
    ensures var d := Deregistration(env, log, c, dryRun);
      var l1 := log + [Snapshot.ImageQuery(c.owner, c.image)];
      var sorted := Apis.InsertionSorted(images, Apis.ImageNewer);
      (|images| <= c.generation ==> d == Sent(Failed(Message("no outdated images")), l1)) &&
      (c.generation < 1 && c.generation < |images| ==> d == Sent(Aborted(IndexOutOfRange), l1)) &&
      (1 <= c.generation < |images| ==>
         var n := Added(l1, d);
         0 <= n && c.generation - 1 + n <= |images| &&
         d.log == l1 + DeregisterCalls(sorted, c.generation - 1, c.generation - 1 + n, dryRun) &&
         (d.out.Done? ==> n == |images| - c.generation + 1) &&
         (d.out.Failed? ==> n > 0 && env.deregisterImage(d.log).Err?) &&
         !d.out.Aborted?)
    ensures 1 <= c.generation < |images| ==>
      var sorted := Apis.InsertionSorted(images, Apis.ImageNewer);
      forall a, b :: 0 <= a < c.generation - 1 <= b < |sorted| ==> !Apis.ImageNewer(sorted[b], sorted[a])
  {
    var sorted := Apis.InsertionSorted(images, Apis.ImageNewer);
    Apis.ImageNewerIsStrictWeakOrder();
    Apis.InsertionSortedIsSorted(images, Apis.ImageNewer);
    if 1 <= c.generation < |images| {
      DeregisterFromTrace(env, log + [Snapshot.ImageQuery(c.owner, c.image)], sorted, c.generation - 1, dryRun);
    }
  }

  /** deregisterAMI: the query, an in-place newest-first sort, and the loop from index generation-1. */
  method DeregisterAmi(r: Replacement, c: Config, dryRun: bool) returns (res: Outcome<()>)
    modifies r.aws
    ensures Sent(res, r.aws.calls) == Deregistration(r.aws.env, old(r.aws.calls), c, dryRun)
  {
    var gen := c.generation;
    r.aws.Send(Snapshot.ImageQuery(c.owner, c.image));
    var i := r.aws.env.describeImages(r.aws.calls);
    if i.Err? {
      return Failed(Wrap("failed to describe images: ", i.error));
    }
    if i.value.None? {
      return Aborted(NilDereference);
    }
    var images := i.value.value;
    var a := Apis.SortedArray(images, Apis.ImageNewer);
    var len := a.Length;
    if len <= gen {
      return Failed(Message("no outdated images"));
    }
    if gen < 1 {
      return Aborted(IndexOutOfRange);
    }
    res := DeregisterLoop(r, a, gen, dryRun);
  }

  /** The loop of deregisterAMI over the sorted array, from index gen-1 to the end. */
  method DeregisterLoop(r: Replacement, a: array<Apis.Image>, gen: int, dryRun: bool) returns (res: Outcome<()>)
    requires 1 <= gen <= a.Length
    modifies r.aws
    ensures Sent(res, r.aws.calls) == DeregisterFrom(r.aws.env, old(r.aws.calls), a[..], gen - 1, dryRun)
  {
    ghost var sorted := a[..];
    ghost var env := r.aws.env;
    ghost var l1 := r.aws.calls;
    var len := a.Length;
    var j := gen - 1;
    while j < len
      invariant gen - 1 <= j <= len
      invariant DeregisterFrom(env, l1, sorted, gen - 1, dryRun) == DeregisterFrom(env, r.aws.calls, sorted, j, dryRun)
      decreases len - j
    {
      var imageid := a[j].imageId;
      r.aws.Send(DeregisterImage(imageid, dryRun));
      var output := r.aws.env.deregisterImage(r.aws.calls);
      if output.Err? {
        return Failed(Wrap("failed to deregister image: ", output.error));
      }
      j := j + 1;
    }
    return Done(());
  }

  /**
   * How many of `len` images an uninterrupted deregisterAMI run leaves in
   * place, as written: all of them up to `generation`, but only
   * generation-1 once there are more.
   */
  function KeptAsWritten(len: int, generation: int): int
  {
    if len <= generation then len else generation - 1
  }

  /** The kept count as written is the one Deregistration produces when every deregistration succeeds. */
  lemma DeregistrationKeeps(env: Env, log: seq<Call>, c: Config, dryRun: bool, images: seq<Apis.Image>)
    requires env.describeImages(log + [Snapshot.ImageQuery(c.owner, c.image)]) == Ok(Some(images))
    requires c.generation >= 1
    requires forall l :: env.deregisterImage(l).Ok?
    ensures var d := Deregistration(env, log, c, dryRun);
      var n := Added(log + [Snapshot.ImageQuery(c.owner, c.image)], d);
      |images| - n == KeptAsWritten(|images|, c.generation)
  {
    DeregistrationRange(env, log, c, dryRun, images);
  }

  /**
   * The counterexample: with generation 2, two images are both kept, but
   * a third image makes the run keep only one of the three.
   */
  lemma KeptAsWrittenShrinks()
    ensures KeptAsWritten(2, 2) == 2 && KeptAsWritten(3, 2) == 1
  {
  }

  /**
   * The evidently intended behaviour: keep the `generation` newest images
   * and deregister the rest, starting at index generation.
   */
  function DeregistrationIntended(env: Env, log: seq<Call>, c: Config, dryRun: bool): Sent<Outcome<()>>
  {
    var l1 := log + [Snapshot.ImageQuery(c.owner, c.image)];
    match env.describeImages(l1)
    case Err(e) => Sent(Failed(Wrap("failed to describe images: ", e)), l1)
    case Ok(None) => Sent(Aborted(NilDereference), l1)
    case Ok(Some(images)) =>
      var sorted := Apis.InsertionSorted(images, Apis.ImageNewer);
      if |sorted| <= c.generation then Sent(Failed(Message("no outdated images")), l1)
      else if c.generation < 0 then Sent(Aborted(IndexOutOfRange), l1)
      else DeregisterFrom(env, l1, sorted, c.generation, dryRun)
  }

  /**
   * Run to completion, the intended deregistration keeps exactly the
   * min(len, generation) newest images, so adding an image never lowers
   * the number kept.
   */
  lemma DeregistrationIntendedKeeps(env: Env, log: seq<Call>, c: Config, dryRun: bool, images: seq<Apis.Image>)
    requires env.describeImages(log + [Snapshot.ImageQuery(c.owner, c.image)]) == Ok(Some(images))
    requires c.generation >= 0
    requires forall l :: env.deregisterImage(l).Ok?
    ensures var d := DeregistrationIntended(env, log, c, dryRun);
      var l1 := log + [Snapshot.ImageQuery(c.owner, c.image)];
      var n := Added(l1, d);
      var sorted := Apis.InsertionSorted(images, Apis.ImageNewer);
      |images| - n == KeptIntended(|images|, c.generation) &&
      (c.generation < |images| ==> d.log == l1 + DeregisterCalls(sorted, c.generation, |images|, dryRun))
  {
    if c.generation < |images| {
      var l1 := log + [Snapshot.ImageQuery(c.owner, c.image)];
      var sorted := Apis.InsertionSorted(images, Apis.ImageNewer);
      var d := DeregisterFrom(env, l1, sorted, c.generation, dryRun);
      assert DeregistrationIntended(env, log, c, dryRun) == d;
      DeregisterFromTrace(env, l1, sorted, c.generation, dryRun);
      if d.out.Failed? {
        assert false;
      }
    }
  }

  /** min(len, generation): the number of images the intended run keeps. */
  function KeptIntended(len: int, generation: int): int
  {
    if len <= generation then len else generation
  }

  /** More images never means fewer kept. */
  lemma KeptIntendedMonotone(len1: int, len2: int, generation: int)
    requires len1 <= len2
    ensures KeptIntended(len1, generation) <= KeptIntended(len2, generation)
  {
  }
}
