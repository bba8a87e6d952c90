/**
 * actions/command.go: the later iteration of the replacement run, built on
 * the snapshot record, and the two clean-up commands. The newest-image
 * lookup, the three list builders, optimizeClusterSize, the
 * snapshot-taking swapInstance, the unused-instance stop and the exported
 * DeregisterAMI this iteration calls have bodies this model does not
 * include; each is one request whose reply the environment decides. None of them fires an
 * event on the state machine, except that the swap's reply says whether it
 * left the machine running.
 */
module CommandIteration {
  import opened Wrappers
  import opened Records
  import opened Sdk
  import opened Fsm
  import opened Replacer
  import Apis
  import Ecs
  import Snapshot
  import Amis

  /** The steady-state error of the final check. */
  const NotSteady := Message("cluster is not steady state")

  /**
   * The final check and resize (actions/command.go:68-78): a machine that
   * is not closed fails the run without resizing; a closed one restores
   * the group to `size`.
   */
  function Restore(env: Env, log: seq<Call>, s: State, c: Config, clst: Cluster, size: int): (r: Run<Outcome<()>>)
    ensures s != Closed ==> r == Run(Failed(NotSteady), log, s)
    ensures s == Closed ==> r.log == log + [OptimizeClusterSize(clst, c.asgname, size)] && r.state == Closed
    ensures r.out.Done? <==> s == Closed && env.optimizeClusterSize(log + [OptimizeClusterSize(clst, c.asgname, size)]).None?
  {
    if s != Closed then Run(Failed(NotSteady), log, s)
    else
      var l1 := log + [OptimizeClusterSize(clst, c.asgname, size)];
      match env.optimizeClusterSize(l1)
      case Some(e) => Run(Failed(e), l1, s)
      case None => Run(Done(()), l1, s)
  }

  /**
   * The swap (actions/command.go:61-66), only when there are records and
   * the state read at line 47 (`s`, which nothing since has changed) is
   * closed; then the final check.
   */
  function SwapPhase(env: Env, log: seq<Call>, s: State, c: Config, newest: string, clst: Cluster, size: int): Run<Outcome<()>>
  {
    if |clst.ecsInstance| != 0 && s == Closed then
      var l1 := log + [SwapInstance(clst, newest, c.dryrun)];
      var reply := env.swapInstance(l1);
      var s1 := if reply.leftRunning then Running else s;
      match reply.result
      case Err(e) => Run(Failed(e), l1, s1)
      case Ok(_) => Restore(env, l1, s1, c, clst, size)
    else
      Restore(env, log, s, c, clst, size)
  }

  /**
   * Growth by one (actions/command.go:47-59), only when the snapshot has no
   * free instance and the machine is closed, followed by a new snapshot.
   */
  function Grow(env: Env, log: seq<Call>, s: State, c: Config, newest: string, clst: Cluster, size: int): Run<Outcome<()>>
  {
    if |clst.freeInstances| == 0 && s == Closed then
      var l1 := log + [OptimizeClusterSize(clst, c.asgname, clst.clusterSize + 1)];
      match env.optimizeClusterSize(l1)
      case Some(e) => Run(Failed(e), l1, s)
      case None => Regrow(env, l1, s, c, newest, size)
    else
      SwapPhase(env, log, s, c, newest, clst, size)
  }

  /** The new snapshot after growth (actions/command.go:55-58), then the swap phase on it. */
  function Regrow(env: Env, log: seq<Call>, s: State, c: Config, newest: string, size: int): Run<Outcome<()>>
  {
    var st := Ecs.ClusterStatus(env, log, c.asgname, c.clustername, newest);
    match st.out
    case Err(e) => Run(Failed(e), st.log, s)
    case Ok(clst) => SwapPhase(env, st.log, s, c, newest, clst, size)
  }

  /**
   * The unused instances (actions/command.go:30-45): start, stop them,
   * finish, and take a new snapshot; any failure ends the run there.
   */
  function Unused(env: Env, log: seq<Call>, s: State, c: Config, newest: string, clst: Cluster, size: int): Run<Outcome<()>>
  {
    if |clst.unusedInstances| == 0 then Grow(env, log, s, c, newest, clst, size)
    else
      match Transition(s, StartEvent)
      case Err(e) => Run(Failed(e), log, s)
      case Ok(s1) =>
        var l1 := log + [StopUnusedInstance(c.asgname, clst.unusedInstances, c.dryrun)];
        match env.stopUnusedInstance(l1)
        case Err(e) => Run(Failed(Flatten("cannnot stop unused instance: ", e)), l1, s1)
        case Ok(_) =>
          match Transition(s1, FinishEvent)
          case Err(e) => Run(Failed(e), l1, s1)
          case Ok(s2) => Reclassify(env, l1, s2, c, newest, size)
  }

  /** The new snapshot after the unused instances are stopped (actions/command.go:41-44), then growth. */
  function Reclassify(env: Env, log: seq<Call>, s: State, c: Config, newest: string, size: int): Run<Outcome<()>>
  {
    var st := Ecs.ClusterStatus(env, log, c.asgname, c.clustername, newest);
    match st.out
    case Err(e) => Run(Failed(e), st.log, s)
    case Ok(clst) => Grow(env, st.log, s, c, newest, clst, size)
  }

  /**
   * ReplaceInstance of actions/command.go:18-79: the newest image once,
   * the first snapshot (whose size is the one restored at the end), then
   * the phases above. Every error is returned at once, unchanged; the group
   * it returns is nil in every case and is not modelled.
   */
  function Replace(env: Env, log: seq<Call>, s: State, c: Config): Run<Outcome<()>>
  {
    var l1 := log + [NewestAmi(c.owner, c.image)];
    match env.newestAmi(l1)
    case Err(e) => Run(Failed(e), l1, s)
    case Ok(newest) =>
      var st := Ecs.ClusterStatus(env, l1, c.asgname, c.clustername, newest);
      match st.out
      case Err(e) => Run(Failed(e), st.log, s)
      case Ok(clst) => Unused(env, st.log, s, c, newest, clst, clst.clusterSize)
  }

  /**
   * The requests a run may send after the newest-image lookup: everything
   * names the configured group and cluster and the one newest image; the
   * unused stop has instances to stop; a resize is either to the first
   * size or one up from a snapshot without a free instance; the swap gets
   * a snapshot with records. There is no second newest-image lookup.
   */
  predicate Allowed(call: Call, c: Config, newest: string, size0: int)
  {
    match call
    case InfoAsg(a) => a == c.asgname
    case GetEcsInstance(cl, a, n, _) => cl == c.clustername && a == c.asgname && n == newest
    case GetUnusedInstance(cl, n) => cl == c.clustername && n == newest
    case GetFreeInstance(cl, a, n, _) => cl == c.clustername && a == c.asgname && n == newest
    case StopUnusedInstance(a, ids, d) => a == c.asgname && |ids| != 0 && d == c.dryrun
    case OptimizeClusterSize(snap, a, n) =>
      a == c.asgname && (n == size0 || (n == snap.clusterSize + 1 && |snap.freeInstances| == 0))
    case SwapInstance(snap, n, d) => n == newest && d == c.dryrun && |snap.ecsInstance| != 0
    case _ => false
  }

  /** `after` is `before` followed by allowed requests only. */
  ghost predicate Extends(before: seq<Call>, after: seq<Call>, c: Config, newest: string, size0: int)
  {
    |before| <= |after| && after[..|before|] == before &&
    forall k :: |before| <= k < |after| ==> Allowed(after[k], c, newest, size0)
  }

  lemma ExtendsTrans(a: seq<Call>, b: seq<Call>, d: seq<Call>, c: Config, newest: string, size0: int)
    requires Extends(a, b, c, newest, size0) && Extends(b, d, c, newest, size0)
    ensures Extends(a, d, c, newest, size0)
  {
    assert d[..|a|] == d[..|b|][..|a|];
    forall k | |a| <= k < |d|
      ensures Allowed(d[k], c, newest, size0)
    {
      if k < |b| {
        assert d[k] == d[..|b|][k];
      }
    }
  }

  lemma ExtendsOne(a: seq<Call>, call: Call, c: Config, newest: string, size0: int)
    requires Allowed(call, c, newest, size0)
    ensures Extends(a, a + [call], c, newest, size0)
  {
  }

  lemma StatusExtends(env: Env, log: seq<Call>, c: Config, newest: string, size0: int)
    ensures Extends(log, Ecs.ClusterStatus(env, log, c.asgname, c.clustername, newest).log, c, newest, size0)
  {
    Ecs.ClusterStatusCalls(env, log, c.asgname, c.clustername, newest);
  }

  lemma RestoreExtends(env: Env, log: seq<Call>, s: State, c: Config, clst: Cluster, newest: string, size0: int)
    ensures Extends(log, Restore(env, log, s, c, clst, size0).log, c, newest, size0)
  {
    if s == Closed {
      ExtendsOne(log, OptimizeClusterSize(clst, c.asgname, size0), c, newest, size0);
    }
  }

  lemma SwapPhaseExtends(env: Env, log: seq<Call>, s: State, c: Config, newest: string, clst: Cluster, size0: int)
    ensures Extends(log, SwapPhase(env, log, s, c, newest, clst, size0).log, c, newest, size0)
  {
    if |clst.ecsInstance| != 0 && s == Closed {
      var l1 := log + [SwapInstance(clst, newest, c.dryrun)];
      ExtendsOne(log, SwapInstance(clst, newest, c.dryrun), c, newest, size0);
      var reply := env.swapInstance(l1);
      var s1 := if reply.leftRunning then Running else s;
      RestoreExtends(env, l1, s1, c, clst, newest, size0);
      ExtendsTrans(log, l1, Restore(env, l1, s1, c, clst, size0).log, c, newest, size0);
    } else {
      RestoreExtends(env, log, s, c, clst, newest, size0);
    }
  }

  lemma RegrowExtends(env: Env, log: seq<Call>, s: State, c: Config, newest: string, size0: int)
    ensures Extends(log, Regrow(env, log, s, c, newest, size0).log, c, newest, size0)
  {
    var st := Ecs.ClusterStatus(env, log, c.asgname, c.clustername, newest);
    StatusExtends(env, log, c, newest, size0);
    if st.out.Ok? {
      SwapPhaseExtends(env, st.log, s, c, newest, st.out.value, size0);
      ExtendsTrans(log, st.log, SwapPhase(env, st.log, s, c, newest, st.out.value, size0).log, c, newest, size0);
    }
  }

  lemma GrowExtends(env: Env, log: seq<Call>, s: State, c: Config, newest: string, clst: Cluster, size0: int)
    ensures Extends(log, Grow(env, log, s, c, newest, clst, size0).log, c, newest, size0)
    ensures s != Closed ==> Grow(env, log, s, c, newest, clst, size0).log == log
  {
    if |clst.freeInstances| == 0 && s == Closed {
      var l1 := log + [OptimizeClusterSize(clst, c.asgname, clst.clusterSize + 1)];
      ExtendsOne(log, OptimizeClusterSize(clst, c.asgname, clst.clusterSize + 1), c, newest, size0);
      if env.optimizeClusterSize(l1).None? {
        var g := Regrow(env, l1, s, c, newest, size0);
        assert Grow(env, log, s, c, newest, clst, size0) == g;
        RegrowExtends(env, l1, s, c, newest, size0);
        ExtendsTrans(log, l1, g.log, c, newest, size0);
      } else {
        assert Grow(env, log, s, c, newest, clst, size0).log == l1;
      }
    } else {
      SwapPhaseExtends(env, log, s, c, newest, clst, size0);
    }
  }

  lemma ReclassifyExtends(env: Env, log: seq<Call>, s: State, c: Config, newest: string, size0: int)
    ensures Extends(log, Reclassify(env, log, s, c, newest, size0).log, c, newest, size0)
  {
    var st := Ecs.ClusterStatus(env, log, c.asgname, c.clustername, newest);
    StatusExtends(env, log, c, newest, size0);
    if st.out.Ok? {
      GrowExtends(env, st.log, s, c, newest, st.out.value, size0);
      ExtendsTrans(log, st.log, Grow(env, st.log, s, c, newest, st.out.value, size0).log, c, newest, size0);
    }
  }

  lemma UnusedExtends(env: Env, log: seq<Call>, s: State, c: Config, newest: string, clst: Cluster, size0: int)
    ensures Extends(log, Unused(env, log, s, c, newest, clst, size0).log, c, newest, size0)
  {
    if |clst.unusedInstances| == 0 {
      GrowExtends(env, log, s, c, newest, clst, size0);
    } else if s == Closed {
      var l1 := log + [StopUnusedInstance(c.asgname, clst.unusedInstances, c.dryrun)];
      ExtendsOne(log, StopUnusedInstance(c.asgname, clst.unusedInstances, c.dryrun), c, newest, size0);
      if env.stopUnusedInstance(l1).Ok? {
        ReclassifyExtends(env, l1, Closed, c, newest, size0);
        ExtendsTrans(log, l1, Reclassify(env, l1, Closed, c, newest, size0).log, c, newest, size0);
      }
    }
  }

  /**
   * The newest image is looked up once, first, and every later request
   * names it, the configured group and cluster; the only resizes are one
   * up from a snapshot without free instances, or back to the size of the
   * first snapshot; stops and swaps only get non-empty lists.
   */
  lemma ReplaceCalls(env: Env, log: seq<Call>, s: State, c: Config)
    ensures var run := Replace(env, log, s, c);
      var l1 := log + [NewestAmi(c.owner, c.image)];
      |l1| <= |run.log| && run.log[..|l1|] == l1 &&
      (env.newestAmi(l1).Err? ==> run.log == l1) &&
      (env.newestAmi(l1).Ok? ==>
         var newest := env.newestAmi(l1).value;
         var st := Ecs.ClusterStatus(env, l1, c.asgname, c.clustername, newest);
         Extends(l1, run.log, c, newest, if st.out.Ok? then st.out.value.clusterSize else 0))
  {
    var l1 := log + [NewestAmi(c.owner, c.image)];
    if env.newestAmi(l1).Ok? {
      var newest := env.newestAmi(l1).value;
      var st := Ecs.ClusterStatus(env, l1, c.asgname, c.clustername, newest);
      var size0 := if st.out.Ok? then st.out.value.clusterSize else 0;
      StatusExtends(env, l1, c, newest, size0);
      if st.out.Ok? {
        UnusedExtends(env, st.log, s, c, newest, st.out.value, size0);
        ExtendsTrans(l1, st.log, Unused(env, st.log, s, c, newest, st.out.value, size0).log, c, newest, size0);
      }
    }
  }

  /** The request that restores the group to `size`, whatever the snapshot. */
  predicate RestoresTo(call: Call, asg: string, size: int)
  {
    call.OptimizeClusterSize? && call.asgName == asg && call.size == size
  }

  lemma SwapPhaseDone(env: Env, log: seq<Call>, s: State, c: Config, newest: string, clst: Cluster, size: int)
    ensures var run := SwapPhase(env, log, s, c, newest, clst, size);
      !run.out.Aborted? &&
      (run.out.Done? ==> run.state == Closed && |run.log| > 0 && RestoresTo(run.log[|run.log| - 1], c.asgname, size))
  {
  }

  lemma GrowDone(env: Env, log: seq<Call>, s: State, c: Config, newest: string, clst: Cluster, size: int)
    ensures var run := Grow(env, log, s, c, newest, clst, size);
      !run.out.Aborted? &&
      (run.out.Done? ==> run.state == Closed && |run.log| > 0 && RestoresTo(run.log[|run.log| - 1], c.asgname, size))
  {
    SwapPhaseDone(env, log, s, c, newest, clst, size);
    var l1 := log + [OptimizeClusterSize(clst, c.asgname, clst.clusterSize + 1)];
    var st := Ecs.ClusterStatus(env, l1, c.asgname, c.clustername, newest);
    if st.out.Ok? {
      SwapPhaseDone(env, st.log, s, c, newest, st.out.value, size);
    }
  }

  lemma UnusedDone(env: Env, log: seq<Call>, s: State, c: Config, newest: string, clst: Cluster, size: int)
    ensures var run := Unused(env, log, s, c, newest, clst, size);
      !run.out.Aborted? &&
      (run.out.Done? ==> run.state == Closed && |run.log| > 0 && RestoresTo(run.log[|run.log| - 1], c.asgname, size))
  {
    GrowDone(env, log, s, c, newest, clst, size);
    var l1 := log + [StopUnusedInstance(c.asgname, clst.unusedInstances, c.dryrun)];
    var st := Ecs.ClusterStatus(env, l1, c.asgname, c.clustername, newest);
    if st.out.Ok? {
      GrowDone(env, st.log, Closed, c, newest, st.out.value, size);
    }
  }

  /**
   * A run never brings the process down. When it succeeds the machine is
   * closed and its last request restored the group to the size of the
   * first snapshot.
   */
  lemma ReplaceDone(env: Env, log: seq<Call>, s: State, c: Config)
    ensures var run := Replace(env, log, s, c);
      var l1 := log + [NewestAmi(c.owner, c.image)];
      !run.out.Aborted? &&
      (run.out.Done? ==>
         var st := Ecs.ClusterStatus(env, l1, c.asgname, c.clustername, env.newestAmi(l1).value);
         run.state == Closed && |run.log| > 0 && RestoresTo(run.log[|run.log| - 1], c.asgname, st.out.value.clusterSize))
  {
    var l1 := log + [NewestAmi(c.owner, c.image)];
    if env.newestAmi(l1).Ok? {
      var newest := env.newestAmi(l1).value;
      var st := Ecs.ClusterStatus(env, l1, c.asgname, c.clustername, newest);
      if st.out.Ok? {
        UnusedDone(env, st.log, s, c, newest, st.out.value, st.out.value.clusterSize);
      }
    }
  }

  /** None of the three requests that change the group. */
  predicate Changes(call: Call)
  {
    call.StopUnusedInstance? || call.OptimizeClusterSize? || call.SwapInstance?
  }

  /**
   * Started while another deployment holds the machine ("running"), a run
   * never succeeds, leaves the machine running and changes nothing: it
   * fails with the refused start when there are unused instances, and with
   * the steady-state error otherwise.
   */
  lemma ReplaceFromRunning(env: Env, log: seq<Call>, c: Config)
    ensures var run := Replace(env, log, Running, c);
      var l1 := log + [NewestAmi(c.owner, c.image)];
      run.state == Running && run.out.Failed? &&
      (forall k :: |log| <= k < |run.log| ==> !Changes(run.log[k])) &&
      (env.newestAmi(l1).Ok? ==>
         var st := Ecs.ClusterStatus(env, l1, c.asgname, c.clustername, env.newestAmi(l1).value);
         st.out.Ok? ==>
           run.log == st.log &&
           run.out.error == (if |st.out.value.unusedInstances| != 0 then Transition(Running, StartEvent).error else NotSteady))
  {
    var l1 := log + [NewestAmi(c.owner, c.image)];
    if env.newestAmi(l1).Ok? {
      var newest := env.newestAmi(l1).value;
      Ecs.ClusterStatusCalls(env, l1, c.asgname, c.clustername, newest);
    }
  }

  /**
   * Started closed, the machine is left running only by a failed stop of
   * the unused instances or by a swap that reported leaving it running.
   */
  lemma ReplaceFromClosed(env: Env, log: seq<Call>, c: Config)
    ensures var run := Replace(env, log, Closed, c);
      run.state == Running ==>
        |run.log| > 0 &&
        ((run.log[|run.log| - 1].StopUnusedInstance? && env.stopUnusedInstance(run.log).Err?) ||
         (run.log[|run.log| - 1].SwapInstance? && env.swapInstance(run.log).leftRunning))
  {
  }

  /** ReplaceInstance: the newest image and the first snapshot, whose size is the one restored at the end; then the phases. */
  method ReplaceInstance(r: Replacement, c: Config) returns (res: Outcome<()>)
    modifies r.aws, r.deploy
    ensures Run(res, r.aws.calls, r.deploy.current) == Replace(r.aws.env, old(r.aws.calls), old(r.deploy.current), c)
  {
    r.aws.Send(NewestAmi(c.owner, c.image));
    var newestimage := r.aws.env.newestAmi(r.aws.calls);
    if newestimage.Err? {
      return Failed(newestimage.error);
    }
    var newest := newestimage.value;
    var clst := Ecs.SetClusterStatus(r, c.asgname, c.clustername, newest);
    if clst.Err? {
      return Failed(clst.error);
    }
    var snapshot := clst.value;
    var defaultClusterSize := snapshot.clusterSize;
    res := StopUnusedPhase(r, c, newest, snapshot, defaultClusterSize);
  }

  /** Lines 30-45 of ReplaceInstance: start, stop the unused instances, finish and take a new snapshot; then the rest. */
  method StopUnusedPhase(r: Replacement, c: Config, newest: string, snapshot: Cluster, defaultClusterSize: int) returns (res: Outcome<()>)
    modifies r.aws, r.deploy
    ensures Run(res, r.aws.calls, r.deploy.current) == Unused(r.aws.env, old(r.aws.calls), old(r.deploy.current), c, newest, snapshot, defaultClusterSize)
  {
    if |snapshot.unusedInstances| == 0 {
      res := GrowPhase(r, c, newest, snapshot, defaultClusterSize);
      return;
    }
    var err, started := r.deploy.Event(StartEvent);
    if err.Some? {
      return Failed(err.value);
    }
    r.aws.Send(StopUnusedInstance(c.asgname, snapshot.unusedInstances, c.dryrun));
    var stopped := r.aws.env.stopUnusedInstance(r.aws.calls);
    if stopped.Err? {
      return Failed(Flatten("cannnot stop unused instance: ", stopped.error));
    }
    // `finish` is accepted here: `start` just was, and nothing since has moved the machine.
    var finishErr, finished := r.deploy.Event(FinishEvent);
    var clst := Ecs.SetClusterStatus(r, c.asgname, c.clustername, newest);
    if clst.Err? {
      return Failed(clst.error);
    }
    res := GrowPhase(r, c, newest, clst.value, defaultClusterSize);
  }

  /** Lines 47-78 of ReplaceInstance: the state is read, the group grows by one if needed, the swap, the final check and resize. */
  method GrowPhase(r: Replacement, c: Config, newest: string, snapshot: Cluster, defaultClusterSize: int) returns (res: Outcome<()>)
    modifies r.aws, r.deploy
    ensures Run(res, r.aws.calls, r.deploy.current) == Grow(r.aws.env, old(r.aws.calls), old(r.deploy.current), c, newest, snapshot, defaultClusterSize)
  {
    var state := r.deploy.Current();
    var clst := snapshot;
    if |clst.freeInstances| == 0 && state == "closed" {
      r.aws.Send(OptimizeClusterSize(clst, c.asgname, clst.clusterSize + 1));
      var grown := r.aws.env.optimizeClusterSize(r.aws.calls);
      if grown.Some? {
        return Failed(grown.value);
      }
      var regrown := Ecs.SetClusterStatus(r, c.asgname, c.clustername, newest);
      if regrown.Err? {
        return Failed(regrown.error);
      }
      clst := regrown.value;
    }
    res := SwapAndRestore(r, c, newest, clst, defaultClusterSize, state);
  }

  /** Lines 61-78 of ReplaceInstance, with `state` the name read at line 47. */
  method SwapAndRestore(r: Replacement, c: Config, newest: string, snapshot: Cluster, defaultClusterSize: int, state: string) returns (res: Outcome<()>)
    requires state == "closed" <==> r.deploy.current == Closed
    modifies r.aws, r.deploy
    ensures Run(res, r.aws.calls, r.deploy.current) == SwapPhase(r.aws.env, old(r.aws.calls), old(r.deploy.current), c, newest, snapshot, defaultClusterSize)
  {
    if |snapshot.ecsInstance| != 0 && state == "closed" {
      r.aws.Send(SwapInstance(snapshot, newest, c.dryrun));
      var swapped := r.aws.env.swapInstance(r.aws.calls);
      if swapped.leftRunning {
        var startErr, startLine := r.deploy.Event(StartEvent);
      }
      if swapped.result.Err? {
        return Failed(swapped.result.error);
      }
    }
    var final := r.deploy.Current();
    if final != "closed" {
      return Failed(NotSteady);
    }
    r.aws.Send(OptimizeClusterSize(snapshot, c.asgname, defaultClusterSize));
    var restored := r.aws.env.optimizeClusterSize(r.aws.calls);
    if restored.Some? {
      return Failed(restored.value);
    }
    return Done(());
  }

  /** The ids of a list of snapshots, in order. */
  function SnapshotIds(snaps: seq<Apis.Snapshot>): (ids: seq<string>)
    ensures |ids| == |snaps|
    ensures forall k :: 0 <= k < |snaps| ==> ids[k] == snaps[k].snapshotId
  {
    seq(|snaps|, k requires 0 <= k < |snaps| => snaps[k].snapshotId)
  }

  /** The snapshot id an image-by-snapshot query asks about, if the request is one. */
  function QueriedId(call: Call): (r: Option<string>)
    ensures forall id :: call == Snapshot.ImageBySnapshotQuery(id) ==> r == Some(id)
    ensures !call.DescribeImages? ==> r.None?
  {
    match call
    case DescribeImages(owners, filters) =>
      if owners == [] && |filters| == 1 && filters[0].name == "block-device-mapping.snapshot-id" && |filters[0].values| == 1
      then Some(filters[0].values[0]) else None
    case _ => None
  }

  /** The snapshot ids whose images were asked for, in request order. */
  function QueriedIds(cs: seq<Call>): seq<string>
  {
    if cs == [] then []
    else
      var rest := QueriedIds(cs[..|cs| - 1]);
      match QueriedId(cs[|cs| - 1])
      case Some(id) => rest + [id]
      case None => rest
  }

  lemma QueriedIdsSnoc(cs: seq<Call>, call: Call)
    ensures QueriedIds(cs + [call]) == QueriedIds(cs) + (if QueriedId(call).Some? then [QueriedId(call).value] else [])
  {
    assert (cs + [call])[..|cs|] == cs;
  }

  /** The reply to the last request, which is one of the sweep's three kinds, was an error. */
  predicate LastReplyFailed(env: Env, cs: seq<Call>)
  {
    |cs| > 0 &&
    match cs[|cs| - 1]
    case DescribeImages(_, _) => env.describeImages(cs).Err?
    case DescribeVolumes(_) => env.describeVolumes(cs).Err?
    case DeleteSnapshot(_, _) => env.deleteSnapshot(cs).Err?
    case _ => false
  }

  /**
   * One snapshot of RemoveSnapShots' loop: kept when some image still
   * uses it or some volume was made from it, deleted otherwise. The error
   * of any of the three requests, as its lookup wrapped it, is returned.
   */
  function Visit(env: Env, log: seq<Call>, id: string, dryRun: bool): Sent<Option<Error>>
  {
    var l1 := log + [Snapshot.ImageBySnapshotQuery(id)];
    var images: Result<Option<seq<Apis.Image>>> := Snapshot.PassThrough("Failed to describe images: ", env.describeImages(l1));
    match images
    case Err(e) => Sent(Some(e), l1)
    case Ok(Some(_)) => Sent(None, l1)
    case Ok(None) =>
      var l2 := l1 + [Snapshot.VolumeQuery(id)];
      var volumes: Result<Option<seq<Volume>>> := Snapshot.PassThrough("Failed to describe volumes: ", env.describeVolumes(l2));
      match volumes
      case Err(e) => Sent(Some(e), l2)
      case Ok(Some(_)) => Sent(None, l2)
      case Ok(None) =>
        var l3 := l2 + [DeleteSnapshot(id, dryRun)];
        var deleted: Result<Output> := Snapshot.PassThrough("Failed to delete snapshot: ", env.deleteSnapshot(l3));
        match deleted
        case Err(e) => Sent(Some(e), l3)
        case Ok(_) => Sent(None, l3)
  }

  /** The loop of RemoveSnapShots from index i on, stopping at the first error. */
  function Sweep(env: Env, log: seq<Call>, snaps: seq<Apis.Snapshot>, i: nat, dryRun: bool): Sent<Outcome<()>>
    requires i <= |snaps|
    decreases |snaps| - i
  {
    if i == |snaps| then Sent(Done(()), log)
    else
      var v := Visit(env, log, snaps[i].snapshotId, dryRun);
      match v.out
      case Some(e) => Sent(Failed(e), v.log)
      case None => Sweep(env, v.log, snaps, i + 1, dryRun)
  }

  /** The deletion at k follows, immediately, the two lookups of the same snapshot, and both came back with no output. */
  ghost predicate CheckedBefore(env: Env, cs: seq<Call>, k: int, dryRun: bool)
    requires 0 <= k < |cs| && cs[k].DeleteSnapshot?
  {
    var id := cs[k].snapshotId;
    2 <= k && cs[k].dryRun == dryRun &&
    cs[k - 2] == Snapshot.ImageBySnapshotQuery(id) && env.describeImages(cs[..k - 1]) == Ok(None) &&
    cs[k - 1] == Snapshot.VolumeQuery(id) && env.describeVolumes(cs[..k]) == Ok(None)
  }

  /** Every deletion from index `from` on was checked that way. */
  ghost predicate DeletesChecked(env: Env, cs: seq<Call>, from: int, dryRun: bool)
  {
    forall k :: 0 <= from <= k < |cs| && cs[k].DeleteSnapshot? ==> CheckedBefore(env, cs, k, dryRun)
  }

  /** A checked deletion stays checked in any longer log. */
  lemma CheckedExtends(env: Env, cs: seq<Call>, ext: seq<Call>, k: int, dryRun: bool)
    requires 0 <= k < |cs| <= |ext| && ext[..|cs|] == cs
    requires cs[k].DeleteSnapshot? && CheckedBefore(env, cs, k, dryRun)
    ensures ext[k].DeleteSnapshot? && CheckedBefore(env, ext, k, dryRun)
  {
    assert ext[k] == cs[k] && ext[k - 1] == cs[k - 1] && ext[k - 2] == cs[k - 2];
    assert ext[..k - 1] == cs[..k - 1];
    assert ext[..k] == cs[..k];
  }

  /**
   * One visit asks about exactly this snapshot's images, once; it deletes
   * the snapshot only after both lookups came back without output; and an
   * error comes from the reply to its last request.
   */
  lemma VisitShape(env: Env, log: seq<Call>, id: string, dryRun: bool)
    ensures var v := Visit(env, log, id, dryRun);
      |log| < |v.log| && v.log[..|log|] == log &&
      QueriedIds(v.log) == QueriedIds(log) + [id] &&
      (v.out.Some? ==> LastReplyFailed(env, v.log)) &&
      DeletesChecked(env, v.log, |log|, dryRun)
  {
    VisitLog(env, log, id, dryRun);
    VisitDeletes(env, log, id, dryRun);
  }

  /** The requests of one visit: the image lookup, then at most the volume lookup and the deletion. */
  lemma VisitLog(env: Env, log: seq<Call>, id: string, dryRun: bool)
    ensures var v := Visit(env, log, id, dryRun);
      var l1 := log + [Snapshot.ImageBySnapshotQuery(id)];
      var l2 := l1 + [Snapshot.VolumeQuery(id)];
      (v.log == l1 || v.log == l2 || v.log == l2 + [DeleteSnapshot(id, dryRun)]) &&
      |log| < |v.log| && v.log[..|log|] == log &&
      QueriedIds(v.log) == QueriedIds(log) + [id] &&
      (v.out.Some? ==> LastReplyFailed(env, v.log))
  {
    var l1 := log + [Snapshot.ImageBySnapshotQuery(id)];
    var l2 := l1 + [Snapshot.VolumeQuery(id)];
    QueriedIdsSnoc(log, Snapshot.ImageBySnapshotQuery(id));
    QueriedIdsSnoc(l1, Snapshot.VolumeQuery(id));
    QueriedIdsSnoc(l2, DeleteSnapshot(id, dryRun));
    assert l2[..|log|] == log;
  }

  /** A deletion in one visit was checked. */
  lemma VisitDeletes(env: Env, log: seq<Call>, id: string, dryRun: bool)
    ensures DeletesChecked(env, Visit(env, log, id, dryRun).log, |log|, dryRun)
  {
    var v := Visit(env, log, id, dryRun);
    var l2 := log + [Snapshot.ImageBySnapshotQuery(id)] + [Snapshot.VolumeQuery(id)];
    VisitLog(env, log, id, dryRun);
    if v.log == l2 + [DeleteSnapshot(id, dryRun)] {
      LookupsThenDelete(env, log, id, dryRun);
    } else {
      LookupsOnly(log, id, v.log);
    }
  }

  /** The lookups alone send no deletion. */
  lemma LookupsOnly(log: seq<Call>, id: string, cs: seq<Call>)
    requires var l1 := log + [Snapshot.ImageBySnapshotQuery(id)]; cs == l1 || cs == l1 + [Snapshot.VolumeQuery(id)]
    ensures forall k :: |log| <= k < |cs| ==> !cs[k].DeleteSnapshot?
  {
    assert forall k :: |log| <= k < |cs| ==> cs[k] == Snapshot.ImageBySnapshotQuery(id) || cs[k] == Snapshot.VolumeQuery(id);
  }

  /** A visit that reaches the deletion sends it right after the two lookups that found nothing. */
  lemma LookupsThenDelete(env: Env, log: seq<Call>, id: string, dryRun: bool)
    requires Visit(env, log, id, dryRun).log == log + [Snapshot.ImageBySnapshotQuery(id)] + [Snapshot.VolumeQuery(id)] + [DeleteSnapshot(id, dryRun)]
    ensures DeletesChecked(env, Visit(env, log, id, dryRun).log, |log|, dryRun)
  {
    var l1 := log + [Snapshot.ImageBySnapshotQuery(id)];
    var l2 := l1 + [Snapshot.VolumeQuery(id)];
    var l3 := l2 + [DeleteSnapshot(id, dryRun)];
    assert env.describeImages(l1) == Ok(None) && env.describeVolumes(l2) == Ok(None);
    assert l2 == log + [Snapshot.ImageBySnapshotQuery(id), Snapshot.VolumeQuery(id)];
    assert l3[..|log| + 3] == l3 == log + [Snapshot.ImageBySnapshotQuery(id), Snapshot.VolumeQuery(id), DeleteSnapshot(id, dryRun)];
    DeleteChecked(env, log, id, dryRun, l3);
    assert !l3[|log|].DeleteSnapshot? && !l3[|log| + 1].DeleteSnapshot?;
  }

  lemma DeleteChecked(env: Env, log: seq<Call>, id: string, dryRun: bool, cs: seq<Call>)
    requires |log| + 3 <= |cs|
    requires cs[..|log| + 3] == log + [Snapshot.ImageBySnapshotQuery(id), Snapshot.VolumeQuery(id), DeleteSnapshot(id, dryRun)]
    requires env.describeImages(log + [Snapshot.ImageBySnapshotQuery(id)]) == Ok(None)
    requires env.describeVolumes(log + [Snapshot.ImageBySnapshotQuery(id), Snapshot.VolumeQuery(id)]) == Ok(None)
    ensures cs[|log| + 2].DeleteSnapshot? && CheckedBefore(env, cs, |log| + 2, dryRun)
  {
    var k := |log| + 2;
    assert cs[k] == cs[..|log| + 3][k];
    assert cs[k - 1] == cs[..|log| + 3][k - 1];
    assert cs[k - 2] == cs[..|log| + 3][k - 2];
    assert cs[..k - 1] == cs[..|log| + 3][..k - 1] == log + [Snapshot.ImageBySnapshotQuery(id)];
    assert cs[..k] == cs[..|log| + 3][..k] == log + [Snapshot.ImageBySnapshotQuery(id), Snapshot.VolumeQuery(id)];
  }

  /** How many snapshot ids a run added to those already asked about. */
  function NewQueries(log: seq<Call>, after: seq<Call>): int
  {
    |QueriedIds(after)| - |QueriedIds(log)|
  }

  /**
   * The sweep asks about the snapshots from index i on, in list order and
   * each once, and about all of them iff it gets through; it never brings
   * the process down, and when it fails the reply to its last request was
   * an error.
   */
  lemma SweepVisits(env: Env, log: seq<Call>, snaps: seq<Apis.Snapshot>, i: nat, dryRun: bool)
    requires i <= |snaps|
    ensures var d := Sweep(env, log, snaps, i, dryRun);
      var k := NewQueries(log, d.log);
      |log| <= |d.log| && d.log[..|log|] == log &&
      0 <= k <= |snaps| - i &&
      QueriedIds(d.log) == QueriedIds(log) + SnapshotIds(snaps)[i..i + k] &&
      (d.out.Done? ==> i + k == |snaps|) &&
      !d.out.Aborted? &&
      (d.out.Failed? ==> k > 0 && LastReplyFailed(env, d.log))
  {
    SweepLog(env, log, snaps, i, dryRun);
    SweepQueries(env, log, snaps, i, dryRun);
  }

  /** The sweep only adds to the log, never crashes, and fails on an error reply to its last request. */
  lemma {:induction false} SweepLog(env: Env, log: seq<Call>, snaps: seq<Apis.Snapshot>, i: nat, dryRun: bool)
    requires i <= |snaps|
    ensures var d := Sweep(env, log, snaps, i, dryRun);
      |log| <= |d.log| && d.log[..|log|] == log &&
      !d.out.Aborted? &&
      (d.out.Failed? ==> LastReplyFailed(env, d.log))
    decreases |snaps| - i
  {
    if i < |snaps| {
      var v := Visit(env, log, snaps[i].snapshotId, dryRun);
      VisitLog(env, log, snaps[i].snapshotId, dryRun);
      if v.out.None? {
        SweepLog(env, v.log, snaps, i + 1, dryRun);
        var d := Sweep(env, v.log, snaps, i + 1, dryRun);
        assert d.log[..|log|] == d.log[..|v.log|][..|log|];
      }
    }
  }

  /** From index i on, the sweep asks about the next k snapshots of the list, all of them when it succeeds. */
  ghost predicate QueriesFollowList(env: Env, log: seq<Call>, snaps: seq<Apis.Snapshot>, i: nat, dryRun: bool)
    requires i <= |snaps|
  {
    var d := Sweep(env, log, snaps, i, dryRun);
    var k := NewQueries(log, d.log);
    0 <= k <= |snaps| - i &&
    QueriedIds(d.log) == QueriedIds(log) + SnapshotIds(snaps)[i..i + k] &&
    (d.out.Done? ==> i + k == |snaps|) &&
    (d.out.Failed? ==> k > 0)
  }

  /** The snapshot ids the sweep asks about: the next k of the list, all of them when it succeeds. */
  lemma {:induction false} SweepQueries(env: Env, log: seq<Call>, snaps: seq<Apis.Snapshot>, i: nat, dryRun: bool)
    requires i <= |snaps|
    ensures QueriesFollowList(env, log, snaps, i, dryRun)
    decreases |snaps| - i
  {
    if i == |snaps| {
      var q := QueriedIds(log);
      assert SnapshotIds(snaps)[i..i] == [];
      assert q + [] == q;
    } else {
      var v := Visit(env, log, snaps[i].snapshotId, dryRun);
      if v.out.None? {
        SweepQueries(env, v.log, snaps, i + 1, dryRun);
        QueriesStep(env, log, snaps, i, dryRun);
      } else {
        QueriesStop(env, log, snaps, i, dryRun);
      }
    }
  }

  /** A visit that fails ends the sweep after asking about its own snapshot only. */
  lemma QueriesStop(env: Env, log: seq<Call>, snaps: seq<Apis.Snapshot>, i: nat, dryRun: bool)
    requires i < |snaps| && Visit(env, log, snaps[i].snapshotId, dryRun).out.Some?
    ensures QueriesFollowList(env, log, snaps, i, dryRun)
  {
    var id := snaps[i].snapshotId;
    var v := Visit(env, log, id, dryRun);
    VisitQueried(env, log, id, dryRun);
    assert Sweep(env, log, snaps, i, dryRun) == Sent(Failed(v.out.value), v.log);
    assert SnapshotIds(snaps)[i..i + 1] == [id];
  }

  /** A visit that gets through puts its own snapshot in front of what the rest of the sweep asks about. */
  lemma QueriesStep(env: Env, log: seq<Call>, snaps: seq<Apis.Snapshot>, i: nat, dryRun: bool)
    requires i < |snaps|
    requires Visit(env, log, snaps[i].snapshotId, dryRun).out.None?
    requires QueriesFollowList(env, Visit(env, log, snaps[i].snapshotId, dryRun).log, snaps, i + 1, dryRun)
    ensures QueriesFollowList(env, log, snaps, i, dryRun)
  {
    var ids := SnapshotIds(snaps);
    var id := snaps[i].snapshotId;
    assert ids[i] == id;
    var v := Visit(env, log, id, dryRun);
    VisitQueried(env, log, id, dryRun);
    var d := Sweep(env, v.log, snaps, i + 1, dryRun);
    assert Sweep(env, log, snaps, i, dryRun) == d;
    Chain(QueriedIds(log), QueriedIds(v.log), QueriedIds(d.log), ids, i, NewQueries(v.log, d.log));
  }

  /** Prefixing one id to a stretch of the list extends the stretch by one to the left. */
  lemma Chain(q0: seq<string>, qv: seq<string>, qd: seq<string>, ids: seq<string>, i: nat, k: nat)
    requires i + 1 + k <= |ids|
    requires qv == q0 + [ids[i]] && qd == qv + ids[i + 1..i + 1 + k]
    ensures qd == q0 + ids[i..i + 1 + k] && |qd| - |q0| == k + 1
  {
    assert ids[i..i + 1 + k] == [ids[i]] + ids[i + 1..i + 1 + k];
  }

  /** One visit asks about exactly its own snapshot. */
  lemma VisitQueried(env: Env, log: seq<Call>, id: string, dryRun: bool)
    ensures QueriedIds(Visit(env, log, id, dryRun).log) == QueriedIds(log) + [id]
  {
    VisitLog(env, log, id, dryRun);
  }

  /** A snapshot is deleted only once its image lookup and its volume lookup have both come back with no output. */
  lemma {:induction false} SweepDeletes(env: Env, log: seq<Call>, snaps: seq<Apis.Snapshot>, i: nat, dryRun: bool)
    requires i <= |snaps|
    ensures DeletesChecked(env, Sweep(env, log, snaps, i, dryRun).log, |log|, dryRun)
    decreases |snaps| - i
  {
    var d := Sweep(env, log, snaps, i, dryRun);
    if i < |snaps| {
      var id := snaps[i].snapshotId;
      var v := Visit(env, log, id, dryRun);
      VisitShape(env, log, id, dryRun);
      if v.out.None? {
        SweepDeletes(env, v.log, snaps, i + 1, dryRun);
        SweepLog(env, v.log, snaps, i + 1, dryRun);
        forall k | |log| <= k < |v.log| && d.log[k].DeleteSnapshot?
          ensures CheckedBefore(env, d.log, k, dryRun)
        {
          assert d.log[k] == d.log[..|v.log|][k];
          CheckedExtends(env, v.log, d.log, k, dryRun);
        }
      }
    }
  }

  /** The snapshots in the order RemoveSnapShots visits them. */
  function NewestFirst(snaps: seq<Apis.Snapshot>): seq<Apis.Snapshot>
  {
    Apis.InsertionSorted(snaps, Apis.SnapshotNewer)
  }

  /**
   * RemoveSnapShots: the owner's snapshots (a failed or empty answer
   * brings the process down when the code reads it), newest first, then
   * the sweep. The error of the first lookup is never returned.
   */
  function RemoveSnapshotsOf(env: Env, log: seq<Call>, c: Config): Sent<Outcome<()>>
  {
    var l1 := log + [DescribeSnapshots([c.owner])];
    match env.describeSnapshots(l1)
    case Err(_) => Sent(Aborted(NilDereference), l1)
    case Ok(None) => Sent(Aborted(NilDereference), l1)
    case Ok(Some(snaps)) => Sweep(env, l1, NewestFirst(snaps), 0, c.dryrun)
  }

  /**
   * RemoveSnapShots visits every snapshot of the owner once, newest first
   * (no later snapshot started after an earlier one), stopping at the
   * first error, and deletes one only when both lookups returned no
   * output for it, with the configured dry-run flag.
   */
  lemma RemoveSnapshotsVisits(env: Env, log: seq<Call>, c: Config)
    ensures var d := RemoveSnapshotsOf(env, log, c);
      var l1 := log + [DescribeSnapshots([c.owner])];
      var reply := env.describeSnapshots(l1);
      |l1| <= |d.log| && d.log[..|l1|] == l1 &&
      (d.out.Aborted? <==> !(reply.Ok? && reply.value.Some?)) &&
      (reply.Ok? && reply.value.Some? ==>
         var order := NewestFirst(reply.value.value);
         multiset(order) == multiset(reply.value.value) && Apis.Sorted(order, Apis.SnapshotNewer) &&
         var k := NewQueries(l1, d.log);
         0 <= k <= |order| &&
         QueriedIds(d.log) == QueriedIds(l1) + SnapshotIds(order)[..k] &&
         (d.out.Done? ==> k == |order|) &&
         (d.out.Failed? ==> LastReplyFailed(env, d.log)) &&
         DeletesChecked(env, d.log, |l1|, c.dryrun))
  {
    var l1 := log + [DescribeSnapshots([c.owner])];
    var reply := env.describeSnapshots(l1);
    if reply.Ok? && reply.value.Some? {
      var snaps := reply.value.value;
      Apis.InsertionSortedPermutes(snaps, Apis.SnapshotNewer);
      Apis.SnapshotNewerIsStrictWeakOrder();
      Apis.InsertionSortedIsSorted(snaps, Apis.SnapshotNewer);
      SweepVisits(env, l1, NewestFirst(snaps), 0, c.dryrun);
      SweepDeletes(env, l1, NewestFirst(snaps), 0, c.dryrun);
    }
  }

  /** RemoveSnapShots: the in-place sort and the indexed loop over the sorted snapshots. */
  method RemoveSnapshots(r: Replacement, c: Config) returns (res: Outcome<()>)
    modifies r.aws
    ensures Sent(res, r.aws.calls) == RemoveSnapshotsOf(r.aws.env, old(r.aws.calls), c)
  {
    var unusedsnapshots := Snapshot.SearchUnusedSnapshot(r.aws, c.owner);
    if unusedsnapshots.Err? || unusedsnapshots.value.None? {
      return Aborted(NilDereference);
    }
    var snaps := unusedsnapshots.value.value;
    var a := Apis.SortedArray(snaps, Apis.SnapshotNewer);
    res := SweepLoop(r, a, c.dryrun);
  }

  /** The indexed loop of RemoveSnapShots over the sorted array. */
  method SweepLoop(r: Replacement, a: array<Apis.Snapshot>, dryRun: bool) returns (res: Outcome<()>)
    modifies r.aws
    ensures Sent(res, r.aws.calls) == Sweep(r.aws.env, old(r.aws.calls), a[..], 0, dryRun)
  {
    ghost var sorted := a[..];
    ghost var env := r.aws.env;
    ghost var l1 := r.aws.calls;
    var length := a.Length;
    var i := 0;
    while i < length
      invariant 0 <= i <= length
      invariant Sweep(env, l1, sorted, 0, dryRun) == Sweep(env, r.aws.calls, sorted, i, dryRun)
      decreases length - i
    {
      var err := VisitSnapshot(r, a[i].snapshotId, dryRun);
      if err.Some? {
        return Failed(err.value);
      }
      i := i + 1;
    }
    return Done(());
  }

  /** One turn of the RemoveSnapShots loop: the two lookups and, when both found nothing, the deletion. */
  method VisitSnapshot(r: Replacement, id: string, dryRun: bool) returns (err: Option<Error>)
    modifies r.aws
    ensures Sent(err, r.aws.calls) == Visit(r.aws.env, old(r.aws.calls), id, dryRun)
  {
    var images := Snapshot.ImageExists(r.aws, id);
    if images.Err? {
      return Some(images.error);
    }
    if images.value.None? {
      var volumes := Snapshot.VolumeExists(r.aws, id);
      if volumes.Err? {
        return Some(volumes.error);
      }
      if volumes.value.None? {
        var deleted := Snapshot.DeleteSnapshot(r.aws, id, dryRun);
        if deleted.Err? {
          return Some(deleted.error);
        }
      }
    }
    return None;
  }

  /**
   * RemoveAMIs: the group (a failed lookup brings the process down when
   * its result is read), the image of its first instance (an error is
   * ignored and leaves the id empty), then the deregistration, whose
   * failure is fatal.
   */
  function RemoveAmisOf(env: Env, log: seq<Call>, c: Config): (d: Sent<Outcome<()>>)
    ensures !d.out.Failed?
  {
    var l1 := log + [DescribeAutoScalingGroups([c.asgname])];
    match Amis.GroupOf(env.describeAutoScalingGroups(l1))
    case Err(_) => Sent(Aborted(NilDereference), l1)
    case Ok(g) =>
      var ami := Amis.AmiOf(env, l1, g.instances[0].instanceId);
      match ami.out
      case Aborted(m) => Sent(Aborted(m), ami.log)
      case Failed(_) => DeregisterOld(env, ami.log, "", c)
      case Done(image) => DeregisterOld(env, ami.log, image, c)
  }

  /** The call to the exported DeregisterAMI, whose error is fatal. */
  function DeregisterOld(env: Env, log: seq<Call>, imageId: string, c: Config): (d: Sent<Outcome<()>>)
    ensures d.log == log + [DeregisterAmi(imageId, c.owner, c.image, c.generation, c.dryrun)]
    ensures d.out.Done? <==> env.deregisterAmi(d.log).Ok?
    ensures !d.out.Done? ==> d.out == Aborted("deregister failed! " + env.deregisterAmi(d.log).error.Text())
  {
    var l1 := log + [DeregisterAmi(imageId, c.owner, c.image, c.generation, c.dryrun)];
    match env.deregisterAmi(l1)
    case Err(e) => Sent(Aborted("deregister failed! " + e.Text()), l1)
    case Ok(_) => Sent(Done(()), l1)
  }

  /**
   * RemoveAMIs returns no error at all: it succeeds exactly when the group
   * lookup and the deregistration succeed and the image lookup does not
   * crash, and the deregistration then names the image of the group's
   * first instance, or "" when that lookup returned an error.
   */
  lemma RemoveAmisOutcome(env: Env, log: seq<Call>, c: Config)
    ensures var d := RemoveAmisOf(env, log, c);
      var l1 := log + [DescribeAutoScalingGroups([c.asgname])];
      var g := Amis.GroupOf(env.describeAutoScalingGroups(l1));
      (g.Err? ==> d == Sent(Aborted(NilDereference), l1)) &&
      (g.Ok? ==>
         var ami := Amis.AmiOf(env, l1, g.value.instances[0].instanceId);
         (d.out.Done? <==> !ami.out.Aborted? && env.deregisterAmi(d.log).Ok?) &&
         (!ami.out.Aborted? ==>
            d.log == ami.log + [DeregisterAmi(if ami.out.Done? then ami.out.value else "", c.owner, c.image, c.generation, c.dryrun)] &&
            (d.out.Aborted? ==> d.out.reason == "deregister failed! " + env.deregisterAmi(d.log).error.Text())))
  {
  }

  method RemoveAmis(r: Replacement, c: Config) returns (res: Outcome<()>)
    modifies r.aws
    ensures Sent(res, r.aws.calls) == RemoveAmisOf(r.aws.env, old(r.aws.calls), c)
  {
    var asginstance := Amis.AsgInfo(r, c.asgname);
    if asginstance.Err? {
      return Aborted(NilDereference);
    }
    var instanceid := asginstance.value.instances[0].instanceId;
    var imageid := Amis.Ami(r, instanceid);
    if imageid.Aborted? {
      return Aborted(imageid.reason);
    }
    var image := if imageid.Done? then imageid.value else "";
    r.aws.Send(DeregisterAmi(image, c.owner, c.image, c.generation, c.dryrun));
    var output := r.aws.env.deregisterAmi(r.aws.calls);
    if output.Err? {
      return Aborted("deregister failed! " + output.error.Text());
    }
    return Done(());
  }
}
