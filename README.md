# ami-replacer in Dafny

This project models the decision-making core of ami-replacer. The tool
rolls the container instances of an AWS auto-scaling group over to the
newest machine image of a name. It also removes obsolete images and
unused snapshots.

What is modelled:

- the deployment state machine, `closed` ⇄ `running` (`Fsm`);
- the container-instance classification of the older `ReplaceInstance`
  in actions/asg.go. This includes the state-machine-bracketed stop of
  unused instances with its bounded retry, and the zone-by-zone swap
  (`AsgIteration`, `Backoff`);
- the snapshot record of actions/ecs.go (`Ecs`);
- the later orchestration of actions/command.go. This covers the
  replacement run, the snapshot sweep and the image clean-up
  (`CommandIteration`);
- the launch-template and group checks and the generation-based
  deregistration of actions/ami.go (`Amis`);
- the newest-image selection and the four lookups of actions/snapshot.go
  (`Snapshot`);
- the newest-first comparators of apis/apis.go, and the in-place
  insertion sort the callers apply with them (`Apis`);
- the region, profile and list validators of config/validator.go
  (`Validator`);
- the leveled logger of log/log.go (`Log`).

How the cloud is modelled. The program only ever talks to the cloud
through requests, and `Sdk.Aws` logs them in `calls`. The reply to a
request is a fixed function of the log up to and including that request
(`Sdk.Env`). So, for example, an instance can still be stopping at one
probe and stopped at the next. Each imperative operation follows the
same pattern:

- a pure function over (environment, log, state machine state) gives its
  trace;
- a method, with the same branches as the Go code, is proved to produce
  exactly that trace;
- lemmas state what the source promises about the trace.

Other modelling choices:

- A Go panic or `log.Fatal` becomes the `Aborted` outcome. Panics include
  a nil dereference and an index out of range.
- `fmt.Errorf("...%v", err)` flattens the error into its text
  (`Wrappers.Flatten`).
- `xerrors.Errorf("...%w", err)` keeps the cause, which `Unwrap` returns
  (`Wrappers.Wrap`).
- An output whose pointer the code tests against nil is an `Option`.

The three lists of a classification overlap. An idle instance on the
newest image is listed as free and is also given a record in
`ecsInstance` (actions/asg.go:60-75). `AsgIteration.FreeAlsoInEcs`
proves this.

actions/asg.go and actions/command.go are two iterations of the same
package, and they cannot compile together. Each has its own module.
Several functions that the two iterations call have bodies this model
does not include:

- `NewestAMI` (actions/command.go:20) and `GetNewestAMI`
  (actions/asg.go:46);
- `getECSInstance`, `getUnusedInstance` and `getFreeInstance`;
- `optimizeClusterSize`;
- the snapshot-taking `swapInstance`;
- `replaceUnusedInstance`;
- the exported `DeregisterAMI`;
- `InfoAsg` and `AmiAsg` for the older iteration.

Each of these except `AmiAsg` is one logged request whose reply the
environment decides. `AmiAsg` is not logged: its reply is a fixed
function of the instance id.
The reply to the command iteration's `swapInstance` also says whether it
left the state machine running.

`replaceUnusedInstance` is a special case. The version in actions/asg.go
fires "start" itself. actions/command.go:31 fires "start" just before
calling it, so that version would always be refused. The command
iteration's call is therefore a plain request that does not touch the
state machine.

## Model

| member | source | states |
|---|---|---|
| Fsm.Deploy.constructor | fsm/fsm.go:24-41 | A new Deploy keeps its label `To` and starts in "closed". |
| Fsm.Transition | fsm/fsm.go:32-35 | An event is accepted iff it is "start" from closed or "finish" from running. "start" leads to running and "finish" to closed. |
| Fsm.Deploy.Current | fsm/fsm.go:30-35 | The state is always exactly "closed" or "running", and it is "closed" iff the machine is closed. |
| Fsm.Deploy.Event | fsm/fsm.go:32-45 | An accepted event changes the state as the table says and logs one enter-state line. A refused one returns an error and changes nothing. The callback never changes `To` or the state. |
| Fsm.FireAlternates | fsm/fsm.go:32-35 | A sequence of events is accepted from a state iff the events alternate starting with the one that state allows. The final state is then fixed by the count. |
| Fsm.NoDoubleStart | fsm/fsm.go:33-34 | In an accepted sequence from closed, every "start" is followed by a "finish", so two "start"s in a row are refused. |
| Fsm.StartThenFinish | fsm/fsm.go:33-34 | "start" then "finish" returns closed to closed. |
| Log.ToString | log/log.go:78-90 | The four level constants map to the four level names, and any other level gives "unknown". |
| Log.ToLevel | log/log.go:92-104 | Parsing succeeds iff the string is one of the four level names, and toString then gives the string back. Any other string gives an error together with DisabledLevel. |
| Log.LevelRoundTrip | log/log.go:78-104 | toLevel(toString(l)) is l, with no error, for each of the four levels. |
| Log.Logging.constructor | log/log.go:48-54 | The initial level is Info, an output is set and nothing has been written. |
| Log.Logging.SetOutput | log/log.go:67-76 | Setting a nil writer removes the output and changes nothing else. |
| Log.Logging.GetLevel | log/log.go:107-110 | The name of the current level. |
| Log.Logging.SetLevel | log/log.go:113-121 | It succeeds iff the name is valid, and GetLevel then returns that name. An invalid name returns an error and keeps the level. |
| Log.Logging.Print | log/log.go:123-155 | A line is written iff the logger's level is at least the current level and an output is set. |
| Log.Logging.Fatal | log/log.go:157-176 | Fatal ignores the level, writes the line if there is an output, and always aborts. |
| Log.InitialLevelSuppressesDebug | log/log.go:38-126 | At the initial Info level, Debug lines are suppressed and Info lines are written. |
| Log.DebugLevelLetsDebugThrough | log/log.go:113-129 | After SetLevel("debug"), Debug lines are written iff there is an output. |
| Log.NoOutputWritesNothing | log/log.go:71-129 | With no output, no print writes anything, whatever the levels. |
| Validator.IndexOf | config/validator.go:32 | The first position of a character, or the length when it is absent. |
| Validator.FirstDashEndsMiddle | config/validator.go:32 | In an accepted region, the first '-' after the prefix ends the word run, because `\w` never matches '-'. |
| Validator.IsValidRegion | config/validator.go:30-34 | True iff the string is us/eu/ap/sa/ca, then '-', one or more word characters, '-', one or more digits, and nothing more. This is the anchored pattern, stated independently as a ghost predicate. |
| Validator.DeployedRegionIsValid | config/validator.go:32 | "ap-northeast-1" is accepted. |
| Validator.GovCloudRegionIsInvalid | config/validator.go:32 | "us-gov-west-1" is rejected, because its middle part contains '-'. |
| Validator.ParseRegion | config/validator.go:22-27 | The input comes back unchanged, with a "not a valid region" error iff the region is invalid. |
| Validator.StringInSlice | config/validator.go:72-79 | The search loop returns true iff the string is an element of the list. |
| Validator.LeadingSpace | config/validator.go:61-63 | The length of the run of leading white space. |
| Validator.TrailingSpace | config/validator.go:61-63 | The length of the run of trailing white space. |
| Validator.TrimSpace | config/validator.go:61-63 | The result is the input with its leading and trailing white space removed, and it neither starts nor ends with white space. |
| Validator.TrimPrefix | config/validator.go:62 | One leading copy of the prefix is removed when it is present, and the input is unchanged otherwise. |
| Validator.NormalizeProfile | config/validator.go:60-66 | A kept name is non-empty and neither starts nor ends with white space. |
| Validator.NamedProfile | config/validator.go:60-66 | " profile dev " is normalised to "dev". |
| Validator.Normalized | config/validator.go:59-63 | Each captured name is normalised, in match order. |
| Validator.CollectAppend | config/validator.go:50-68 | Collecting over two file lists is collecting over each, one after the other. |
| Validator.KeptMembers | config/validator.go:64-66 | A name is kept iff some match normalised to it. |
| Validator.CollectMembers | config/validator.go:50-68 | A profile is listed iff some match of some file normalises to it. |
| Validator.ConfigBeforeCredentials | config/validator.go:49-68 | The profiles of the config file come before those of the credentials file. |
| Validator.ProfilesMembers | config/validator.go:46-70 | A profile is listed iff some match normalises to it, and every listed profile is non-empty and trimmed. |
| Validator.FileProfiles | config/validator.go:59-67 | The loop over one file's matches appends exactly the kept normalised names, in order. |
| Validator.ExistingProfiles | config/validator.go:46-70 | The nested loops produce exactly the profiles of the config file, then those of the credentials file. |
| Validator.IsValidProfile | config/validator.go:37-39 | True iff the profile is one of the existing profiles. |
| Apis.LexIrreflexive | apis/apis.go:78 | No creation date is greater than itself. |
| Apis.LexTransitive | apis/apis.go:78 | The string order on creation dates is transitive. |
| Apis.LexTotal | apis/apis.go:78 | Two different creation dates are always ordered one way or the other. |
| Apis.ImageNewerIsStrictWeakOrder | apis/apis.go:77-79 | ImageSlice.Less is irreflexive, asymmetric and transitive, and incomparability is transitive. |
| Apis.SnapshotNewerIsStrictWeakOrder | apis/apis.go:89-93 | VolumeSlice.Less (a later StartTime first) is a strict weak order. |
| Apis.Insert | apis/apis.go:68-93 | Inserting one element makes the list one longer. |
| Apis.InsertionSorted | apis/apis.go:68-93 | Sorting keeps the length. |
| Apis.InsertPermutes | apis/apis.go:68-93 | Inserting adds exactly that element to the multiset. |
| Apis.InsertionSortedPermutes | apis/apis.go:68-93 | The sorted list is a permutation of the input. |
| Apis.InsertKeepsSorted | apis/apis.go:68-93 | Inserting into a sorted list keeps it sorted under a strict weak order. |
| Apis.InsertionSortedIsSorted | apis/apis.go:68-93 | No element is strictly before its predecessor in the sorted list. |
| Apis.Swap | apis/apis.go:73-87 | Exactly positions i and j are exchanged, nothing else changes, and the contents are a permutation. |
| Apis.SinkInto | apis/apis.go:68-93 | One insertion step of the in-place sort inserts element i into the sorted prefix and leaves the rest alone. |
| Apis.SinkStep | apis/apis.go:68-93 | Swapping the element one place further left, past a larger predecessor, keeps the order the insertion ends in. |
| Apis.SortBy | apis/apis.go:68-93 | The in-place sort built from Less and Swap leaves the sorted permutation of the old contents in the array. |
| Apis.SortedArray | apis/apis.go:68-93 | A reply's list, put in a new array and sorted in place, holds the insertion-sorted order of the list. |
| Records.NewAsgInstance | actions/replacer.go:17-28 | The record holds exactly the given fields, and the ones the classification does not set are left at their zero values. |
| Snapshot.PassThrough | actions/snapshot.go:35-87 | On success the reply is passed on unchanged. On failure the error is wrapped behind its prefix, its cause can be recovered, and there is no output. |
| Snapshot.DeleteSnapshot | actions/snapshot.go:29-40 | One DeleteSnapshot request with the dry-run flag, and its reply passed through. |
| Snapshot.SearchUnusedSnapshot | actions/snapshot.go:42-54 | One DescribeSnapshots request for the owner, and its reply passed through. |
| Snapshot.VolumeExists | actions/snapshot.go:56-71 | One DescribeVolumes request filtered by "snapshot-id", and its reply passed through. |
| Snapshot.ImageExists | actions/snapshot.go:73-88 | One DescribeImages request filtered by "block-device-mapping.snapshot-id", and its reply passed through. |
| Snapshot.NewestFailures | actions/snapshot.go:19-25 | A failed query is a wrapped error with no id. A missing or empty list crashes. |
| Snapshot.Newest | actions/snapshot.go:18-26 | newestAMI's answer from the image query's reply: the error wrapped behind "Failed to describe images: ", a crash on a missing or empty list, otherwise the id of the first image in newest-first order. |
| Snapshot.NewestIsNewest | actions/snapshot.go:24-26 | On a non-empty list the id is that of a listed image that no listed image is newer than. |
| Snapshot.NewestAmi | actions/snapshot.go:12-27 | One query, then the in-place newest-first sort and its element 0. It is proved equal to `Newest`. |
| Amis.GroupOf | actions/ami.go:59-70 | The first group is returned iff the lookup succeeds with a group that has instances. Otherwise the error is wrapped, or the result is "asg not found" or "no instances in asg". |
| Amis.AsgInfo | actions/ami.go:52-71 | One DescribeAutoScalingGroups request for the name, and the checks of `GroupOf`. |
| Amis.AmiOf | actions/ami.go:19-50 | A wrapped "failed to describe asg instances: " error. A crash on an empty instance list. An error naming the instance when it has no launch template. A wrapped "failed to describe launch templates: " error. A crash on an empty version list (index) or missing image data (nil). Otherwise success, with the first version's image id. |
| Amis.Ami | actions/ami.go:19-50 | The method sends the requests of `AmiOf` and returns its outcome. |
| Amis.DeregisterCalls | actions/ami.go:103-108 | One DeregisterImage request per image of the range, in order. |
| Amis.DeregisterCallsCons | actions/ami.go:93-112 | The requests of a range are the first image's request followed by those of the rest. |
| Amis.DeregisterFrom | actions/ami.go:93-112 | The loop from an index to the end, one deregistration per image, stopping at the first refusal with the error wrapped behind "failed to deregister image: ". |
| Amis.DeregisterFromTrace | actions/ami.go:93-112 | The loop deregisters a prefix of the range, in order, and never crashes. It succeeds iff it reaches the end with every request accepted. The first refused request stops it with a wrapped error, and the earlier deregistrations remain. |
| Amis.TraceFrom | actions/ami.go:93-112 | By induction on the index, the loop from any index on follows the trace `DeregisterFromTrace` states. |
| Amis.TraceStep | actions/ami.go:105-111 | An accepted deregistration puts its request in front of the trace of the rest of the loop. |
| Amis.TraceStepDone | actions/ami.go:93-113 | After an accepted first request, a loop that ends successfully reached the end of the list with every request accepted. |
| Amis.TraceStepFailed | actions/ami.go:105-111 | After an accepted first request, a loop that fails had every request before its last one accepted. |
| Amis.EarlierStep | actions/ami.go:105-111 | After an accepted first request, the requests of a range were all accepted iff those after the first one were. |
| Amis.DeregistrationRange | actions/ami.go:73-114 | At most gen images gives "no outdated images" and nothing is deregistered. Otherwise the sorted images from index gen-1 to the end are deregistered, and every kept image is no older than any deregistered one. gen < 1 crashes whenever there are more than gen images. |
| Amis.DeregisterAmi | actions/ami.go:73-114 | The in-place sort and the indexed loop send exactly the requests of `Deregistration` and return its outcome. |
| Amis.DeregisterLoop | actions/ami.go:93-112 | The indexed loop from index generation-1 sends the requests of `DeregisterFrom` and returns its outcome. The first refused request stops it, with the error wrapped. |
| Amis.Deregistration | actions/ami.go:73-114 | deregisterAMI: the image query, a wrapped error or a nil-list crash, "no outdated images" for at most gen images, a crash for gen < 1, otherwise the sorted images are deregistered from index gen-1. |
| Amis.DeregistrationKeeps | actions/ami.go:89-112 | When every deregistration succeeds, the number of images kept is `KeptAsWritten(len, gen)`. |
| Amis.KeptAsWrittenShrinks | actions/ami.go:89-93 | With gen 2, two images keep 2 but three images keep 1. |
| Amis.DeregistrationIntendedKeeps | actions/ami.go:89-93 | The corrected loop starts at gen, so it keeps min(len, gen) images and deregisters the sorted images from index gen on. |
| Amis.KeptIntendedMonotone | actions/ami.go:89-93 | The corrected count of kept images never falls when images are added. |
| Ecs.StringValues | actions/ecs.go:71-73 | One string per ARN, in order. |
| Ecs.Arns | actions/ecs.go:67-74 | The listed ARNs in order and with the same count, or the lookup error and no list. |
| Ecs.GetEcsInstanceArn | actions/ecs.go:62-75 | One ListContainerInstances request for the cluster, and its ARNs or its error. |
| Ecs.EcsInstanceStatus | actions/ecs.go:78-90 | One DescribeContainerInstances request for the cluster and the ARNs, and its reply. |
| Ecs.ContainerStatus | actions/ecs.go:50-60 | getClusterStatus: the ARN listing, then the status of those ARNs, each error flattened behind its prefix. |
| Ecs.ContainerStatusShape | actions/ecs.go:50-60 | A listing error is flattened behind "cannnot get instance arn: ". Otherwise the status lookup follows, and its error is flattened behind "cannnot get ecs status : ". |
| Ecs.ContainerStatusErrors | actions/ecs.go:50-60 | Every error of getClusterStatus carries one of its two prefixes. |
| Ecs.GetClusterStatus | actions/ecs.go:50-60 | The method sends the requests of `ContainerStatus` and returns its result. |
| Ecs.DrainInstance | actions/ecs.go:92-107 | One request to set exactly this instance's ARN in its own cluster to "DRAINING", and its reply passed on. |
| Ecs.ClusterStatusSnapshot | actions/ecs.go:20-48 | Any failing lookup stops the call with its error and no snapshot. On success the snapshot holds the cluster name, the three lists and, as its size, the group's instance count in this call. |
| Ecs.ClusterStatusCalls | actions/ecs.go:20-38 | The call sends one to four requests, all naming this group, cluster and newest image. |
| Ecs.ClusterStatus | actions/ecs.go:20-48 | setClusterStatus: the group's size and the three lists, in that order, stopping at the first failed lookup. |
| Ecs.SetClusterStatus | actions/ecs.go:20-48 | The method sends the requests of `ClusterStatus` and returns its result. |
| Backoff.Repeat | actions/asg.go:209-233 | The same request, k times. |
| Backoff.Poll | actions/asg.go:213-233 | The retried probe: each try sends the probe request, until one returns no error or the retries are used up; the last try's result. |
| Backoff.PollTries | actions/asg.go:213-233 | A retried probe runs between 1 and 5 times, and every try but the last failed. Its result is that of the last try, and a failure means all 5 tries failed. |
| Backoff.Retry | actions/asg.go:213-233 | The retry loop sends exactly the probes of `Poll` and returns its result. |
| AsgIteration.Ids | actions/asg.go:126-132 | The group's instance ids, in order. |
| AsgIteration.Place | actions/asg.go:53-96 | One container instance: idle on an obsolete image goes to the unused list; idle on the newest image goes to the free list and gets a record with its zone; one running task gets a record with its image and zone. A failed image lookup is flattened behind "cannnot get ami id: ", and a failed zone lookup crashes. |
| AsgIteration.Classify | actions/asg.go:52-97 | The classification loop over the described container instances, stopping at the first failed lookup. |
| AsgIteration.Region | actions/asg.go:243-252 | The zone of the first instance of the first reservation, when there is one. |
| AsgIteration.ClassifyStops | actions/asg.go:52-97 | The first failing image lookup ends the classification, and later instances change nothing. |
| AsgIteration.ClassifyDoneIff | actions/asg.go:54-85 | The classification succeeds iff every lookup it needs succeeds. A failure carries the flattened error of one instance's lookup. |
| AsgIteration.ClassifyOnlyListed | actions/asg.go:52-97 | Every id in the three lists belongs to a listed container instance. |
| AsgIteration.FreeAlsoInEcs | actions/asg.go:60-75 | Every free instance also has a record in `ecsInstance`. |
| AsgIteration.PlaceAdds | actions/asg.go:53-97 | One instance adds its id to the unused list (idle, obsolete image), to the free list and `ecsInstance` (idle, newest image), to `ecsInstance` alone (exactly one running task), or to no list. |
| AsgIteration.ClassifyPlaces | actions/asg.go:52-97 | With distinct ids, each instance is in the unused list, the free list and `ecsInstance` exactly as its counts and image say. Its record holds its looked-up fields. |
| AsgIteration.PlaceNew | actions/asg.go:53-97 | For an id not yet listed, one step places it exactly as its counts and image say. |
| AsgIteration.PlaceOther | actions/asg.go:53-97 | One step over an instance leaves the lists unchanged for every other id, down to each record held for it. |
| AsgIteration.ClassifyInstances | actions/asg.go:52-97 | The classification loop computes `Classify`. |
| AsgIteration.FirstRunningIn | actions/asg.go:197-203 | None iff every instance has state code 80. Otherwise the id of one that does not. |
| AsgIteration.StoppedProbe | actions/asg.go:187-206 | The describe closure: the request's error, "still running instance: " and the printed id pointer while some instance is not in state 80, and no error otherwise. |
| AsgIteration.CountProbe | actions/asg.go:218-228 | The counter closure: a flattened "cannnot get Asg Info: " error, "still pending instance" while the group size differs from the count taken before the stop, and no error otherwise. |
| AsgIteration.StopUnused | actions/asg.go:164-241 | replaceUnusedInstance: "start", the group's size, the stop, the retried describe and counter closures, then "finish"; each failure returns its error. |
| AsgIteration.FirstRunning | actions/asg.go:195-206 | The result is None iff every described instance is in state 80. Otherwise it is the id of a described instance that is not. |
| AsgIteration.StopUnusedBrackets | actions/asg.go:170-238 | From running, "start" is refused: nothing is requested and the state is unchanged. From closed, the call succeeds iff it ends closed, and any failure leaves the machine running. |
| AsgIteration.StopUnusedSucceeded | actions/asg.go:176-233 | On success the group was read, the instances were stopped, every stopped-probe and count-probe try was sent (1 to 5 of each), all instances ended in state 80, and the group size matched its earlier count. |
| AsgIteration.StopUnusedStops | actions/asg.go:176-186 | A successful stop sent the stop request for exactly its ids second, right after the group lookup. |
| AsgIteration.StopUnusedCalls | actions/asg.go:164-241 | Only group reads, the stop request and instance descriptions are sent. |
| AsgIteration.ReplaceUnusedInstance | actions/asg.go:164-241 | The method's requests, result and final state are those of `StopUnused`. |
| AsgIteration.TargetZones | actions/asg.go:262-268 | One zone per idle record, so a zone is in the list iff some idle record is in it. |
| AsgIteration.IdleZones | actions/asg.go:256-268 | The loop collects the target zones and counts them. |
| AsgIteration.DrainsKept | actions/asg.go:274-307 | Requests other than drains add no drain. |
| AsgIteration.DrainAndStop | actions/asg.go:282-299 | One drained instance: the drain, the instance appended to the stop list, the stop of the whole list; either failure is fatal. |
| AsgIteration.Round | actions/asg.go:276-306 | One zone's round: drain and stop each busy instance on an obsolete image in that zone, in order, until one aborts. |
| AsgIteration.Rounds | actions/asg.go:274-308 | One round per target zone, in order, carrying the stop list, until one aborts. |
| AsgIteration.Swap | actions/asg.go:254-311 | swapInstance: nothing without an idle instance; otherwise the rounds from an empty stop list. |
| AsgIteration.DrainAndStopTrace | actions/asg.go:282-299 | The log only grows, by one drain for the instance's ARN and the stop's requests. Any refusal aborts. On completion the drain was accepted, the stop list with the instance added was stopped, that stop succeeded, and the new list is returned. |
| AsgIteration.StopsJoin | actions/asg.go:282-299 | The stops sent for two consecutive runs of drained ids are the stops sent for the ids joined. |
| AsgIteration.StopsCons | actions/asg.go:282-299 | A stop of the list with one more id, followed by the stops for the rest, gives the stops for that id and the rest. |
| AsgIteration.RoundStopsSent | actions/asg.go:276-307 | A completed round stopped, for each instance it drained, the stop list as it stood after that instance was added. |
| AsgIteration.RoundsStep | actions/asg.go:274-308 | The stop list and the stops of one round compose with those of the rounds that follow. |
| AsgIteration.RoundsStopsSent | actions/asg.go:274-308 | Completed rounds pass the stop list from one round to the next, so it ends as all drained ids in order, and each accumulated list was stopped on the way. |
| AsgIteration.RoundOutcome | actions/asg.go:276-307 | A zone round either completes, having added exactly its drainable instances to the stop list, or aborts. It never fails with an error. |
| AsgIteration.ConsPrefix | actions/asg.go:274-307 | One drain followed by a drained prefix is a drained prefix of the longer list. |
| AsgIteration.AppendPrefix | actions/asg.go:274-307 | Drains followed by a drained prefix make a drained prefix of the concatenation. |
| AsgIteration.JoinPrefix | actions/asg.go:274-307 | A prefix of the second part after the whole first part is a prefix of the two parts joined. |
| AsgIteration.PrefixOfFirst | actions/asg.go:274-307 | An incomplete prefix of the first part is a prefix of the whole. |
| AsgIteration.RoundTrace | actions/asg.go:276-306 | A round's drains are a prefix of the zone's drainable instances, and all of them when the round completes. |
| AsgIteration.RoundsOutcome | actions/asg.go:274-308 | The zone rounds complete or abort, and from closed they end closed on completion. |
| AsgIteration.RoundsTrace | actions/asg.go:274-308 | The rounds' drains are a prefix of the requests of every zone's round, in zone order. |
| AsgIteration.RoundRequestsObsolete | actions/asg.go:279-280 | A round drains only instances with one running task, an obsolete image and that zone. |
| AsgIteration.SwapRequestsObsolete | actions/asg.go:274-307 | No instance on the newest image is ever drained. |
| AsgIteration.SwapDrains | actions/asg.go:254-311 | With no idle instance the swap succeeds at once. Otherwise its drains are a prefix of the obsolete busy instances in the idle instances' zones. It completes or aborts, and from closed a completed swap ends closed. A completed swap stopped the growing stop list after each drain, the last stop naming every drained instance. |
| AsgIteration.DrainAndStopOne | actions/asg.go:282-299 | The method computes `DrainAndStop`. |
| AsgIteration.SwapRound | actions/asg.go:276-306 | The method computes `Round`. |
| AsgIteration.SwapInstance | actions/asg.go:254-311 | The method computes `Swap`. |
| AsgIteration.FlattenNotSteady | actions/asg.go:120 | An error flattened behind a prefix whose second letter is 'a' is never the steady-state error. |
| AsgIteration.EarlyErrorsDiffer | actions/asg.go:37-113 | None of the other flattened errors of ReplaceInstance can be "cluster is not steady state". |
| AsgIteration.SwapAndCheck | actions/asg.go:108-121 | The swap when there are records and the machine is closed, its error flattened behind "failed to replace instance: ", then the steady-state check. |
| AsgIteration.AfterClassify | actions/asg.go:100-121 | The stop of the unused instances when there are any, its error flattened behind "cannnot stop unused instance: ", then the swap and the check. |
| AsgIteration.ReplaceV1 | actions/asg.go:20-123 | ReplaceInstance: the group lookup, fatal when it fails; the container status, whose error is returned unchanged; the newest image, its error flattened behind "cannnot get newestami id: "; the classification; then what follows it. |
| AsgIteration.SwapAndCheckSteady | actions/asg.go:108-121 | Without records, or when not closed, nothing is sent. From closed the run succeeds or aborts. The run succeeds only closed, and it reports "cluster is not steady state" only when running. |
| AsgIteration.AfterClassifySteady | actions/asg.go:100-121 | After the classification, success means closed and the steady-state error means running. |
| AsgIteration.ReplaceV1Steady | actions/asg.go:20-123 | The whole run succeeds only closed, and it reports the steady-state error only when running. |
| AsgIteration.ReplaceV1FromClosed | actions/asg.go:100-121 | Started closed, the run never ends with the steady-state error. |
| AsgIteration.AfterClassifyFromClosed | actions/asg.go:100-121 | From closed, the stop, the swap and the final check after a successful classification never end with the steady-state error. |
| AsgIteration.SwapAndCheckFromClosed | actions/asg.go:108-121 | From closed, the swap and the final check never end with the steady-state error. |
| AsgIteration.ReplaceV1FromRunning | actions/asg.go:100-173 | Started running, the run never succeeds, stays running and drains nothing. |
| AsgIteration.ReplaceInstance | actions/asg.go:20-123 | The method's requests, outcome and final state are those of `ReplaceV1`. |
| CommandIteration.Restore | actions/command.go:68-78 | When not closed, the run fails with "cluster is not steady state" and sends no resize. When closed, it resizes to the first size and succeeds iff the resize does. |
| CommandIteration.SwapPhase | actions/command.go:61-66 | The snapshot-taking swap when the snapshot has records and the state read at line 47 is closed, then the final check. A swap that left the machine running makes that check fail. |
| CommandIteration.Grow | actions/command.go:47-59 | A resize to one above the snapshot's size when it has no free instance and the machine is closed, then a new snapshot; otherwise the swap phase. |
| CommandIteration.Regrow | actions/command.go:55-58 | The new snapshot after growth, then the swap phase on it. |
| CommandIteration.Unused | actions/command.go:30-45 | With unused instances: "start", their stop (its error flattened behind "cannnot stop unused instance: "), "finish" and a new snapshot; otherwise growth. |
| CommandIteration.Reclassify | actions/command.go:41-44 | The new snapshot after the stop, then growth. |
| CommandIteration.Replace | actions/command.go:18-79 | ReplaceInstance: the newest image, the first snapshot, whose size is restored at the end, then the phases. Every error is returned unchanged. |
| CommandIteration.ExtendsTrans | actions/command.go:18-79 | Two allowed extensions of a log compose. |
| CommandIteration.ExtendsOne | actions/command.go:18-79 | One allowed request extends a log. |
| CommandIteration.StatusExtends | actions/command.go:24-55 | Each reclassification asks only about the configured group and cluster and the one newest image. |
| CommandIteration.RestoreExtends | actions/command.go:68-78 | The final check sends only allowed requests when restoring to the first size. The exact request is stated by `Restore`. |
| CommandIteration.SwapPhaseExtends | actions/command.go:61-66 | The swap gets a snapshot with records, the newest image and the dry-run flag. |
| CommandIteration.RegrowExtends | actions/command.go:55-66 | The reclassification after growth and what follows send only allowed requests. |
| CommandIteration.GrowExtends | actions/command.go:49-59 | The growth phase sends only allowed requests, so each resize is to the first size or one above a snapshot with no free instance. When not closed it sends nothing. |
| CommandIteration.ReclassifyExtends | actions/command.go:41-66 | The reclassification after the stop and what follows send only allowed requests. |
| CommandIteration.UnusedExtends | actions/command.go:30-45 | The unused stop is sent only with instances to stop. |
| CommandIteration.ReplaceCalls | actions/command.go:18-79 | The newest image is looked up once, first. Every later request names the configured group and cluster and that one image, and every resize is to the first size or to one above a snapshot with no free instance. |
| CommandIteration.SwapPhaseDone | actions/command.go:61-78 | A successful end is closed, and its last request restores the given size. It never crashes. |
| CommandIteration.GrowDone | actions/command.go:47-78 | The same holds after the growth step. |
| CommandIteration.UnusedDone | actions/command.go:30-78 | The same holds after the unused-instance step. |
| CommandIteration.ReplaceDone | actions/command.go:18-79 | A successful run ends closed, and its last request restores the size of the first snapshot. It never crashes, given that the newest-image lookup is one opaque request that does not crash. |
| CommandIteration.ReplaceFromRunning | actions/command.go:30-70 | Started running, the run fails, stays running and changes nothing. The error is the refused "start" when there are unused instances, and the steady-state error otherwise. |
| CommandIteration.ReplaceFromClosed | actions/command.go:30-66 | Started closed, the run ends running only after a failed stop of the unused instances or a swap that left the machine running. |
| CommandIteration.ReplaceInstance | actions/command.go:18-79 | The method's requests, outcome and final state are those of `Replace`. |
| CommandIteration.StopUnusedPhase | actions/command.go:30-79 | The start, stop, finish and new snapshot, then growth and the swap, compute `Unused`. |
| CommandIteration.GrowPhase | actions/command.go:47-79 | Reading the state, growing by one when no instance is free, then the swap and the final check compute `Grow`. |
| CommandIteration.SwapAndRestore | actions/command.go:61-79 | With the state read at line 47, the swap, the second state read and the resize compute `SwapPhase`. |
| CommandIteration.SnapshotIds | actions/command.go:88 | The snapshots' ids, in order. |
| CommandIteration.QueriedId | actions/command.go:89 | The snapshot id that an image-by-snapshot query asks about. |
| CommandIteration.Visit | actions/command.go:88-105 | One snapshot: the image lookup, the volume lookup when no image was found, the deletion when neither returned output; each error ends the loop. |
| CommandIteration.Sweep | actions/command.go:87-106 | The visits of the sorted snapshots from an index on, until one fails. |
| CommandIteration.RemoveSnapshotsOf | actions/command.go:82-108 | RemoveSnapShots: the snapshot query, a crash on a failed or missing list, the newest-first sort, then the sweep. |
| CommandIteration.QueriedIdsSnoc | actions/command.go:87-106 | One more request adds its queried id, if it has one, at the end. |
| CommandIteration.CheckedExtends | actions/command.go:87-106 | A checked deletion stays checked as the log grows. |
| CommandIteration.VisitShape | actions/command.go:88-105 | One snapshot's visit asks about its images exactly once. It deletes the snapshot only right after both its lookups returned no output. Its error comes from its last request. |
| CommandIteration.DeleteChecked | actions/command.go:93-101 | The deletion that follows two empty lookups is checked. |
| CommandIteration.SweepVisits | actions/command.go:87-106 | The sweep asks about a run of consecutive snapshots from the list, in order and each once, and about all of them when it gets through. Its failure is the error reply to its last request, and it never crashes. |
| CommandIteration.SweepLog | actions/command.go:87-106 | The sweep only appends to the log and never crashes. When it fails, the reply to its last request was an error. |
| CommandIteration.SweepQueries | actions/command.go:87-106 | The sweep asks about the next k snapshots of the list, in order, and about all of them when it gets through. |
| CommandIteration.QueriesStop | actions/command.go:89-103 | A visit that fails stops the sweep after asking about its own snapshot only. |
| CommandIteration.QueriesStep | actions/command.go:87-106 | A visit that gets through puts its snapshot in front of what the rest of the sweep asks about. |
| CommandIteration.Chain | actions/command.go:87-106 | One id in front of a stretch of the list starting one later is the stretch starting at that id. |
| CommandIteration.VisitLog | actions/command.go:88-104 | A visit sends an image lookup, then possibly a volume lookup, then possibly a deletion. It asks about its own snapshot once, and fails only on an error reply to its last request. |
| CommandIteration.VisitQueried | actions/command.go:88-89 | A visit asks about exactly its own snapshot. |
| CommandIteration.VisitDeletes | actions/command.go:93-104 | A deletion sent by a visit follows an empty image lookup and an empty volume lookup of the same snapshot. |
| CommandIteration.LookupsOnly | actions/command.go:89-97 | A visit that stops after the lookups sends no deletion. |
| CommandIteration.LookupsThenDelete | actions/command.go:93-104 | A visit that reaches the deletion sends it right after the two lookups of its snapshot, and both found nothing. |
| CommandIteration.SweepDeletes | actions/command.go:93-104 | Every deletion follows an empty image lookup and an empty volume lookup of that snapshot, with the configured dry-run flag. |
| CommandIteration.RemoveSnapshotsVisits | actions/command.go:82-108 | A failed or missing snapshot list crashes. Otherwise the snapshots are visited newest first, as a permutation of the list. The first error stops the loop, and deletions happen only after two empty lookups. |
| CommandIteration.RemoveSnapshots | actions/command.go:82-108 | The in-place sort and the indexed loop compute `RemoveSnapshotsOf`. |
| CommandIteration.SweepLoop | actions/command.go:86-107 | The indexed loop over the sorted array computes `Sweep` from index 0. |
| CommandIteration.VisitSnapshot | actions/command.go:88-105 | One turn of the loop sends the requests of `Visit` and returns its error, if any. |
| CommandIteration.RemoveAmisOf | actions/command.go:111-124 | RemoveAMIs never returns an error. It either succeeds or brings the process down. |
| CommandIteration.DeregisterOld | actions/command.go:118-122 | One deregistration request, and a fatal "deregister failed!" iff it is refused. |
| CommandIteration.RemoveAmisOutcome | actions/command.go:111-124 | A failed group lookup crashes. Otherwise success iff the image lookup does not crash and the deregistration is accepted. The deregistration names the first instance's image, or "" when that lookup returned an error. |
| CommandIteration.RemoveAmis | actions/command.go:111-124 | The method computes `RemoveAmisOf`. |

## Left out

- Network, credentials and clients: actions/auto_scaling.go and apis/apis.go:33-66 only build SDK clients. The environment oracle stands in for every reply.
- The goroutines and `sync.WaitGroup` of actions/asg.go:276-307: each zone round is sequential, in list order. The unsynchronised append to `stoptarget` is therefore not modelled as a race.
- Backoff timing in actions/asg.go:209-212 and actions/backoff.go: intervals, randomisation and MaxElapsedTime are wall-clock behaviour. Only the attempt bound is modelled.
- Logging calls inside actions and config (`log.Debug.Println`, `log.Info.Printf`, `fmt.Println(id)`): output only. The logger itself is modelled in `Log`, without its writer formatting and mutex.
- Log.Logging.Fatal: the process exit is the `Aborted` result, not an exit.
- Log.Logging.Print: it stands for Print, Printf and Println, since their gates are identical. The line's formatting is not modelled.
- Reading the profile files and the `\[(.*)\]` regex of config/validator.go:47-58: file I/O and a regex engine. The captured names per file are inputs.
- Validator.IsValidRegion: `\w` and `\d` are ASCII only, as in RE2 without flags.
- Apis.ImageNewerIsStrictWeakOrder: Go compares the strings byte by byte and the model compares characters. These agree for the ASCII timestamps the service returns.
- Apis.SortBy: `sort.Sort` is not stable. The model uses a stable insertion sort, so the order among images with equal creation dates, or snapshots with equal start times, is one of the orders Go may produce.
- AsgIteration.Region: the placement request of getRegion is not logged, since it is a fixed reply per instance. getRegion ignores the lookup error and indexes unchecked (actions/asg.go:249-251), so a failed or empty reply is the crash it causes. The crash is reported as an index out of range, even when Go's panic would be a nil dereference.
- CommandIteration.ReplaceDone: the newest-image lookup of actions/command.go:20 is one opaque request that returns an image id or an error and never crashes. The lowercase `newestAMI` of actions/snapshot.go:12-27 (`Snapshot.NewestAmi`) would panic on an empty image list at actions/snapshot.go:25, so "never crashes" holds only under this abstraction. `AsgIteration.ReplaceV1` models `GetNewestAMI` the same way.
- AsgIteration.Place: the image lookup `AmiAsg` (actions/asg.go:54, 82) is not logged. Its reply is a fixed function of the instance id, so two lookups of the same instance during one run always agree.
- The package-level `dryrun` read by actions/snapshot.go:32 and actions/ami.go:106 is not defined in the modelled files. It is a parameter.
- `DeleteSnapshot`, `ImageExists`, `VolumeExists` and `SearchUnusedSnapshot` are called in actions/command.go with capitals, and the exported wrappers are not part of this model. They are taken to be the lowercase functions of actions/snapshot.go. The exported `DeregisterAMI` takes different arguments from `deregisterAMI`, so it is one request.
- AsgIteration.StoppedProbe: `%v` of the `*string` instance id prints a pointer address (actions/asg.go:201). The model takes that text from the environment (`idPointer`), without deriving it from the id.
- Amis.AmiOf: the `%+v` rendering of a whole record (actions/ami.go:33) is reduced to the instance id (`Amis.Pretty`).
- The groups that ReplaceInstance returns: both iterations always return a nil group (actions/asg.go:122, actions/command.go:78), so the group is not modelled.
- main.go and the test files: CLI wiring and test doubles.

## Findings

| source | as written | input that shows it | evidently intended | confidence | as-written member | corrected member |
|---|---|---|---|---|---|---|
| actions/ami.go:89-93 | `len <= gen` returns "no outdated images", otherwise the loop deregisters from index gen-1, keeping gen-1 images | gen = 2: two images keep both, but three images keep only one | keep the gen newest images, so deregister from index gen and keep min(len, gen) | not executed | Amis.KeptAsWrittenShrinks | Amis.DeregistrationIntendedKeeps |
