/**
 * actions/snapshot.go: the newest image of a name, and the four lookups
 * that hand the service's reply back with any error wrapped. The file's
 * receiver is a `Replacer`, of which only the clients are used, so these
 * take the clients directly. The package-level `dryrun` that
 * deleteSnapshot reads is not defined in the files modelled here; it is a
 * parameter.
 */
module Snapshot {
  import opened Wrappers
  import Sdk
  import Apis

  /** The shape of all four lookups: the reply unchanged on success, the error wrapped behind `prefix` otherwise. */
  function PassThrough<T>(prefix: string, reply: Result<T>): (r: Result<T>)
    ensures r.Ok? <==> reply.Ok?
    ensures r.Ok? ==> r.value == reply.value
    ensures r.Err? ==> r.error.Text() == prefix + reply.error.Text() && r.error.Unwrap() == Some(reply.error)
  {
    match reply
    case Ok(v) => Ok(v)
    case Err(e) => Err(Wrap(prefix, e))
  }

  /** The images of that name owned by `owner` (used by newestAMI and deregisterAMI). */
  function ImageQuery(owner: string, image: string): Sdk.Call
  {
    Sdk.DescribeImages([owner], [Sdk.Filter("name", [image])])
  }

  /** The images with a block device made from that snapshot. */
  function ImageBySnapshotQuery(snapshotId: string): Sdk.Call
  {
    Sdk.DescribeImages([], [Sdk.Filter("block-device-mapping.snapshot-id", [snapshotId])])
  }

  /** The volumes made from that snapshot. */
  function VolumeQuery(snapshotId: string): Sdk.Call
  {
    Sdk.DescribeVolumes([Sdk.Filter("snapshot-id", [snapshotId])])
  }

  method DeleteSnapshot(aws: Sdk.Aws, snapshotId: string, dryRun: bool) returns (res: Result<Sdk.Output>)
    modifies aws
    ensures aws.calls == old(aws.calls) + [Sdk.DeleteSnapshot(snapshotId, dryRun)]
    ensures res == PassThrough("Failed to delete snapshot: ", aws.env.deleteSnapshot(aws.calls))
  {
    aws.Send(Sdk.DeleteSnapshot(snapshotId, dryRun));
    res := PassThrough("Failed to delete snapshot: ", aws.env.deleteSnapshot(aws.calls));
  }

  method SearchUnusedSnapshot(aws: Sdk.Aws, ownerId: string) returns (res: Result<Option<seq<Apis.Snapshot>>>)
    modifies aws
    ensures aws.calls == old(aws.calls) + [Sdk.DescribeSnapshots([ownerId])]
    ensures res == PassThrough("Failed to describe snapshots: ", aws.env.describeSnapshots(aws.calls))
  {
    aws.Send(Sdk.DescribeSnapshots([ownerId]));
    res := PassThrough("Failed to describe snapshots: ", aws.env.describeSnapshots(aws.calls));
  }

  method VolumeExists(aws: Sdk.Aws, snapshotId: string) returns (res: Result<Option<seq<Sdk.Volume>>>)
    modifies aws
    ensures aws.calls == old(aws.calls) + [Sdk.DescribeVolumes([Sdk.Filter("snapshot-id", [snapshotId])])]
    ensures res == PassThrough("Failed to describe volumes: ", aws.env.describeVolumes(aws.calls))
  {
    aws.Send(VolumeQuery(snapshotId));
    res := PassThrough("Failed to describe volumes: ", aws.env.describeVolumes(aws.calls));
  }

  method ImageExists(aws: Sdk.Aws, snapshotId: string) returns (res: Result<Option<seq<Apis.Image>>>)
    modifies aws
    ensures aws.calls == old(aws.calls) + [Sdk.DescribeImages([], [Sdk.Filter("block-device-mapping.snapshot-id", [snapshotId])])]
    ensures res == PassThrough("Failed to describe images: ", aws.env.describeImages(aws.calls))
  {
    aws.Send(ImageBySnapshotQuery(snapshotId));
    res := PassThrough("Failed to describe images: ", aws.env.describeImages(aws.calls));
  }

  /**
   * What newestAMI makes of the image query's reply: the error wrapped, a
   * crash on a missing output or an empty list (it reads element 0
   * unchecked), or the id of the first image after the newest-first sort.
   */
  function Newest(reply: Result<Option<seq<Apis.Image>>>): Outcome<string>
  {
    match reply
    case Err(e) => Failed(Wrap("Failed to describe images: ", e))
    case Ok(None) => Aborted(NilDereference)
    case Ok(Some(images)) =>
      var sorted := Apis.InsertionSorted(images, Apis.ImageNewer);
      if |sorted| == 0 then Aborted(IndexOutOfRange)
      else Done(sorted[0].imageId)
  }

  /** A failed query is returned wrapped, with no id; a missing or empty list brings the process down. */
  lemma NewestFailures(reply: Result<Option<seq<Apis.Image>>>)
    ensures Newest(reply).Failed? <==> reply.Err?
    ensures reply.Err? ==>
      Newest(reply).error.Text() == "Failed to describe images: " + reply.error.Text() &&
      Newest(reply).error.Unwrap() == Some(reply.error)
    ensures Newest(reply).Aborted? <==> reply == Ok(None) || reply == Ok(Some([]))
  {
  }

  /** No image of the list has a later creation date than image `k`. */
  ghost predicate NoneNewerThan(images: seq<Apis.Image>, k: int)
    requires 0 <= k < |images|
  {
    forall j :: 0 <= j < |images| ==> !Apis.LexLess(images[k].creationDate, images[j].creationDate)
  }

  /**
   * On a non-empty list the result is the id of one of the listed images,
   * and no listed image has a later creation date than that one.
   */
  lemma NewestIsNewest(images: seq<Apis.Image>)
    requires |images| > 0
    ensures Newest(Ok(Some(images))).Done?
    ensures exists k :: 0 <= k < |images| && images[k].imageId == Newest(Ok(Some(images))).value && NoneNewerThan(images, k)
  {
    var sorted := Apis.InsertionSorted(images, Apis.ImageNewer);
    Apis.InsertionSortedPermutes(images, Apis.ImageNewer);
    Apis.ImageNewerIsStrictWeakOrder();
    Apis.InsertionSortedIsSorted(images, Apis.ImageNewer);
    assert sorted[0] in multiset(images);
    var k :| 0 <= k < |images| && images[k] == sorted[0];
    forall j | 0 <= j < |images|
      ensures !Apis.LexLess(sorted[0].creationDate, images[j].creationDate)
    {
      assert images[j] in multiset(sorted);
      var m :| 0 <= m < |sorted| && sorted[m] == images[j];
      assert !Apis.ImageNewer(sorted[m], sorted[0]);
    }
  }

  /** newestAMI: one query, then an in-place newest-first sort of the reply and its element 0. */
  method NewestAmi(aws: Sdk.Aws, owner: string, image: string) returns (res: Outcome<string>)
    modifies aws
    ensures aws.calls == old(aws.calls) + [ImageQuery(owner, image)]
    ensures res == Newest(aws.env.describeImages(aws.calls))
  {
    aws.Send(ImageQuery(owner, image));
    var output := aws.env.describeImages(aws.calls);
    if output.Err? {
      return Failed(Wrap("Failed to describe images: ", output.error));
    }
    if output.value.None? {
      return Aborted(NilDereference);
    }
    var images := output.value.value;
    var a := Apis.SortedArray(images, Apis.ImageNewer);
    if a.Length == 0 {
      return Aborted(IndexOutOfRange);
    }
    return Done(a[0].imageId);
  }
}
