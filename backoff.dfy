/**
 * The bounded retry of actions/asg.go:209-233: cenkalti/backoff's Retry with
 * WithMaxRetries(b, 4). Retry resets the policy and calls the operation
 * once; after each failure it asks the policy for another try, which
 * WithMaxRetries grants at most four times. The waits between tries are
 * not modelled.
 */
module Backoff {
  import opened Wrappers
  import opened Sdk

  const MaxRetries: nat := 4

  /** `c` repeated k times. */
  function Repeat(c: Call, k: nat): (s: seq<Call>)
    ensures |s| == k
    ensures forall i :: 0 <= i < k ==> s[i] == c
  {
    if k == 0 then [] else [c] + Repeat(c, k - 1)
  }

  /** The error of the last try (None once a try succeeded) and the log after the tries. */
  datatype Polled = Polled(err: Option<Error>, log: seq<Call>)

  /**
   * Retries a probe that sends `c` and judges the log ending with it: None
   * is success, Some(e) a failure with error e.
   */
  function Poll(log: seq<Call>, c: Call, probe: seq<Call> -> Option<Error>, retries: nat): Polled
    decreases retries
  {
    var l := log + [c];
    if probe(l).None? || retries == 0 then Polled(probe(l), l) else Poll(l, c, probe, retries - 1)
  }

  /** The number of tries a poll made. */
  function Tries(log: seq<Call>, p: Polled): int
  {
    |p.log| - |log|
  }

  /**
   * A poll makes between 1 and retries+1 tries, each sending `c`; it returns
   * the verdict of the last one; every earlier try failed; and it gives up
   * only after the last allowed try.
   */
  lemma {:induction false} PollTries(log: seq<Call>, c: Call, probe: seq<Call> -> Option<Error>, retries: nat)
    ensures var p := Poll(log, c, probe, retries);
      1 <= Tries(log, p) <= retries + 1 &&
      p.log == log + Repeat(c, Tries(log, p)) &&
      p.err == probe(p.log) &&
      (forall j :: 1 <= j < Tries(log, p) ==> probe(log + Repeat(c, j)).Some?) &&
      (p.err.Some? ==> Tries(log, p) == retries + 1)
    decreases retries
  {
    var l := log + [c];
    if probe(l).None? || retries == 0 {
      assert Repeat(c, 1) == [c];
    } else {
      PollTries(l, c, probe, retries - 1);
      var p := Poll(l, c, probe, retries - 1);
      var k := Tries(l, p);
      assert p.log == l + Repeat(c, k);
      assert l + Repeat(c, k) == log + Repeat(c, k + 1) by {
        assert Repeat(c, k + 1) == [c] + Repeat(c, k);
      }
      forall j | 1 <= j < k + 1
        ensures probe(log + Repeat(c, j)).Some?
      {
        if j == 1 {
          assert Repeat(c, 1) == [c];
        } else {
          assert log + Repeat(c, j) == l + Repeat(c, j - 1) by {
            assert Repeat(c, j) == [c] + Repeat(c, j - 1);
          }
        }
      }
    }
  }

  /**
   * backoff.Retry(operation, WithMaxRetries(b, 4)): one try, then at most
   * four more while the tries keep failing; the last error is returned.
   */
  method Retry(aws: Aws, c: Call, probe: seq<Call> -> Option<Error>) returns (err: Option<Error>)
    modifies aws
    ensures Polled(err, aws.calls) == Poll(old(aws.calls), c, probe, MaxRetries)
  {
    var retries := MaxRetries;
    while true
      invariant Poll(old(aws.calls), c, probe, MaxRetries) == Poll(aws.calls, c, probe, retries)
      decreases retries
    {
      aws.Send(c);
      err := probe(aws.calls);
      if err.None? || retries == 0 {
        return;
      }
      retries := retries - 1;
    }
  }
}
