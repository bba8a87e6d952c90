/** actions/replacer.go: one replacement task, its state machine and its service clients. */
module Replacer {
  import opened Fsm
  import opened Sdk

  /** Replacement, by the two fields the actions read (the context is not modelled). */
  class Replacement {
    const deploy: Deploy
    const aws: Aws

    /** NewReplacer: a deploy labelled "start", closed, and clients that have sent nothing yet. */
    constructor (env: Env)
      ensures fresh(deploy) && fresh(aws)
      ensures deploy.to == "start" && deploy.current == Closed
      ensures aws.env == env && aws.calls == []
    {
      deploy := new Deploy("start");
      aws := new Aws(env);
    }
  }

  /** What a step does to the pieces of state it touches: its result, the new log and the new machine state. */
  datatype Run<T> = Run(out: T, log: seq<Call>, state: State)
}
