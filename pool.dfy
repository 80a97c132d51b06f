/**
 * The worker pool as the orchestration code uses it: `submit` records a
 * unit of work and returns a handle, `wait` waits for every submission.
 * Running the work concurrently is outside the model; a handle is the
 * position of the submission in the pool's list.
 */
module Pool {
  import opened Doc
  import opened SwarmAgent

  /** The units of work the swarm submits. */
  datatype Job =
    | LaunchCluster(clusterIndex: nat, singleNode: Doc, numWorkers: Doc)
    | StartAgent(config: ClusterAgentConfig)

  datatype PoolEvent = Submitted(job: Job) | Waited

  class TaskPool {
    var submissions: seq<Job>
    /** The order in which submissions and waits happened. */
    ghost var events: seq<PoolEvent>

    constructor ()
      ensures submissions == [] && events == []
    {
      submissions := [];
      events := [];
    }

    method Submit(job: Job) returns (handle: nat)
      modifies this
      ensures submissions == old(submissions) + [job]
      ensures events == old(events) + [Submitted(job)]
      ensures handle == |old(submissions)| && submissions[handle] == job
    {
      handle := |submissions|;
      submissions := submissions + [job];
      events := events + [Submitted(job)];
    }

    /** Waits for the result of every submission made so far. */
    method Wait()
      modifies this`events
      ensures events == old(events) + [Waited]
    {
      events := events + [Waited];
    }
  }
}
