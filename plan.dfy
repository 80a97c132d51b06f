/**
 * The entry point's own logic: the concurrency precondition and the
 * expansion of a validated test plan into numbered cluster launches,
 * submitted to the pool before the pool is waited on.
 */
module Plan {
  import opened Wrappers
  import opened Doc
  import opened Pool
  import Config
  import SwarmCluster

  /** The entry point's assertion that more than five concurrent threads are available. */
  function CheckMaxConcurrent(maxConcurrent: int): (r: Option<PyError>)
    ensures r.None? <==> maxConcurrent > 5
    ensures r.Some? ==> r.value == AssertionError
  {
    if maxConcurrent > 5 then None else Some(AssertionError)
  }

  /** How many iterations a Python range over `amount` has: a bool counts as 0 or 1, anything but an int raises. */
  function RangeLength(amount: Doc): (r: Try<nat>)
    ensures amount.DInt? ==> r == Value(if amount.i < 0 then 0 else amount.i)
    ensures amount.DBool? ==> r == Value(if amount.b then 1 else 0)
    ensures !(amount.DInt? || amount.DBool?) ==> r == Raise(TypeError)
  {
    match amount
    case DInt(i) => Value(if i < 0 then 0 else i)
    case DBool(b) => Value(if b then 1 else 0)
    case _ => Raise(TypeError)
  }

  /**
   * The test-plan validator and the cluster constructor judge a single-node
   * cluster with workers differently: the validator tests `single_node` by
   * truthiness, the constructor compares it with False. For an entry with
   * its keys present, the two disagree exactly when there are workers and
   * `single_node` is falsy without being False (null, "", an empty list or
   * dict): the validator accepts such an entry and its cluster then fails
   * the constructor's assertion.
   */
  lemma ValidatorAndConstructorDisagree(c: Doc)
    requires c.DMap? && "num_workers" in c.fields && "single_node" in c.fields && "amount" in c.fields
    ensures var sn := c.fields["single_node"];
      var nw := c.fields["num_workers"];
      (Config.CheckCluster(c).None? != (SwarmCluster.CheckTopology(sn, nw) != Some(SwarmCluster.SingleNodeWithWorkers)))
      <==> !EqualsZero(nw) && !Truthy(sn) && !EqualsZero(sn)
    ensures var sn := c.fields["single_node"];
      var nw := c.fields["num_workers"];
      SwarmCluster.CheckTopology(sn, nw) == Some(SwarmCluster.SingleNodeWithWorkers) ==> Config.CheckCluster(c).None? || Truthy(sn)
  {
  }

  /** single_node: null with two workers passes the validator and fails construction. */
  lemma ValidatorAdmitsNullSingleNode()
    ensures var c := DMap(map["num_workers" := DInt(2), "single_node" := DNull, "amount" := DInt(1)]);
      && Config.CheckCluster(c).None?
      && SwarmCluster.CheckTopology(DNull, DInt(2)) == Some(SwarmCluster.SingleNodeWithWorkers)
  {
    ValidatorAndConstructorDisagree(DMap(map["num_workers" := DInt(2), "single_node" := DNull, "amount" := DInt(1)]));
  }

  /** What one plan entry launches: `count` clusters of the same shape. */
  datatype Launch = Launch(singleNode: Doc, numWorkers: Doc)

  function Repeat<T>(n: nat, x: T): (r: seq<T>)
    ensures |r| == n && forall i :: 0 <= i < n ==> r[i] == x
  {
    seq(n, _ => x)
  }

  /** One entry's topology, repeated once per unit of its amount. */
  function ExpandEntry(c: Doc): (r: Try<seq<Launch>>)
  {
    match Subscript(c, "amount")
    case Raise(e) => Raise(e)
    case Value(amount) =>
      match RangeLength(amount)
      case Raise(e) => Raise(e)
      case Value(n) =>
        if n == 0 then Value([])
        else
          match Subscript(c, "single_node")
          case Raise(e) => Raise(e)
          case Value(singleNode) =>
            match Subscript(c, "num_workers")
            case Raise(e) => Raise(e)
            case Value(numWorkers) => Value(Repeat(n, Launch(singleNode, numWorkers)))
  }

  /** The whole comprehension: the entries' expansions, concatenated in plan order. */
  function Expand(clusters: seq<Doc>): Try<seq<Launch>>
    decreases |clusters|
  {
    if clusters == [] then Value([])
    else
      match ExpandEntry(clusters[0])
      case Raise(e) => Raise(e)
      case Value(head) =>
        match Expand(clusters[1..])
        case Raise(e) => Raise(e)
        case Value(tail) => Value(head + tail)
  }

  /** The test-plan fields of a validated cluster entry with a non-negative integer amount. */
  predicate WellFormedEntry(c: Doc)
  {
    && c.DMap? && "amount" in c.fields && "single_node" in c.fields && "num_workers" in c.fields
    && c.fields["amount"].DInt? && c.fields["amount"].i >= 0
  }

  function Amount(c: Doc): nat
    requires WellFormedEntry(c)
  {
    c.fields["amount"].i
  }

  function TotalAmount(clusters: seq<Doc>): nat
    requires forall i :: 0 <= i < |clusters| ==> WellFormedEntry(clusters[i])
  {
    if clusters == [] then 0 else Amount(clusters[0]) + TotalAmount(clusters[1..])
  }

  /** One entry yields `amount` copies of its (`single_node`, `num_workers`). */
  lemma ExpandEntryRepeats(c: Doc)
    requires WellFormedEntry(c)
    ensures ExpandEntry(c) == Value(Repeat(Amount(c), Launch(c.fields["single_node"], c.fields["num_workers"])))
  {
  }

  /** Expansion of a concatenated plan is the concatenation of the expansions: plan order is kept and each entry's copies stay contiguous. */
  lemma {:induction false} ExpandConcat(xs: seq<Doc>, ys: seq<Doc>)
    requires forall i :: 0 <= i < |xs| ==> WellFormedEntry(xs[i])
    requires forall i :: 0 <= i < |ys| ==> WellFormedEntry(ys[i])
    ensures Expand(xs).Value? && Expand(ys).Value? && Expand(xs + ys).Value?
    ensures Expand(xs + ys).v == Expand(xs).v + Expand(ys).v
    decreases |xs|
  {
    if xs == [] {
      assert xs + ys == ys;
      ExpandSucceeds(ys);
    } else {
      assert (xs + ys)[1..] == xs[1..] + ys;
      ExpandConcat(xs[1..], ys);
      ExpandEntryRepeats(xs[0]);
    }
  }

  /** For a well-formed plan the expansion succeeds and has one launch per unit of `amount`. */
  lemma {:induction false} ExpandSucceeds(clusters: seq<Doc>)
    requires forall i :: 0 <= i < |clusters| ==> WellFormedEntry(clusters[i])
    ensures Expand(clusters).Value?
    ensures |Expand(clusters).v| == TotalAmount(clusters)
    decreases |clusters|
  {
    if clusters != [] {
      ExpandEntryRepeats(clusters[0]);
      ExpandSucceeds(clusters[1..]);
    }
  }

  /** The jobs `execute_plan` submits: the expanded launches numbered 0, 1, ... in order. */
  function LaunchJobs(launches: seq<Launch>): (r: seq<Job>)
    ensures |r| == |launches|
    ensures forall i :: 0 <= i < |launches| ==>
      r[i] == LaunchCluster(i, launches[i].singleNode, launches[i].numWorkers)
  {
    seq(|launches|, i requires 0 <= i < |launches| => LaunchCluster(i, launches[i].singleNode, launches[i].numWorkers))
  }

  function Submissions(jobs: seq<Job>): (r: seq<PoolEvent>)
    ensures |r| == |jobs| && forall i :: 0 <= i < |jobs| ==> r[i] == Submitted(jobs[i])
  {
    seq(|jobs|, i requires 0 <= i < |jobs| => Submitted(jobs[i]))
  }

  /**
   * `execute_plan`: submits every expanded launch with its index, then waits
   * on the pool. A failing expansion raises before anything is submitted.
   */
  method ExecutePlan(pool: TaskPool, clusters: seq<Doc>) returns (r: Option<PyError>)
    modifies pool
    ensures Expand(clusters).Raise? ==>
      r == Some(Expand(clusters).err) && pool.submissions == old(pool.submissions) && pool.events == old(pool.events)
    ensures Expand(clusters).Value? ==>
      && r.None?
      && pool.submissions == old(pool.submissions) + LaunchJobs(Expand(clusters).v)
      && pool.events == old(pool.events) + Submissions(LaunchJobs(Expand(clusters).v)) + [Waited]
  {
    var expanded := Expand(clusters);
    if expanded.Raise? {
      return Some(expanded.err);
    }
    var launches := expanded.v;
    var clusterIndex := 0;
    while clusterIndex < |launches|
      invariant 0 <= clusterIndex <= |launches|
      invariant pool.submissions == old(pool.submissions) + LaunchJobs(launches)[..clusterIndex]
      invariant pool.events == old(pool.events) + Submissions(LaunchJobs(launches)[..clusterIndex])
    {
      var launch := launches[clusterIndex];
      var _ := pool.Submit(LaunchCluster(clusterIndex, launch.singleNode, launch.numWorkers));
      assert LaunchJobs(launches)[..clusterIndex + 1] == LaunchJobs(launches)[..clusterIndex] + [LaunchJobs(launches)[clusterIndex]];
      assert Submissions(LaunchJobs(launches)[..clusterIndex + 1])
          == Submissions(LaunchJobs(launches)[..clusterIndex]) + [Submitted(LaunchJobs(launches)[clusterIndex])];
      clusterIndex := clusterIndex + 1;
    }
    assert LaunchJobs(launches)[..clusterIndex] == LaunchJobs(launches);
    pool.Wait();
    r := None;
  }

  /** In the events of `execute_plan`, the wait comes after every submission and nothing follows it. */
  lemma WaitFollowsAllSubmissions(before: seq<PoolEvent>, jobs: seq<Job>, i: nat)
    requires i < |before + Submissions(jobs) + [Waited]|
    ensures var events := before + Submissions(jobs) + [Waited];
      events[i] == Waited && i >= |before| ==> i == |events| - 1
    ensures var events := before + Submissions(jobs) + [Waited];
      |before| <= i < |events| - 1 ==> events[i].Submitted?
  {
  }
}
