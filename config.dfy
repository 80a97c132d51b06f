/**
 * Validation of the two configuration documents: the test plan (which
 * clusters to launch) and the service config (where the service is and
 * which pull secret to use). Each validator yields the first problem it
 * finds, or None when the document is accepted.
 */
module Config {
  import opened Wrappers
  import opened Doc

  datatype ConfigError =
    | MissingClusters
    | ClustersNotList
    | MissingNumWorkers
    | MissingSingleNode
    | MissingAmount
    | SingleNodeWithWorkers
    | MissingServiceEndpoint
    | MissingPullSecretFile
    | PullSecretUnreadable
    | MissingAuths
    | MissingReleaseImage
    /** A Python exception raised by the checks themselves, such as `in` applied to a number. */
    | Python(err: PyError)

  /** `key not in d` as a check: None when the key is there, else `missing` or the exception `in` raised. */
  function Require(d: Doc, key: string, missing: ConfigError): (r: Option<ConfigError>)
    ensures d.DMap? ==> (r == if key in d.fields then None else Some(missing))
  {
    match Contains(d, key)
    case Raise(e) => Some(Python(e))
    case Value(present) => if present then None else Some(missing)
  }

  /** The checks made on one entry of `clusters`, in the source's order. */
  function CheckCluster(cluster: Doc): (r: Option<ConfigError>)
    ensures cluster.DMap? ==> var f := cluster.fields;
      r == if "num_workers" !in f then Some(MissingNumWorkers)
           else if "single_node" !in f then Some(MissingSingleNode)
           else if "amount" !in f then Some(MissingAmount)
           else if EqualsZero(f["num_workers"]) || !Truthy(f["single_node"]) then None
           else Some(SingleNodeWithWorkers)
  {
    var e1 := Require(cluster, "num_workers", MissingNumWorkers);
    if e1.Some? then e1 else
    var e2 := Require(cluster, "single_node", MissingSingleNode);
    if e2.Some? then e2 else
    var e3 := Require(cluster, "amount", MissingAmount);
    if e3.Some? then e3 else
    match Subscript(cluster, "num_workers")
    case Raise(e) => Some(Python(e))
    case Value(numWorkers) =>
      if EqualsZero(numWorkers) then None
      else
        match Subscript(cluster, "single_node")
        case Raise(e) => Some(Python(e))
        case Value(singleNode) => if Truthy(singleNode) then Some(SingleNodeWithWorkers) else None
  }

  /** The loop over the clusters: the first failing cluster decides the error. */
  function CheckClusters(clusters: seq<Doc>): (r: Option<ConfigError>)
    ensures r.None? <==> forall i :: 0 <= i < |clusters| ==> CheckCluster(clusters[i]).None?
    ensures r.Some? ==> exists i :: 0 <= i < |clusters| && r == CheckCluster(clusters[i])
                                    && forall j :: 0 <= j < i ==> CheckCluster(clusters[j]).None?
  {
    if clusters == [] then None
    else if CheckCluster(clusters[0]).Some? then CheckCluster(clusters[0])
    else
      var rest := CheckClusters(clusters[1..]);
      assert forall i :: 1 <= i < |clusters| ==> clusters[i] == clusters[1..][i - 1];
      rest
  }

  /** `validate_test_plan`. */
  function ValidateTestPlan(plan: Doc): (r: Option<ConfigError>)
    ensures plan.DMap? && "clusters" !in plan.fields ==> r == Some(MissingClusters)
    ensures plan.DMap? && "clusters" in plan.fields && !plan.fields["clusters"].DList? ==> r == Some(ClustersNotList)
    ensures plan.DMap? && "clusters" in plan.fields && plan.fields["clusters"].DList? ==>
      r == CheckClusters(plan.fields["clusters"].items)
  {
    var e := Require(plan, "clusters", MissingClusters);
    if e.Some? then e else
    match Subscript(plan, "clusters")
    case Raise(err) => Some(Python(err))
    case Value(clusters) => if clusters.DList? then CheckClusters(clusters.items) else Some(ClustersNotList)
  }

  /** A cluster entry the plan accepts, stated without reference to the checks. */
  predicate GoodCluster(cluster: Doc)
  {
    && cluster.DMap?
    && "num_workers" in cluster.fields && "single_node" in cluster.fields && "amount" in cluster.fields
    && (EqualsZero(cluster.fields["num_workers"]) || !Truthy(cluster.fields["single_node"]))
  }

  lemma CheckClusterAccepts(cluster: Doc)
    ensures CheckCluster(cluster).None? <==> GoodCluster(cluster)
  {
    if !cluster.DMap? {
      assert Require(cluster, "num_workers", MissingNumWorkers).Some? || Subscript(cluster, "num_workers").Raise?;
    }
  }

  /**
   * A test plan is accepted exactly when it is a dict whose `clusters` is a
   * list of dicts that each have `num_workers`, `single_node` and `amount`
   * and are not single-node with workers; nothing constrains `amount`.
   */
  lemma TestPlanAccepted(plan: Doc)
    ensures ValidateTestPlan(plan).None? <==>
      && plan.DMap? && "clusters" in plan.fields && plan.fields["clusters"].DList?
      && forall i :: 0 <= i < |plan.fields["clusters"].items| ==> GoodCluster(plan.fields["clusters"].items[i])
  {
    if plan.DMap? && "clusters" in plan.fields && plan.fields["clusters"].DList? {
      var items := plan.fields["clusters"].items;
      forall i | 0 <= i < |items| { CheckClusterAccepts(items[i]); }
    } else if !plan.DMap? {
      assert Require(plan, "clusters", MissingClusters).Some? || Subscript(plan, "clusters").Raise?;
    }
  }

  /** Replacing one cluster's `amount` by any value never changes the verdict. */
  lemma AmountUnconstrained(cluster: Doc, amount: Doc)
    requires cluster.DMap? && "amount" in cluster.fields
    ensures CheckCluster(DMap(cluster.fields["amount" := amount])) == CheckCluster(cluster)
  {
  }

  /** What opening and parsing the pull secret file gave. */
  datatype PullSecretLoad = LoadFailed | Loaded(secret: Doc)

  /** `validate_service_config`; `load` stands for reading the file named by `pull_secret_file`. */
  function ValidateServiceConfig(config: Doc, load: PullSecretLoad): (r: Option<ConfigError>)
    ensures config.DMap? && "service_endpoint" !in config.fields ==> r == Some(MissingServiceEndpoint)
    ensures config.DMap? && "service_endpoint" in config.fields && "pull_secret_file" !in config.fields ==>
      r == Some(MissingPullSecretFile)
  {
    var e1 := Require(config, "service_endpoint", MissingServiceEndpoint);
    if e1.Some? then e1 else
    var e2 := Require(config, "pull_secret_file", MissingPullSecretFile);
    if e2.Some? then e2 else
    match Subscript(config, "pull_secret_file")
    case Raise(err) => Some(Python(err))
    case Value(_) =>
      match load
      case LoadFailed => Some(PullSecretUnreadable)
      case Loaded(secret) =>
        var e3 := Require(secret, "auths", MissingAuths);
        if e3.Some? then e3 else Require(config, "release_image", MissingReleaseImage)
  }

  /** The first two checks come before the file is opened: their verdict does not depend on it. */
  lemma KeyChecksPrecedeFile(config: Doc, load: PullSecretLoad, load': PullSecretLoad)
    requires config.DMap? && ("service_endpoint" !in config.fields || "pull_secret_file" !in config.fields)
    ensures ValidateServiceConfig(config, load) == ValidateServiceConfig(config, load')
    ensures ValidateServiceConfig(config, load).Some?
  {
  }

  /**
   * `release_image` is checked last: a config missing it is reported as
   * such only when every other check passed, and a file problem is reported
   * in preference to it.
   */
  lemma ReleaseImageCheckedLast(config: Doc, load: PullSecretLoad)
    requires config.DMap?
    ensures var r := ValidateServiceConfig(config, load);
      r == Some(MissingReleaseImage) <==>
        && "service_endpoint" in config.fields && "pull_secret_file" in config.fields
        && load.Loaded? && Contains(load.secret, "auths") == Value(true)
        && "release_image" !in config.fields
  {
  }

  /** A dict config is accepted exactly when the three keys are present and the parsed file holds `auths` (as Python's `in` sees it). */
  lemma ServiceConfigAccepted(config: Doc, load: PullSecretLoad)
    requires config.DMap?
    ensures ValidateServiceConfig(config, load).None? <==>
      && "service_endpoint" in config.fields && "pull_secret_file" in config.fields
      && "release_image" in config.fields
      && load.Loaded? && Contains(load.secret, "auths") == Value(true)
  {
  }
}
