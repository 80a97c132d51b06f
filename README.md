# assisted-swarm, modelled in Dafny

assisted-swarm simulates a fleet of OpenShift clusters and hosts against an
assisted-installer service. A Python orchestrator drives one state machine
for the swarm, one per cluster and one per agent. The machines share a
worker pool and an in-memory cache of kube-api objects. On the Go side,
the swarm API keeps a registry of running agents and runs install steps on
behalf of the simulated agents.

This project models the logic of that code and proves what it promises.

- **Lifecycle machine.** The retrying state machine: the recommended next
  state, a raising handler counting as "stay here", and the backoff counter.
  The class is proved against `Run`, a function of the handlers' answers.
- **Snapshot cache.** The kube-object cache: the three typed maps, point
  lookups, the in-place bulk write of a fetch, and the polling loop.
- **Clusters and agents.**
  - The topology checks made at construction.
  - Agent IPs, hostnames, MAC addresses and roles.
  - The plan of manifests a cluster renders, and the launch of its agents into the pool.
  - The agent's UUID extraction.
  - The handlers that wait for a field to appear in a cached object, or patch a cached BareMetalHost.
- **Validators and transformers.**
  - The test-plan and service-config validators.
  - The three container-config adjusters, which change a parsed TOML document in place.
  - The sudo command and environment diff of the executor, and its bytes normalisation, as a UTF-8 round trip.
  - The expansion of a test plan into numbered cluster launches.
  - The install step's validation and merge.
  - The agent-parameter validators, including a recognizer for the IPv4/CIDR pattern proved equal to its decimal meaning.
- **Agent registry.** Create, get, list, terminate and delete, with "nothing else changes" contracts.

Python documents (parsed JSON, YAML and TOML) are the `Doc` datatype, and
Python exceptions are `Try.Raise`. A handler's answer is
`Outcome.Returned(state)` or `Outcome.Raised`.

Everything outside the process is an input:
- what `oc get` returned;
- whether an HTTP PUT succeeded;
- how each handler answers on each step;
- the Go libraries' parsers and validators;
- the file system's `Stat`.

The models of these inputs are `FetchResult`, `Poll`, `Responses`,
`Oracles`, `Formats` and `StatResult`.

Where the system's written design and its code disagree, the model follows
the code:
- **Cache writes.** The design has a fetch replace a type's whole map. The
  code writes each listed object into the existing map
  (swarmkubecache.py:38-39). The model keeps entries the fetch does not
  list (`KubeCache.FetchKeepsUnlisted`).
- **Admission.** The design places a chain of admission gates, and a second
  pool, between clusters and their agents. The code has neither:
  `launch_agents` submits every agent straight to the one shared pool
  (cluster.py:203-206). The model does the same.
- **Handler arguments.** cluster.py builds each agent from a
  `SwarmAgentConfig` and a `ClusterAgentConfig`, but agent.py's
  constructor takes flat arguments. `ClusterAgentConfig` is not defined
  there either. The model follows each file as written: the cluster
  produces `ClusterAgentConfig` values, and `SwarmAgent.Agent` is built
  from a swarm identifier, an index and the cache.
- **single_node.** The test-plan validator tests `single_node` by
  truthiness (config.py:25-27). The cluster constructor compares it with
  False and counts control-plane nodes by truthiness (cluster.py:77-81).
  The model keeps both, so an entry with `single_node: null` and workers
  passes the validator and fails construction
  (`Plan.ValidatorAdmitsNullSingleNode`).

## Model

| member | source | states |
|---|---|---|
| StateMachine.IndexOf | statemachine.py:45-48 | the iterator stops at the first key equal to the current state; every key before it differs, and the whole table is walked when none matches |
| StateMachine.NextStateOfKey | statemachine.py:45-52 | in a table with distinct keys the recommended state after key i is key i+1, and None after the last key |
| StateMachine.NextStateOfUnknown | statemachine.py:49-52 | a state that is not a key of the table recommends None |
| StateMachine.Step | statemachine.py:59-69 | a raising handler leaves the state as it was; a returned state is committed; the step reports success exactly when the state changed |
| StateMachine.RunStopsAtTerminal | statemachine.py:31-43 | start takes at most one step per supplied set of answers, and if it stops before they run out it is at the terminal state |
| StateMachine.TerminalNeverInvoked | statemachine.py:32-33 | no handler call made by start is to the terminal state, and every call is given the recommended next state |
| StateMachine.AlwaysRaising | statemachine.py:35-41 | a state whose handler always raises stays put, and the counter grows by exactly one per attempt |
| StateMachine.BackoffCountsFailures | statemachine.py:35-41 | the counter is bounded by its start plus the number of steps, and it is below the step count whenever the state moved |
| StateMachine.RetryScenario | statemachine.py:31-69 | a handler that fails twice leaves the counter at 2; succeeding on the third call advances and resets it to 0 |
| StateMachine.RetryingStateMachine.constructor | statemachine.py:23-29 | the state is the initial state, the counter 0, and the table, terminal state and name are those given |
| StateMachine.RetryingStateMachine.GetNextState | statemachine.py:45-52 | returns the key after the current state, or None |
| StateMachine.RetryingStateMachine.StateMachine | statemachine.py:54-69 | the new state and the success flag are those of Step; the counter is untouched; the handler call, with its recommended next state, is recorded |
| StateMachine.RetryingStateMachine.Start | statemachine.py:31-43 | the final state and counter equal Run's; finished exactly at the terminal state; the calls made are Calls' |
| KubeCache.EmptyCache | swarmkubecache.py:15-19 | a new cache holds exactly the three types, each with an empty map |
| KubeCache.Lookup | swarmkubecache.py:23-30 | a lookup finds the object stored under "namespace/name" exactly when one is stored there and it is not null |
| KubeCache.EmptyCacheFindsNothing | swarmkubecache.py:23-30 | on a new cache all three getters return None for every namespace and name |
| KubeCache.IngestKeeps | swarmkubecache.py:38-39 | the write loop keeps every key already present, leaves keys it does not write unchanged, and runs to the end exactly when every object has a key |
| KubeCache.IngestFinds | swarmkubecache.py:38-39 | after the loop an object that no later object shares a key with is stored under its own key |
| KubeCache.CacheApiTypeSpec | swarmkubecache.py:32-39 | a fetch changes only the map of its own type and never the set of types; a failed fetch changes nothing and reports failure |
| KubeCache.ObjectKey | swarmkubecache.py:39 | an object has a key exactly when its metadata holds a namespace and a name that format as text; the key is "namespace/name" of their formatted values, and anything else raises |
| KubeCache.ScalarMetadataHasKey | swarmkubecache.py:39 | metadata whose namespace and name are strings, numbers, bools or None always gives a key |
| KubeCache.IntegerNamespaceExample | swarmkubecache.py:39 | an integer namespace 5 and name "x" give the key "5/x", as the f-string formats them |
| KubeCache.FetchedObjectsFound | swarmkubecache.py:36-39 | after a successful fetch every listed object is returned by a lookup of its own formatted metadata namespace and name |
| KubeCache.FetchKeepsUnlisted | swarmkubecache.py:38-39 | objects already cached for a type but absent from the new fetch are kept with their old value |
| KubeCache.CycleIsPerType | swarmkubecache.py:43-48 | one polling cycle gives every type exactly what its own fetch gives it, so one failing type does not stop the others |
| KubeCache.MonitorStopsWhenDone | swarmkubecache.py:41-42 | once the done event is seen set, later polls have no effect on the cache |
| KubeCache.SwarmKubeCache.constructor | swarmkubecache.py:14-19 | the cache starts as EmptyCache |
| KubeCache.SwarmKubeCache.GetInfraenv | swarmkubecache.py:23-24 | the InfraEnv lookup |
| KubeCache.SwarmKubeCache.GetAgentClusterInstall | swarmkubecache.py:26-27 | the AgentClusterInstall lookup |
| KubeCache.SwarmKubeCache.GetBaremetalhost | swarmkubecache.py:29-30 | the BareMetalHost lookup |
| KubeCache.SwarmKubeCache.CacheApiType | swarmkubecache.py:32-39 | the new cache and the raised/returned flag are CacheApiTypeSpec's, and the cache keeps its three types |
| KubeCache.SwarmKubeCache.Cycle | swarmkubecache.py:43-48 | the cache after one pass over the types in order is CycleSpec's |
| KubeCache.SwarmKubeCache.Monitor | swarmkubecache.py:41-50 | the cache after polling is MonitorSpec's |
| SwarmCluster.CheckTopology | cluster.py:77-86 | fails as single-node with workers exactly when neither single_node nor num_workers equals False/0; otherwise raises TypeError exactly when num_workers is not a number, and else accepts exactly when the control-plane count (1 when single_node is truthy, else 3) plus the workers is at most 2^16 - 4 |
| SwarmCluster.TypedTopology | cluster.py:77-86 | with a bool single_node and an integer num_workers, accepted exactly when not single-node with workers and the total is at most 2^16 - 4 |
| SwarmCluster.NullSingleNodeWithWorkers | cluster.py:77-82 | single_node null with two workers fails the single-node assertion, since null is not equal to False, yet counts three control-plane nodes |
| SwarmCluster.AgentIpsShape | cluster.py:94-95 | the IP list has one entry per agent; entry k is 10.123.hi.lo/16, with 256*hi + lo = k + 1 and lo < 256, and hi < 256 in an accepted topology |
| SwarmCluster.AgentIpInjective | cluster.py:95 | different agent numbers give different addresses |
| SwarmCluster.AgentIpsDistinct | cluster.py:94-95 | no two agents of a cluster share an IP |
| SwarmCluster.HostnamesDistinct | cluster.py:98-99 | one hostname per agent, the k-th is the identifier, a dash and k, and no two agents share one |
| SwarmCluster.MakeMacAsWritten | cluster.py:106-118 | raises an AssertionError exactly when either index is 2^24 or more, as the source does |
| SwarmCluster.MakeMac | cluster.py:106-118 | raises an AssertionError exactly when either index is 2^24 or more; the six groups it formats are one byte each (see MakeMacRoundTrip) |
| SwarmCluster.MakeMacRoundTrip | cluster.py:110-118 | below 2^24 the corrected MAC is six two-digit hex groups that spell back both indexes |
| SwarmCluster.MakeMacInjective | cluster.py:110-118 | different (cluster, agent) pairs get different MACs |
| SwarmCluster.MakeMacAgreesBelow16Bits | cluster.py:110-118 | below 2^16 the source's MAC and the corrected one are equal |
| SwarmCluster.MakeMacAsWrittenMalformed | cluster.py:111-112 | from cluster index 2^16 on, the source's address is longer than 17 characters and is not a MAC |
| SwarmCluster.MakeMacAsWrittenExample | cluster.py:111-112 | cluster 65536, agent 0 gives "01:100:00:00:00:00" |
| SwarmCluster.FormatGroupsRoundTrip | cluster.py:118 | byte-sized groups format to colon-separated hex pairs that parse back to the groups |
| SwarmCluster.ManifestPlanPrefix | cluster.py:154-155 | the rendering plan starts with the six per-cluster templates in order, then two renderings per agent |
| SwarmCluster.ManifestPlanLayout | cluster.py:157-164 | agent k contributes a BMH then a BMH secret, both with its MAC and name, and exactly the first num_control_plane agents are masters, the rest workers |
| SwarmCluster.RoleIsMasterOrWorker | cluster.py:163 | an agent is a master exactly below num_control_plane and a worker exactly from it on |
| SwarmCluster.ManifestPlanMacsDistinct | cluster.py:157-164 | different agents are rendered with different MACs |
| SwarmCluster.AgentConfigsDistinct | cluster.py:185-201 | every agent's config carries its own index, and no two share an identifier, MAC, IP or hostname |
| SwarmCluster.Cluster.constructor | cluster.py:61-86 | an accepted topology gives a valid cluster whose total is the control-plane count of single_node (1 when truthy, else 3) plus the numeric value of num_workers, with nothing rendered or launched |
| SwarmCluster.NewCluster | cluster.py:77-86 | construction fails exactly when CheckTopology reports an error, and with that error; otherwise it gives a fresh valid cluster |
| SwarmCluster.Cluster.AddressesFit | cluster.py:84-99 | in a constructed cluster the agent count is at most 2^16 - 4 and there is one IP and one hostname per agent |
| SwarmCluster.Cluster.GenerateManifests | cluster.py:120-171 | the rendered sequence is ManifestPlan for all agents; when make_mac raises, the handler raises and nothing is stored |
| SwarmCluster.Cluster.RenderClusterManifests | cluster.py:154-155 | renders the six per-cluster templates in order |
| SwarmCluster.Cluster.RenderAgentManifests | cluster.py:157-164 | appends the agent's two renderings, or raises exactly when the cluster index is out of range for make_mac |
| SwarmCluster.Cluster.LaunchAgents | cluster.py:184-208 | builds every agent's config in index order and submits one start job per agent to the shared pool in that order, recording each handle; raises before any submission when make_mac would |
| SwarmCluster.Cluster.WaitForInfraId | cluster.py:270-287 | stays unless the cached AgentClusterInstall has a truthy spec.clusterMetadata.infraID, which it then stores before advancing |
| SwarmCluster.Cluster.Done | cluster.py:289-290 | always returns the current state |
| SwarmAgent.AgentIdentifierInjective | agent.py:82 | agents of one swarm with different indexes have different identifiers |
| SwarmAgent.AgentMacRoundTrip | agent.py:106 | below 2^16 the MAC is "00:00:00:00:" and two hex pairs that spell the index |
| SwarmAgent.AgentMacInjective | agent.py:106 | below 2^16 different indexes get different MACs |
| SwarmAgent.FirstUuidFrom | agent.py:193-195 | the leftmost position at or after i where the 8-4-4-4-12 lower-case hex pattern matches, None when there is none |
| SwarmAgent.GetInfraenvIdFromUrl | agent.py:191-199 | a UUID-shaped substring at the leftmost match; succeeds exactly when the URL contains a match, otherwise raises RuntimeError |
| SwarmAgent.UrlWait | agent.py:207-219 | no cached object: stay; an empty or missing URL: stay; otherwise advance with the URL |
| SwarmAgent.UrlWaitAdvances | agent.py:207-219 | a cached object holding a non-empty URL lets the wait advance with it |
| SwarmAgent.UrlWaitStaysOnEmpty | agent.py:210-212 | a cached object holding "" keeps the wait in its state |
| SwarmAgent.InfraIdWait | agent.py:141-153 | advances only with a truthy infraID; no object or a falsy value stays |
| SwarmAgent.InfraIdWaitOnPresent | agent.py:141-149 | a cached infraID advances exactly when it is truthy |
| SwarmAgent.Answer | agent.py:144-153 | staying returns the current state, advancing the recommended one, and a failure raises |
| SwarmAgent.PatchedStateReadsBack | agent.py:250-263 | after the patch, a lookup of the agent's BMH finds it and its status.provisioning.state is the new state |
| SwarmAgent.Agent.constructor | agent.py:79-106 | the identifier is the swarm identifier, a dash and the index; the MAC is AgentMac(index); nothing is stored yet |
| SwarmAgent.Agent.WaitIsoUrlInfraenv | agent.py:201-223 | stays without an InfraEnv or URL; otherwise stores the URL and the UUID it holds and advances, or raises when it holds none |
| SwarmAgent.Agent.WaitIsoUrlBmh | agent.py:225-247 | stays without a BMH or URL; otherwise stores the BMH URL and recomputes the id from the InfraEnv URL, raising when that URL was never stored or holds no UUID |
| SwarmAgent.Agent.SetBmhProvisioningState | agent.py:249-278 | no cached BMH: returns false and changes nothing; otherwise replaces the cached BMH's status with one whose provisioning state is the argument, changing no other object, and returns true or raises as the PUT went |
| SwarmAgent.Agent.SetProvisioningHandler | agent.py:280-290 | advances exactly when the status was set and the PUT succeeded; stays, with the cache unchanged, when there is no BMH; raises otherwise; the cache is patched whenever a BMH was found |
| SwarmAgent.Agent.ReadyBmh | agent.py:280-284 | the "ready" handler: patches the BMH to provisioning state ready, advancing or raising as SetProvisioningHandler does |
| SwarmAgent.Agent.ProvisionedBmh | agent.py:286-290 | the "provisioned" handler: patches the BMH to provisioning state provisioned, advancing or raising as SetProvisioningHandler does |
| SwarmAgent.Agent.WaitForInfraId | agent.py:135-153 | the answer is InfraIdWait's; the infraID is stored exactly when it advances |
| SwarmAgent.Agent.Done | agent.py:413-414 | always returns the current state |
| Config.Require | config.py:7-8 | on a dict, None when the key is present and the given error otherwise |
| Config.CheckCluster | config.py:15-27 | on a dict: missing num_workers, single_node, amount in that order, then single-node with workers, otherwise accepted |
| Config.CheckClusters | config.py:15-27 | accepted exactly when every cluster is; otherwise the error of the first failing cluster |
| Config.ValidateTestPlan | config.py:6-27 | missing clusters, then clusters not a list, then the per-cluster checks |
| Config.CheckClusterAccepts | config.py:15-27 | a cluster passes exactly when it is a dict with the three keys that is not single-node with workers |
| Config.TestPlanAccepted | config.py:6-27 | a plan is accepted exactly when clusters is a list of such entries |
| Config.AmountUnconstrained | config.py:22-27 | the value of amount never changes the verdict |
| Config.ValidateServiceConfig | config.py:30-43 | missing service_endpoint, then missing pull_secret_file, is reported before the file is read |
| Config.KeyChecksPrecedeFile | config.py:31-37 | with either key missing the verdict is an error that does not depend on the file |
| Config.ReleaseImageCheckedLast | config.py:37-43 | a missing release_image is reported exactly when every other check, including auths, passed |
| Config.ServiceConfigAccepted | config.py:30-43 | accepted exactly when the three keys are present and the parsed pull secret holds auths |
| ContainerConfig.SetIn | containerconfig.py:16 | a successful assignment yields a dict with the same keys plus the assigned one |
| ContainerConfig.SetInSucceeds | containerconfig.py:16 | a nested assignment succeeds exactly when its parent table exists and is a dict |
| ContainerConfig.SetInThenGet | containerconfig.py:16 | after the assignment the path holds the assigned value |
| ContainerConfig.SetInKeepsOthers | containerconfig.py:16 | every path that branches off the assigned one is unchanged |
| ContainerConfig.ExtendInThenGet | containerconfig.py:28 | after extend, the list is the old list followed by the items |
| ContainerConfig.GraphrootAdjustedSets | containerconfig.py:14-17 | the graphroot adjust sets storage.graphroot and leaves every other path untouched |
| ContainerConfig.GraphrootAdjustedFails | containerconfig.py:14-17 | it fails exactly when storage is missing or not a dict, and then changes nothing |
| ContainerConfig.StoresAdjustedSets | containerconfig.py:26-30 | the stores adjust makes additionalimagestores the old list followed by the stores, and then sets the graphroot |
| ContainerConfig.StoresAdjustedGraphrootCannotFail | containerconfig.py:28-29 | once the stores were extended, setting the graphroot cannot fail |
| ContainerConfig.EnvAdjustedSets | containerconfig.py:39-45 | containers.env becomes the old list (or the empty one when absent) followed by the names, and engine.num_locks the given count |
| ContainerConfig.EnvAdjustedPartial | containerconfig.py:41-44 | without an engine table the env is still extended before the adjust raises KeyError |
| ContainerConfig.Apply | containerconfig.py:15-16 | a step that succeeds replaces the document; one that raises leaves it and reports the exception |
| ContainerConfig.TomlDocument.constructor | containerconfig.py:14 | holds the given document |
| ContainerConfig.ContainerStorageConfigWithGraphroot.constructor | containerconfig.py:10-12 | keeps the graphroot |
| ContainerConfig.ContainerStorageConfigWithGraphroot.Adjust | containerconfig.py:14-17 | mutates the given document into GraphrootAdjusted's and returns that same object, or raises |
| ContainerConfig.ContainerStorageConfigWithGraphrootAndAdditionalImageStores.constructor | containerconfig.py:21-24 | keeps the graphroot and the stores |
| ContainerConfig.ContainerStorageConfigWithGraphrootAndAdditionalImageStores.Adjust | containerconfig.py:26-30 | mutates the given document into StoresAdjusted's and returns that same object, or raises |
| ContainerConfig.ContainerConfigWithEnvAndNumLocks.constructor | containerconfig.py:34-37 | keeps the names and the lock count |
| ContainerConfig.ContainerConfigWithEnvAndNumLocks.Adjust | containerconfig.py:39-45 | mutates the given document into EnvAdjusted's and returns that same object, or raises after the steps that succeeded |
| Executor.PrepareSudoCommand | swarmexecutor.py:19-21 | length is the command's plus 2, the first element is "sudo", and the rest is the command unchanged |
| Executor.PreserveEnvNamesKeys | swarmexecutor.py:21 | the second element is "--preserve-env=" followed by the names, which split back to the environment's keys in order; an empty environment gives the bare flag |
| Executor.SplitJoinRoundTrip | swarmexecutor.py:21 | comma-joining comma-free names and splitting gives the names back |
| Executor.DictionaryDiff | swarmexecutor.py:10-11 | a sub-map of a that keeps exactly the keys b lacks or maps to another value |
| Executor.DiffWithItselfEmpty | swarmexecutor.py:10-11 | an environment differs from itself nowhere |
| Executor.DiffCompletesBase | swarmexecutor.py:10-14 | the base environment overlaid with the difference agrees with the given environment on every key of it |
| Executor.CheckOutput | swarmexecutor.py:31-38 | bytes pass through; a str is UTF-8 encoded |
| Executor.DecodeChar | swarmkubecache.py:36 | a decoded character took between one byte and the rest of the input, and exactly as many bytes as its own encoding, so no overlong form decodes |
| Executor.OverlongRejected | swarmkubecache.py:36 | the two-, three- and four-byte overlong encodings of NUL do not decode |
| Executor.Utf8RoundTrip | swarmexecutor.py:35-38 | decoding the encoded text gives the text back |
| Executor.AsciiEncodesBytewise | swarmexecutor.py:35-38 | ASCII text encodes to one byte per character, with the character's code |
| Plan.CheckMaxConcurrent | main.py:28 | accepted exactly when max_concurrent is above 5; otherwise an AssertionError |
| Plan.RangeLength | main.py:50 | an integer amount gives that many iterations (none when negative); a bool gives 1 or 0; a non-number raises TypeError |
| Plan.ValidatorAndConstructorDisagree | config.py:25-27 | for an entry with its keys, the validator and the cluster constructor disagree on single-node-with-workers exactly when there are workers and single_node is falsy without being False |
| Plan.ValidatorAdmitsNullSingleNode | config.py:25-27 | an entry with single_node null and two workers passes the validator and fails the constructor's single-node assertion |
| Plan.ExpandEntryRepeats | main.py:50 | a well-formed entry expands to amount copies of its single_node and num_workers |
| Plan.ExpandSucceeds | main.py:50 | a well-formed plan expands without error to as many launches as the sum of the amounts |
| Plan.ExpandConcat | main.py:50 | expanding concatenated plans concatenates the expansions, so plan order is kept and copies stay contiguous |
| Plan.LaunchJobs | main.py:52-53 | the i-th job launches cluster i with the i-th expanded topology |
| Plan.ExecutePlan | main.py:49-55 | a failing expansion raises before any submission; otherwise each launch is submitted once, numbered in order, and the wait comes after all of them |
| Plan.WaitFollowsAllSubmissions | main.py:52-55 | in those events the wait is last and everything between the earlier events and it is a submission |
| Pool.TaskPool.constructor | taskpool.py:8-10 | starts with no submissions and no events |
| Pool.TaskPool.Submit | taskpool.py:12-15 | appends the job to the submissions and returns its position |
| Pool.TaskPool.Wait | taskpool.py:17-19 | appends a wait event after the events so far, leaving the submissions alone |
| Registry.AgentRecord.constructor | src/agents/agents.go:19-23 | a new record has the given id and is running |
| Registry.AgentRegistry.constructor | src/agents/agents.go:12 | the registry starts empty |
| Registry.AgentRegistry.RecordsDistinct | src/agents/agents.go:24 | different ids hold different records |
| Registry.AgentRegistry.GetAgent | src/agents/agents.go:28-34 | None exactly for an unregistered id, otherwise the stored record |
| Registry.AgentRegistry.NewAgent | src/agents/agents.go:14-26 | an existing id is an error and changes nothing; a fresh id stores a fresh running record with that id, which GetAgent then returns |
| Registry.AgentRegistry.ListAgents | src/agents/agents.go:36-42 | every registered record exactly once, none other, and an empty list for an empty registry |
| Registry.AgentRegistry.SetTerminated | src/agents/agents.go:44-51 | marks the record of a present id terminated; the table and every other record's status are unchanged |
| Registry.AgentRegistry.DeleteAgent | src/agents/agents.go:53-60 | an absent id is an error and changes nothing; a present id is removed, so GetAgent finds nothing, and every other entry stays |
| InstallRunner.BareImageMatches | src/runners/install_runner.go:168 | a name part followed by a tag part matches the must-gather pattern without a host |
| InstallRunner.HostedImageMatches | src/runners/install_runner.go:168 | a host, an optional port, a slash, then a name and tag part also match |
| InstallRunner.ImageCharacters | src/runners/install_runner.go:168 | a matching image is not empty and uses only the pattern's characters |
| InstallRunner.ImageMap | src/runners/install_runner.go:162-167 | a value that does not decode as a JSON map is the single entry ocp mapped to the value |
| InstallRunner.ValidateMustGatherImages | src/runners/install_runner.go:161-183 | succeeds exactly when every entry's image matches and its operator is one of cnv, lso, ocs, odf, ocp; otherwise reports the error of some failing entry |
| InstallRunner.PlainImageIsOcp | src/runners/install_runner.go:162-167 | a non-JSON value is accepted exactly when it matches the pattern |
| InstallRunner.UnknownOperatorRejected | src/runners/install_runner.go:178-180 | an operator outside the five makes the check fail |
| InstallRunner.ValidateProxy | src/runners/install_runner.go:132-159 | passes exactly when each non-empty proxy setting passes its format check |
| InstallRunner.PathExists | src/runners/install_runner.go:198-206 | true only when Stat succeeds; a missing path and any other error are both false |
| InstallRunner.DisksToValidate | src/runners/install_runner.go:186 | the disks to format, in order, then the boot device ("" when nil) |
| InstallRunner.DiskError | src/runners/install_runner.go:188-193 | none exactly for a /dev/ path that exists; a missing prefix is reported before existence is checked |
| InstallRunner.FirstDiskError | src/runners/install_runner.go:187-195 | none exactly when every disk is valid |
| InstallRunner.FirstDiskErrorIsFirst | src/runners/install_runner.go:187-195 | a reported error belongs to a disk all of whose predecessors are valid |
| InstallRunner.MissingBootDeviceFails | src/runners/install_runner.go:186-190 | without a boot device the disk check always fails |
| InstallRunner.ValidateDisks | src/runners/install_runner.go:185-196 | the early-return loop yields FirstDiskError of the disks to validate |
| InstallRunner.LaterChecksAccept | src/runners/install_runner.go:63-91 | the checks after the must-gather image pass exactly when the proxy, installer arguments, version and every disk pass |
| InstallRunner.DisksCheckedLast | src/runners/install_runner.go:63-91 | a disk error is reported only after the proxy, installer-argument and version checks passed |
| InstallRunner.MergeReplacesDisks | src/runners/install_runner.go:95-108 | with a role, the disks to format become the request's list in order whatever was there before, and the role and boot device are copied |
| InstallRunner.MergeProxyAndServiceIps | src/runners/install_runner.go:123-128 | the service IPs are comma-joined; proxy fields are overwritten only when the request has a proxy |
| InstallRunner.MergeWithoutRole | src/runners/install_runner.go:95 | a nil role fails before any field is written |
| InstallRunner.ValidatedRequestMerges | src/runners/install_runner.go:70-81 | a validated request with a role merges without error, with the installer arguments validation decoded |
| InstallRunner.InstallConfig.constructor | src/runners/install_runner.go:34 | holds the given configuration values |
| InstallRunner.Runner.constructor | src/runners/install_runner.go:35-40 | keeps the configuration, the arguments and the collaborators |
| InstallRunner.Runner.Validate | src/runners/install_runner.go:50-92 | decodes the arguments into the request, then checks the must-gather image, then the proxy, installer arguments, version and disks in order, stopping at the first failure |
| InstallRunner.Runner.Merge | src/runners/install_runner.go:94-130 | the configuration and result are MergeSpec's, including the fields already written when the installer arguments fail to decode |
| InstallRunner.NewInstallerRunner | src/runners/install_runner.go:34-48 | an undecodable request gives the common-validation error and an invalid one its validator's error, leaving the shared configuration unchanged; a valid one leaves the configuration merged and gives a runner exactly when the merge succeeds, otherwise the merge's error |
| AgentParams.OctetMeaning | models/new_agent_params.go:109 | the octet alternatives together match exactly the strings of one to three decimal digits whose value is at most 255, leading zeros included |
| AgentParams.PrefixMeaning | models/new_agent_params.go:109 | the prefix alternatives together match exactly the one- or two-digit decimals from 1 to 32 without a leading zero |
| AgentParams.MatchFromMeaning | models/new_agent_params.go:109 | the recognizer accepts exactly the strings made of decimal octets, dots and a decimal prefix |
| AgentParams.HostIpv4Meaning | models/new_agent_params.go:109 | the whole pattern matches exactly four decimal octets joined by dots, a slash and a prefix |
| AgentParams.AgentIpMatches | models/new_agent_params.go:109 | every agent IP the swarm hands out satisfies the pattern |
| AgentParams.ValidateDryForcedHostId | models/new_agent_params.go:92-102 | the empty value passes; otherwise it passes exactly when it is a UUID, else a format error for the field |
| AgentParams.ValidateDryForcedHostIpv4 | models/new_agent_params.go:104-114 | the empty value passes; otherwise it passes exactly when it is a dotted-quad CIDR, else a pattern error for the field |
| AgentParams.ValidateDryForcedMacAddress | models/new_agent_params.go:116-126 | the empty value passes; otherwise it passes exactly when it is a MAC, else a format error for the field |
| AgentParams.ValidateInfraEnvId | models/new_agent_params.go:128-138 | the empty value passes; otherwise it passes exactly when it is a UUID, else a format error for the field |
| AgentParams.Failures | models/new_agent_params.go:68-85 | no more errors than checks, and none exactly when every check passed |
| AgentParams.FailuresAreTheErrors | models/new_agent_params.go:68-85 | every failing check's error is collected and nothing else is |
| AgentParams.Validate | models/new_agent_params.go:67-90 | None exactly when all four checks pass; otherwise every error, in field order, and at least one |
| AgentParams.EmptyFieldsValidate | models/new_agent_params.go:93-131 | a request whose four checked fields are empty passes |
| AgentParams.ContextValidate | models/new_agent_params.go:141-143 | always succeeds |
| Doc.Subscript | config.py:10 | a dict with the key gives its value; a dict without it raises KeyError; anything else raises TypeError |
| Doc.Get | agent.py:208 | only a dict has get; present keys give their value, absent ones the default |
| Doc.GetPathPresent | agent.py:142 | a chain of gets along a path of present keys yields the leaf |
| Doc.Contains | config.py:7 | on a dict it is key membership; on a number, bool or None it raises TypeError |
| Doc.Format | swarmkubecache.py:39 | `str()` in an f-string: every scalar formats, a string as itself; a list or dict gives None |
| Doc.FormatIntRoundTrip | swarmkubecache.py:39 | an integer formats as an optional minus sign and decimal digits that parse back to its value |
| Doc.IntValue | cluster.py:81-85 | a number in arithmetic: an integer is itself, a bool is 0 or 1, anything else has none |

## Left out

- Process, network and file I/O are inputs, not modelled. This covers the
  `oc`, `podman` and `sudo` runs, the HTTP PUT of a BMH status, jinja2
  rendering, manifest files, and reading the pull-secret file.
  `run_agent`, `run_controller`, `initialize`, `apply_manifests`,
  `create_container_configs` and `download_iso` are the handlers made only
  of such steps, so they are not modelled.
- Concurrency and timing: the thread pool runs nothing; a submission is a
  record in a list. `time.sleep`, the swarm's threads and the Go
  goroutines are not modelled.
- swarm.py is not part of this model: its handlers are subprocess, HTTP and
  file steps, and its secret-name prefix selection is not modelled.
- `wait_for_agents` only blocks on the agents' results and is not modelled.
- StateMachine.RetryingStateMachine.Start: the loop takes one set of
  handler answers per step, so it ends when those run out. The source
  retries forever.
- SwarmCluster.Cluster.GenerateManifests: it records which template was
  rendered with which parameters, not the rendered text joined by
  `"\n---\n"`. The shared parameters, such as the pull secret in base64,
  are not modelled.
- SwarmCluster.Cluster.GenerateManifests and
  SwarmCluster.Cluster.LaunchAgents use the corrected `MakeMac`; listed
  under Findings.
- SwarmAgent.Agent.constructor: the host id (`uuid.uuid4()`), directories
  and paths are not modelled.
- SwarmAgent.Agent.SetBmhProvisioningState: the PUT's URL, headers and
  certificate are not modelled; only whether it raised is an input.
- KubeCache.SwarmKubeCache.CacheApiType: running `oc get` and decoding its
  JSON are one input, which failed or gave a document.
- Config.ValidateServiceConfig: opening and parsing the pull-secret file is
  one input, which failed or gave a document. `load_config`'s
  re-serialisation of the pull secret is not modelled.
- Executor: logging in `log_cmd`, `Popen` and `check_call` is not
  modelled. The process environment is a parameter of the diff.
- InstallRunner: `ValidateCommon`, the proxy, no-proxy and installer-argument
  validators, version parsing, JSON decoding and `Stat` belong to external
  libraries and are oracles. `Run`, `Command` and `Args` only delegate or
  return fields, so they are not modelled.
- InstallRunner.Runner.Merge: Go's `json.Unmarshal` can leave a
  partially decoded list behind when it fails. The model leaves the
  previous installer arguments in place. A nil `Role` is a panic in Go
  and an error result here.
- InstallRunner.InstallCmdRequest: cluster and host ids are plain strings,
  not UUID values.
- AgentParams: the UUID and MAC format checks of strfmt are oracles.
  `MarshalBinary` and `UnmarshalBinary` only call the JSON library, so they
  are not modelled. A composite validation error is the list of its parts.
- Registry: ids are unbounded integers rather than `int64`. Creation and
  termination timestamps are not modelled. The hash map's iteration order
  is a nondeterministic choice.
- Doc: floating-point numbers in documents are not modelled, so neither is
  a float `0.0` comparing equal to False.
- KubeCache.ObjectKey: a namespace or name that is a list or dict is
  reported as TypeError, where Python would format its repr; the repr of a
  dict depends on insertion order, which `Doc` does not keep.

## Findings

| source | as written | input that shows it | evidently intended | confidence | as-written member | corrected member |
|---|---|---|---|---|---|---|
| cluster.py:110-118 | the middle group of each index is `index >> 8`, without a mask to one byte | cluster index 65536, agent index 0 gives "01:100:00:00:00:00", seven groups' worth of characters in six groups | `(index >> 8) & 0xFF`, so each group is one byte and the address is a well-formed MAC for every index below 2^24 | not executed; follows from the arithmetic, reachable only with at least 65536 clusters | SwarmCluster.MakeMacAsWrittenMalformed | SwarmCluster.MakeMacRoundTrip |
