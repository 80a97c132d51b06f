/**
 * One simulated cluster: the topology checks made when it is constructed,
 * the addresses and names handed to its agents, the MAC address scheme,
 * the plan of manifests it renders, the launch of its agents into the
 * shared pool, and its wait for the AgentClusterInstall's infraID.
 */
module SwarmCluster {
  import opened Wrappers
  import opened Text
  import opened Doc
  import opened KubeCache
  import opened StateMachine
  import opened SwarmAgent
  import opened Pool

  /** The handler table of a cluster, in order; "Done" is terminal. */
  const ClusterStates: seq<string> := [
    "Initializing", "Generating manifests", "Applying manifests", "Launching agents",
    "Waiting for AgentClusterInstall clusterMetadata infraID",
    "Generating container configurations", "Running controller",
    "Wait for agents to complete", "Done"]

  /* ------------------------------------------------------------------ */
  /* Topology                                                            */
  /* ------------------------------------------------------------------ */

  /** The most agents one cluster may have, `2 ** 16 - 4`. */
  const MaxAgents: int := 0x1_0000 - 4

  /**
   * Why construction fails: the single-node assertion, a worker count that
   * cannot be added to the control-plane count, or the size assertion.
   */
  datatype TopologyError = SingleNodeWithWorkers | WorkersNotNumeric | TooManyAgents(total: int)

  /** `1 if single_node else 3`: by truthiness. */
  function ControlPlaneCount(singleNode: Doc): nat
  {
    if Truthy(singleNode) then 1 else 3
  }

  /**
   * The constructor's checks, in order, on the values the test plan gave:
   * `single_node == False or num_workers == 0` (an equality test, not
   * truthiness), then `total_agents`, whose addition raises TypeError for a
   * worker count that is not a number, then the size bound.
   */
  function CheckTopology(singleNode: Doc, numWorkers: Doc): (r: Option<TopologyError>)
    ensures r == Some(SingleNodeWithWorkers) <==> !EqualsZero(singleNode) && !EqualsZero(numWorkers)
    ensures r == Some(WorkersNotNumeric) <==> EqualsZero(singleNode) && IntValue(numWorkers).None?
    ensures r.None? <==>
      && (EqualsZero(singleNode) || EqualsZero(numWorkers))
      && IntValue(numWorkers).Some? && ControlPlaneCount(singleNode) + IntValue(numWorkers).value <= MaxAgents
    ensures r.Some? && r.value.TooManyAgents? ==> r.value.total == ControlPlaneCount(singleNode) + IntValue(numWorkers).value
  {
    if !EqualsZero(singleNode) && !EqualsZero(numWorkers) then Some(SingleNodeWithWorkers)
    else
      match IntValue(numWorkers)
      case None => Some(WorkersNotNumeric)
      case Some(w) =>
        if ControlPlaneCount(singleNode) + w > MaxAgents then Some(TooManyAgents(ControlPlaneCount(singleNode) + w))
        else None
  }

  /** With a boolean single_node and an integer worker count, the checks are the obvious ones. */
  lemma TypedTopology(singleNode: bool, numWorkers: int)
    ensures CheckTopology(DBool(singleNode), DInt(numWorkers)).None? <==>
      !(singleNode && numWorkers != 0) && (if singleNode then 1 else 3) + numWorkers <= MaxAgents
  {
  }

  /** A null single_node is not `== False`: with workers, construction fails although the cluster is not single-node. */
  lemma NullSingleNodeWithWorkers()
    ensures CheckTopology(DNull, DInt(2)) == Some(SingleNodeWithWorkers)
    ensures ControlPlaneCount(DNull) == 3
  {
  }

  /** How many iterations a Python range over `total` has: a negative worker count can make the total negative. */
  function RangeCount(total: int): nat
  {
    if total < 0 then 0 else total
  }

  /* ------------------------------------------------------------------ */
  /* Agent IPs and hostnames                                             */
  /* ------------------------------------------------------------------ */

  /** Address 10.123.x.y/16, with x the high and y the low byte of the agent index, in decimal. */
  function AgentIp(i: nat): string
  {
    "10.123." + Dec(i / 256) + "." + Dec(i % 256) + "/16"
  }

  /** One IP per agent, numbered from 1. */
  function AgentIps(total: int): seq<string>
  {
    seq(RangeCount(total), k requires 0 <= k => AgentIp(k + 1))
  }

  function Hostnames(identifier: string, total: int): seq<string>
  {
    seq(RangeCount(total), k requires 0 <= k => AgentIdentifier(identifier, k))
  }

  predicate Distinct<T(==)>(s: seq<T>)
  {
    forall j, k :: 0 <= j < k < |s| ==> s[j] != s[k]
  }

  lemma AgentIpSplit(i: nat)
    ensures AgentIp(i) == "10.123." + (Dec(i / 256) + ['.'] + (Dec(i % 256) + ['/'] + "16"))
  {
  }

  lemma AgentIpInjective(i: nat, j: nat)
    ensures AgentIp(i) == AgentIp(j) ==> i == j
  {
    if AgentIp(i) == AgentIp(j) {
      var p := "10.123.";
      var y, y' := Dec(i % 256) + ['/'] + "16", Dec(j % 256) + ['/'] + "16";
      AgentIpSplit(i);
      AgentIpSplit(j);
      assert Dec(i / 256) + ['.'] + y == AgentIp(i)[|p|..];
      assert Dec(j / 256) + ['.'] + y' == AgentIp(j)[|p|..];
      DecDigits(i / 256);
      DecDigits(j / 256);
      SplitAtSeparator(Dec(i / 256), y, Dec(j / 256), y', '.');
      DecDigits(i % 256);
      DecDigits(j % 256);
      SplitAtSeparator(Dec(i % 256), "16", Dec(j % 256), "16", '/');
      DecInjective(i / 256, j / 256);
      DecInjective(i % 256, j % 256);
    }
  }

  /**
   * The IP list has one entry per agent, entry k is the address of agent
   * k + 1 written as two dotted octets, and every octet is below 256 in an
   * accepted topology.
   */
  lemma AgentIpsShape(total: int, k: nat)
    requires k < |AgentIps(total)|
    ensures |AgentIps(total)| == RangeCount(total)
    ensures exists hi: nat, lo: nat :: lo < 256 && 256 * hi + lo == k + 1
                               && AgentIps(total)[k] == "10.123." + Dec(hi) + "." + Dec(lo) + "/16"
    ensures total <= MaxAgents ==> (k + 1) / 256 < 256
  {
    var hi, lo := (k + 1) / 256, (k + 1) % 256;
    assert AgentIps(total)[k] == "10.123." + Dec(hi) + "." + Dec(lo) + "/16";
  }

  /** No two agents of a cluster share an IP. */
  lemma AgentIpsDistinct(total: int)
    ensures Distinct(AgentIps(total))
  {
    var ips := AgentIps(total);
    forall j, k | 0 <= j < k < |ips|
      ensures ips[j] != ips[k]
    {
      AgentIpInjective(j + 1, k + 1);
    }
  }

  /** Hostname k is `"<identifier>-<k>"`, and no two agents share one. */
  lemma HostnamesDistinct(identifier: string, total: int)
    ensures |Hostnames(identifier, total)| == RangeCount(total)
    ensures forall k :: 0 <= k < RangeCount(total) ==>
      Hostnames(identifier, total)[k] == identifier + "-" + Dec(k)
    ensures Distinct(Hostnames(identifier, total))
  {
    var names := Hostnames(identifier, total);
    forall j, k | 0 <= j < k < |names|
      ensures names[j] != names[k]
    {
      AgentIdentifierInjective(identifier, j, k);
    }
  }

  /* ------------------------------------------------------------------ */
  /* MAC addresses                                                       */
  /* ------------------------------------------------------------------ */

  /** Both indexes of a MAC address must be below `2 ** 24`. */
  const MacIndexLimit: nat := 0x100_0000

  /** The six groups `make_mac` formats, as the source computes them: the middle group of each index is not masked. */
  function MacOctetsAsWritten(clusterIndex: nat, agentIndex: nat): seq<nat>
  {
    [clusterIndex / 0x1_0000, clusterIndex / 0x100, clusterIndex % 0x100,
     agentIndex / 0x1_0000, agentIndex / 0x100, agentIndex % 0x100]
  }

  /** The six groups with the middle group of each index masked to one byte. */
  function MacOctets(clusterIndex: nat, agentIndex: nat): seq<nat>
  {
    [clusterIndex / 0x1_0000, (clusterIndex / 0x100) % 0x100, clusterIndex % 0x100,
     agentIndex / 0x1_0000, (agentIndex / 0x100) % 0x100, agentIndex % 0x100]
  }

  /** Each group as two-digit lower-case hexadecimal, in order. */
  function HexParts(octets: seq<nat>): (r: seq<string>)
    ensures |r| == |octets|
  {
    if octets == [] then [] else [Hex02(octets[0])] + HexParts(octets[1..])
  }

  /** The groups in hexadecimal, separated by colons. */
  function FormatMac(octets: seq<nat>): string
  {
    Join(HexParts(octets), ":")
  }

  /** `make_mac` as the source writes it. */
  function MakeMacAsWritten(clusterIndex: nat, agentIndex: nat): (r: Try<string>)
    ensures r.Raise? <==> clusterIndex >= MacIndexLimit || agentIndex >= MacIndexLimit
    ensures r.Raise? ==> r.err == AssertionError
  {
    if clusterIndex >= MacIndexLimit || agentIndex >= MacIndexLimit then Raise(AssertionError)
    else Value(FormatMac(MacOctetsAsWritten(clusterIndex, agentIndex)))
  }

  /** `make_mac` with the middle groups masked; the rest of the model uses this one. */
  function MakeMac(clusterIndex: nat, agentIndex: nat): (r: Try<string>)
    ensures r.Raise? <==> clusterIndex >= MacIndexLimit || agentIndex >= MacIndexLimit
    ensures r.Raise? ==> r.err == AssertionError
  {
    if clusterIndex >= MacIndexLimit || agentIndex >= MacIndexLimit then Raise(AssertionError)
    else Value(FormatMac(MacOctets(clusterIndex, agentIndex)))
  }

  predicate HexPair(s: string)
  {
    |s| == 2 && IsHexDigit(s[0]) && IsHexDigit(s[1])
  }

  /** `m` is `groups` two-digit hexadecimal groups separated by colons. */
  predicate GroupsShape(m: string, groups: nat)
    decreases groups
  {
    if groups <= 1 then groups == 1 && HexPair(m)
    else |m| >= 3 && HexPair(m[..2]) && m[2] == ':' && GroupsShape(m[3..], groups - 1)
  }

  function ParseGroups(m: string, groups: nat): (r: seq<nat>)
    requires GroupsShape(m, groups)
    decreases groups
  {
    if groups == 1 then [ParseHex2(m)] else [ParseHex2(m[..2])] + ParseGroups(m[3..], groups - 1)
  }

  lemma {:induction false} GroupsShapeLength(m: string, groups: nat)
    requires GroupsShape(m, groups)
    ensures |m| == 3 * groups - 1
    decreases groups
  {
    if groups > 1 {
      GroupsShapeLength(m[3..], groups - 1);
    }
  }

  /** A well-formed MAC address: six groups, 17 characters. */
  predicate MacShape(m: string)
  {
    GroupsShape(m, 6)
  }

  /** The two indexes a well-formed MAC address spells. */
  function ParseMac(m: string): (nat, nat)
    requires MacShape(m)
  {
    var g := ParseGroups(m, 6);
    (0x1_0000 * g[0] + 0x100 * g[1] + g[2], 0x1_0000 * g[3] + 0x100 * g[4] + g[5])
  }

  lemma FormatMacCons(octets: seq<nat>)
    requires |octets| > 1
    ensures FormatMac(octets) == Hex02(octets[0]) + ":" + FormatMac(octets[1..])
  {
    assert HexParts(octets)[1..] == HexParts(octets[1..]);
  }

  /** Groups below 256 format to a colon-separated string of hex pairs that parses back to them. */
  lemma {:induction false} FormatGroupsRoundTrip(octets: seq<nat>)
    requires |octets| >= 1 && forall k :: 0 <= k < |octets| ==> octets[k] < 256
    ensures GroupsShape(FormatMac(octets), |octets|)
    ensures ParseGroups(FormatMac(octets), |octets|) == octets
    decreases |octets|
  {
    Hex02RoundTrip(octets[0]);
    var head := Hex02(octets[0]);
    if |octets| > 1 {
      var rest := octets[1..];
      FormatGroupsRoundTrip(rest);
      FormatMacCons(octets);
      GroupsCons(head, FormatMac(rest), |octets|);
      assert [octets[0]] + rest == octets;
    }
  }

  /** One hex pair, a colon, then more groups. */
  lemma GroupsCons(head: string, tail: string, groups: nat)
    requires groups > 1 && HexPair(head) && GroupsShape(tail, groups - 1)
    ensures GroupsShape(head + ":" + tail, groups)
    ensures ParseGroups(head + ":" + tail, groups) == [ParseHex2(head)] + ParseGroups(tail, groups - 1)
  {
    var m := head + ":" + tail;
    assert m[..2] == head;
    assert m[3..] == tail;
  }

  /** Every group has at least two digits, so the address takes 3 characters per group less one; a group of 256 or more adds at least one. */
  lemma {:induction false} FormatMacLength(octets: seq<nat>, big: nat)
    requires |octets| >= 1 && big < |octets| && octets[big] >= 256
    ensures |FormatMac(octets)| >= 3 * |octets|
    decreases |octets|
  {
    var head := Hex02(octets[0]);
    assert |head| >= 2 by {
      if octets[0] < 256 { Hex02RoundTrip(octets[0]); }
    }
    if |octets| == 1 {
      assert |head| >= 3;
    } else {
      var rest := octets[1..];
      FormatMacCons(octets);
      if big == 0 {
        assert |head| >= 3;
        FormatMacLengthLower(rest);
      } else {
        FormatMacLength(rest, big - 1);
      }
    }
  }

  lemma {:induction false} FormatMacLengthLower(octets: seq<nat>)
    requires |octets| >= 1
    ensures |FormatMac(octets)| >= 3 * |octets| - 1
    decreases |octets|
  {
    var head := Hex02(octets[0]);
    assert |head| >= 2 by {
      if octets[0] < 256 { Hex02RoundTrip(octets[0]); }
    }
    if |octets| > 1 {
      var rest := octets[1..];
      FormatMacCons(octets);
      FormatMacLengthLower(rest);
    }
  }

  /** Below `2 ** 24` the corrected MAC is well formed and spells back both indexes. */
  lemma MakeMacRoundTrip(clusterIndex: nat, agentIndex: nat)
    requires clusterIndex < MacIndexLimit && agentIndex < MacIndexLimit
    ensures MakeMac(clusterIndex, agentIndex).Value?
    ensures MacShape(MakeMac(clusterIndex, agentIndex).v)
    ensures ParseMac(MakeMac(clusterIndex, agentIndex).v) == (clusterIndex, agentIndex)
  {
    ByteGroups(clusterIndex);
    ByteGroups(agentIndex);
    FormatGroupsRoundTrip(MacOctets(clusterIndex, agentIndex));
  }

  /** A number below `2 ** 24` is the sum of its three bytes, as `make_mac` extracts them. */
  lemma ByteGroups(x: nat)
    requires x < MacIndexLimit
    ensures x / 0x1_0000 < 0x100
    ensures 0x1_0000 * (x / 0x1_0000) + 0x100 * ((x / 0x100) % 0x100) + x % 0x100 == x
  {
    var m1 := x / 0x100;
    var m2 := m1 / 0x100;
    assert x == 0x100 * m1 + x % 0x100;
    assert m1 == 0x100 * m2 + m1 % 0x100;
    assert x == 0x1_0000 * m2 + (0x100 * (m1 % 0x100) + x % 0x100);
    assert x / 0x1_0000 == m2;
  }

  /** Different (cluster, agent) index pairs get different MAC addresses. */
  lemma MakeMacInjective(c: nat, a: nat, c': nat, a': nat)
    requires c < MacIndexLimit && a < MacIndexLimit && c' < MacIndexLimit && a' < MacIndexLimit
    ensures MakeMac(c, a) == MakeMac(c', a') ==> c == c' && a == a'
  {
    MakeMacRoundTrip(c, a);
    MakeMacRoundTrip(c', a');
  }

  /** Where both indexes are below `2 ** 16` the source's MAC and the corrected one agree. */
  lemma MakeMacAgreesBelow16Bits(clusterIndex: nat, agentIndex: nat)
    requires clusterIndex < 0x1_0000 && agentIndex < 0x1_0000
    ensures MakeMacAsWritten(clusterIndex, agentIndex) == MakeMac(clusterIndex, agentIndex)
  {
    MiddleGroupFits(clusterIndex);
    MiddleGroupFits(agentIndex);
    assert MacOctetsAsWritten(clusterIndex, agentIndex) == MacOctets(clusterIndex, agentIndex);
  }

  lemma MiddleGroupFits(x: nat)
    requires x < 0x1_0000
    ensures (x / 0x100) % 0x100 == x / 0x100
  {
    assert x / 0x100 < 0x100;
  }

  /** From cluster index `2 ** 16` on, the source's second group has three digits and the address is malformed. */
  lemma MakeMacAsWrittenMalformed(clusterIndex: nat, agentIndex: nat)
    requires 0x1_0000 <= clusterIndex < MacIndexLimit && agentIndex < MacIndexLimit
    ensures MakeMacAsWritten(clusterIndex, agentIndex).Value?
    ensures |MakeMacAsWritten(clusterIndex, agentIndex).v| > 17
    ensures !MacShape(MakeMacAsWritten(clusterIndex, agentIndex).v)
  {
    var m := MakeMacAsWritten(clusterIndex, agentIndex).v;
    FormatMacLength(MacOctetsAsWritten(clusterIndex, agentIndex), 1);
    if MacShape(m) {
      GroupsShapeLength(m, 6);
    }
  }

  lemma HexGroupsOfExample()
    ensures Hex02(0) == "00" && Hex02(1) == "01" && Hex02(256) == "100"
  {
    assert Hex(1) == "1";
    assert Hex(16) == Hex(1) + ['0'];
    assert Hex(256) == Hex(16) + ['0'];
  }

  lemma ExampleParts()
    ensures HexParts(MacOctetsAsWritten(0x1_0000, 0)) == ["01", "100", "00", "00", "00", "00"]
  {
    var octets := MacOctetsAsWritten(0x1_0000, 0);
    assert octets == [1, 256, 0, 0, 0, 0];
    HexGroupsOfExample();
    assert HexParts(octets[5..]) == ["00"];
    assert HexParts(octets[4..]) == ["00"] + HexParts(octets[5..]);
    assert HexParts(octets[3..]) == ["00"] + HexParts(octets[4..]);
    assert HexParts(octets[2..]) == ["00"] + HexParts(octets[3..]);
    assert HexParts(octets[1..]) == ["100"] + HexParts(octets[2..]);
  }

  lemma ExampleJoin()
    ensures Join(["01", "100", "00", "00", "00", "00"], ":") == "01:100:00:00:00:00"
  {
    JoinSix(["01", "100", "00", "00", "00", "00"], ":");
  }

  /** The smallest such input: cluster 65536, agent 0. */
  lemma MakeMacAsWrittenExample()
    ensures MakeMacAsWritten(0x1_0000, 0) == Value("01:100:00:00:00:00")
  {
    ExampleParts();
    ExampleJoin();
  }

  lemma JoinSix(p: seq<string>, sep: string)
    requires |p| == 6
    ensures Join(p, sep) == p[0] + sep + p[1] + sep + p[2] + sep + p[3] + sep + p[4] + sep + p[5]
  {
    assert Join(p[5..], sep) == p[5];
    assert p[4..][1..] == p[5..];
    assert Join(p[4..], sep) == p[4] + sep + p[5];
    assert p[3..][1..] == p[4..];
    assert Join(p[3..], sep) == p[3] + sep + (p[4] + sep + p[5]);
    assert p[2..][1..] == p[3..];
    assert Join(p[2..], sep) == p[2] + sep + (p[3] + sep + (p[4] + sep + p[5]));
    assert p[1..][1..] == p[2..];
    assert Join(p[1..], sep) == p[1] + sep + (p[2] + sep + (p[3] + sep + (p[4] + sep + p[5])));
    assert Join(p, sep) == p[0] + sep + (p[1] + sep + (p[2] + sep + (p[3] + sep + (p[4] + sep + p[5]))));
  }

  /* ------------------------------------------------------------------ */
  /* Manifests                                                           */
  /* ------------------------------------------------------------------ */

  const PerClusterManifests: seq<string> :=
    ["namespace", "agentclusterinstall", "clusterdeployment", "clusterimageset", "infraenv", "secret_pull"]

  const PerAgentManifests: seq<string> := ["baremetalhost", "secret_bmh"]

  /** One template rendering: its name and, for a per-agent template, the agent's parameters. */
  datatype RenderRequest =
    | PerCluster(manifest: string)
    | PerAgent(manifest: string, macAddress: string, agentIdentifier: string, role: string)

  function Role(agentIndex: nat, numControlPlane: nat): string
  {
    if agentIndex < numControlPlane then "master" else "worker"
  }

  function AgentRequest(clusterIndex: nat, identifier: string, numControlPlane: nat, agentIndex: nat, manifest: string): RenderRequest
    requires clusterIndex < MacIndexLimit && agentIndex < MacIndexLimit
  {
    PerAgent(manifest, MakeMac(clusterIndex, agentIndex).v, AgentIdentifier(identifier, agentIndex), Role(agentIndex, numControlPlane))
  }

  /** Both per-agent renderings of one agent. */
  function AgentPair(clusterIndex: nat, identifier: string, numControlPlane: nat, agentIndex: nat): seq<RenderRequest>
    requires clusterIndex < MacIndexLimit && agentIndex < MacIndexLimit
  {
    [AgentRequest(clusterIndex, identifier, numControlPlane, agentIndex, PerAgentManifests[0]),
     AgentRequest(clusterIndex, identifier, numControlPlane, agentIndex, PerAgentManifests[1])]
  }

  /** The per-agent renderings of agents `0 .. n - 1`, two per agent. */
  function AgentRequests(clusterIndex: nat, identifier: string, numControlPlane: nat, n: nat): seq<RenderRequest>
    requires (clusterIndex < MacIndexLimit || n == 0) && n <= MacIndexLimit
  {
    if n == 0 then []
    else AgentRequests(clusterIndex, identifier, numControlPlane, n - 1)
         + AgentPair(clusterIndex, identifier, numControlPlane, n - 1)
  }

  function ClusterRequests(): seq<RenderRequest>
  {
    seq(|PerClusterManifests|, i requires 0 <= i < |PerClusterManifests| => PerCluster(PerClusterManifests[i]))
  }

  /** Everything `generate_manifests` renders, in order. */
  function ManifestPlan(clusterIndex: nat, identifier: string, numControlPlane: nat, n: nat): seq<RenderRequest>
    requires (clusterIndex < MacIndexLimit || n == 0) && n <= MacIndexLimit
  {
    ClusterRequests() + AgentRequests(clusterIndex, identifier, numControlPlane, n)
  }

  lemma {:induction false} AgentRequestsAt(clusterIndex: nat, identifier: string, numControlPlane: nat, n: nat, k: nat)
    requires clusterIndex < MacIndexLimit && n <= MacIndexLimit && k < n
    ensures |AgentRequests(clusterIndex, identifier, numControlPlane, n)| == 2 * n
    ensures AgentRequests(clusterIndex, identifier, numControlPlane, n)[2 * k]
         == AgentRequest(clusterIndex, identifier, numControlPlane, k, "baremetalhost")
    ensures AgentRequests(clusterIndex, identifier, numControlPlane, n)[2 * k + 1]
         == AgentRequest(clusterIndex, identifier, numControlPlane, k, "secret_bmh")
    decreases n
  {
    if k < n - 1 {
      AgentRequestsAt(clusterIndex, identifier, numControlPlane, n - 1, k);
    } else if n - 1 > 0 {
      AgentRequestsAt(clusterIndex, identifier, numControlPlane, n - 1, 0);
    }
  }

  lemma ManifestPlanSnoc(clusterIndex: nat, identifier: string, numControlPlane: nat, n: nat)
    requires clusterIndex < MacIndexLimit && n < MacIndexLimit
    ensures ManifestPlan(clusterIndex, identifier, numControlPlane, n + 1)
         == ManifestPlan(clusterIndex, identifier, numControlPlane, n) + AgentPair(clusterIndex, identifier, numControlPlane, n)
  {
    var c := ClusterRequests();
    var a := AgentRequests(clusterIndex, identifier, numControlPlane, n);
    var p := AgentPair(clusterIndex, identifier, numControlPlane, n);
    assert c + (a + p) == (c + a) + p;
  }

  /** The plan starts with the six per-cluster templates, followed by two renderings per agent. */
  lemma ManifestPlanPrefix(clusterIndex: nat, identifier: string, numControlPlane: nat, n: nat)
    requires (clusterIndex < MacIndexLimit || n == 0) && n <= MacIndexLimit
    ensures var plan := ManifestPlan(clusterIndex, identifier, numControlPlane, n);
      && |plan| == 6 + 2 * n
      && (forall i :: 0 <= i < 6 ==> plan[i] == PerCluster(PerClusterManifests[i]))
      && plan[6..] == AgentRequests(clusterIndex, identifier, numControlPlane, n)
  {
    AgentRequestsLength(clusterIndex, identifier, numControlPlane, n);
    var plan := ManifestPlan(clusterIndex, identifier, numControlPlane, n);
    assert |ClusterRequests()| == 6;
    assert forall i :: 0 <= i < 6 ==> plan[i] == ClusterRequests()[i];
  }

  lemma {:induction false} AgentRequestsLength(clusterIndex: nat, identifier: string, numControlPlane: nat, n: nat)
    requires (clusterIndex < MacIndexLimit || n == 0) && n <= MacIndexLimit
    ensures |AgentRequests(clusterIndex, identifier, numControlPlane, n)| == 2 * n
  {
    if n > 0 {
      AgentRequestsLength(clusterIndex, identifier, numControlPlane, n - 1);
    }
  }

  /**
   * Agent k contributes a BMH and then a BMH secret, both with the agent's
   * MAC and name, and exactly the first `numControlPlane` agents are masters.
   */
  lemma ManifestPlanLayout(clusterIndex: nat, identifier: string, numControlPlane: nat, n: nat, k: nat)
    requires clusterIndex < MacIndexLimit && n <= MacIndexLimit && k < n
    ensures var plan := ManifestPlan(clusterIndex, identifier, numControlPlane, n);
      && |plan| == 6 + 2 * n
      && plan[6 + 2 * k].PerAgent? && plan[7 + 2 * k].PerAgent?
      && plan[6 + 2 * k].manifest == "baremetalhost" && plan[7 + 2 * k].manifest == "secret_bmh"
      && plan[6 + 2 * k].agentIdentifier == AgentIdentifier(identifier, k)
      && plan[6 + 2 * k].macAddress == plan[7 + 2 * k].macAddress == MakeMac(clusterIndex, k).v
      && (plan[6 + 2 * k].role == "master" <==> k < numControlPlane)
      && (plan[6 + 2 * k].role == "worker" <==> k >= numControlPlane)
  {
    ManifestPlanPrefix(clusterIndex, identifier, numControlPlane, n);
    AgentRequestsAt(clusterIndex, identifier, numControlPlane, n, k);
    var plan := ManifestPlan(clusterIndex, identifier, numControlPlane, n);
    var agents := plan[6..];
    assert plan[6 + 2 * k] == agents[2 * k];
    assert plan[7 + 2 * k] == agents[2 * k + 1];
    RoleIsMasterOrWorker(k, numControlPlane);
  }

  lemma RoleIsMasterOrWorker(agentIndex: nat, numControlPlane: nat)
    ensures Role(agentIndex, numControlPlane) == "master" <==> agentIndex < numControlPlane
    ensures Role(agentIndex, numControlPlane) == "worker" <==> agentIndex >= numControlPlane
  {
    assert "master"[0] != "worker"[0];
  }

  /** Different agents of one cluster get different MAC addresses in the plan. */
  lemma ManifestPlanMacsDistinct(clusterIndex: nat, identifier: string, numControlPlane: nat, n: nat, j: nat, k: nat)
    requires clusterIndex < MacIndexLimit && n <= MacIndexLimit && j < k < n
    ensures var plan := ManifestPlan(clusterIndex, identifier, numControlPlane, n);
      && 6 + 2 * k < |plan| && plan[6 + 2 * j].PerAgent? && plan[6 + 2 * k].PerAgent?
      && plan[6 + 2 * j].macAddress != plan[6 + 2 * k].macAddress
  {
    ManifestPlanLayout(clusterIndex, identifier, numControlPlane, n, j);
    ManifestPlanLayout(clusterIndex, identifier, numControlPlane, n, k);
    MakeMacInjective(clusterIndex, j, clusterIndex, k);
  }

  /* ------------------------------------------------------------------ */
  /* Agent launch                                                        */
  /* ------------------------------------------------------------------ */

  function AgentConfig(clusterIndex: nat, identifier: string, total: int, agentIndex: nat): ClusterAgentConfig
    requires clusterIndex < MacIndexLimit && agentIndex < RangeCount(total) && agentIndex < MacIndexLimit
  {
    ClusterAgentConfig(
      agentIndex, MakeMac(clusterIndex, agentIndex).v,
      AgentIps(total)[agentIndex], Hostnames(identifier, total)[agentIndex],
      identifier, AgentIdentifier(identifier, agentIndex),
      Hostnames(identifier, total), AgentIps(total))
  }

  /** The configurations of all agents of a cluster, in index order. */
  function AgentConfigs(clusterIndex: nat, identifier: string, total: int): seq<ClusterAgentConfig>
    requires (clusterIndex < MacIndexLimit || RangeCount(total) == 0) && total <= MacIndexLimit
  {
    seq(RangeCount(total), k requires 0 <= k < RangeCount(total) => AgentConfig(clusterIndex, identifier, total, k))
  }

  /** Every agent of a cluster gets its own identifier, MAC, IP and hostname. */
  lemma AgentConfigsDistinct(clusterIndex: nat, identifier: string, total: int, j: nat, k: nat)
    requires clusterIndex < MacIndexLimit && total <= MacIndexLimit
    requires j < k < |AgentConfigs(clusterIndex, identifier, total)|
    ensures var cs := AgentConfigs(clusterIndex, identifier, total);
      && cs[j].index == j && cs[k].index == k
      && cs[j].identifier != cs[k].identifier && cs[j].macAddress != cs[k].macAddress
      && cs[j].machineIp != cs[k].machineIp && cs[j].machineHostname != cs[k].machineHostname
  {
    AgentIdentifierInjective(identifier, j, k);
    MakeMacInjective(clusterIndex, j, clusterIndex, k);
    AgentIpsDistinct(total);
    HostnamesDistinct(identifier, total);
  }

  function StartJobs(configs: seq<ClusterAgentConfig>): seq<Job>
  {
    seq(|configs|, i requires 0 <= i < |configs| => StartAgent(configs[i]))
  }

  lemma StartJobsSnoc(configs: seq<ClusterAgentConfig>, k: nat)
    requires k < |configs|
    ensures StartJobs(configs[..k + 1]) == StartJobs(configs[..k]) + [StartAgent(configs[k])]
  {
  }

  class Cluster {
    const index: nat
    const swarmIdentifier: string
    const identifier: string
    const singleNode: Doc
    const numWorkers: Doc
    const numControlPlane: nat
    const kubeCache: SwarmKubeCache
    const taskPool: TaskPool
    /** What `generate_manifests` rendered, joined by `"\n---\n"` in the source. */
    var manifests: seq<RenderRequest>
    var agents: seq<ClusterAgentConfig>
    /** The pool handles of the submitted agents. */
    var agentTasks: seq<nat>
    var infraId: Option<Doc>

    /** What the constructor's assertions guarantee for the object's lifetime. */
    predicate Valid()
    {
      && CheckTopology(singleNode, numWorkers) == None
      && numControlPlane == ControlPlaneCount(singleNode)
      && identifier == AgentIdentifier(swarmIdentifier, index)
      && RangeCount(TotalAgents()) <= MaxAgents
    }

    /** `total_agents`; the worker count is a number once construction succeeded. */
    function TotalAgents(): int
    {
      numControlPlane + match IntValue(numWorkers) case Some(w) => w case None => 0
    }

    constructor (index: nat, swarmIdentifier: string, singleNode: Doc, numWorkers: Doc,
                 kubeCache: SwarmKubeCache, taskPool: TaskPool)
      requires CheckTopology(singleNode, numWorkers) == None
      ensures Valid()
      ensures this.index == index && this.swarmIdentifier == swarmIdentifier
      ensures this.singleNode == singleNode && this.numWorkers == numWorkers
      ensures this.kubeCache == kubeCache && this.taskPool == taskPool
      ensures TotalAgents() == ControlPlaneCount(singleNode) + IntValue(numWorkers).value
      ensures manifests == [] && agents == [] && agentTasks == [] && infraId == None
    {
      this.index := index;
      this.swarmIdentifier := swarmIdentifier;
      this.identifier := AgentIdentifier(swarmIdentifier, index);
      this.singleNode := singleNode;
      this.numWorkers := numWorkers;
      this.numControlPlane := ControlPlaneCount(singleNode);
      this.kubeCache := kubeCache;
      this.taskPool := taskPool;
      manifests, agents, agentTasks, infraId := [], [], [], None;
    }

    /** What `agent_ips` and `hostnames` guarantee once construction succeeded. */
    lemma AddressesFit()
      requires Valid()
      ensures RangeCount(TotalAgents()) <= MaxAgents
      ensures |AgentIps(TotalAgents())| == |Hostnames(identifier, TotalAgents())| == RangeCount(TotalAgents())
    {
    }

    /** Renders the per-cluster templates, then both per-agent templates for each agent. */
    method GenerateManifests(current: Option<string>, next: Option<string>) returns (out: Outcome)
      requires Valid()
      modifies this`manifests
      ensures var n := RangeCount(TotalAgents());
        if index >= MacIndexLimit && n > 0 then out == Raised && manifests == old(manifests)
        else out == Returned(next) && manifests == ManifestPlan(index, identifier, numControlPlane, n)
    {
      var n := RangeCount(TotalAgents());
      var all := RenderClusterManifests();
      for agentIndex := 0 to n
        invariant agentIndex > 0 ==> index < MacIndexLimit
        invariant all == ManifestPlan(index, identifier, numControlPlane, agentIndex)
        invariant manifests == old(manifests)
      {
        var raised;
        all, raised := RenderAgentManifests(all, agentIndex);
        if raised {
          return Raised;
        }
        ManifestPlanSnoc(index, identifier, numControlPlane, agentIndex);
      }
      manifests := all;
      out := Returned(next);
    }

    /** The loop over the per-cluster templates. */
    method RenderClusterManifests() returns (all: seq<RenderRequest>)
      ensures all == ClusterRequests()
    {
      all := [];
      for i := 0 to |PerClusterManifests|
        invariant all == ClusterRequests()[..i]
      {
        all := all + [PerCluster(PerClusterManifests[i])];
      }
      assert ClusterRequests()[..|PerClusterManifests|] == ClusterRequests();
    }

    /**
     * The inner loop over the per-agent templates for one agent: it raises at
     * its first `make_mac` call when the cluster index is out of range, and
     * otherwise appends the agent's two renderings.
     */
    method RenderAgentManifests(before: seq<RenderRequest>, agentIndex: nat) returns (all: seq<RenderRequest>, raised: bool)
      requires agentIndex < MacIndexLimit
      ensures raised <==> index >= MacIndexLimit
      ensures index < MacIndexLimit ==> all == before + AgentPair(index, identifier, numControlPlane, agentIndex)
    {
      all := before;
      for j := 0 to |PerAgentManifests|
        invariant index < MacIndexLimit ==>
          all == before + AgentPair(index, identifier, numControlPlane, agentIndex)[..j]
        invariant j > 0 ==> index < MacIndexLimit
      {
        var mac := MakeMac(index, agentIndex);
        if mac.Raise? {
          return all, true;
        }
        var role := if agentIndex < numControlPlane then "master" else "worker";
        all := all + [PerAgent(PerAgentManifests[j], mac.v, AgentIdentifier(identifier, agentIndex), role)];
      }
      assert AgentPair(index, identifier, numControlPlane, agentIndex)[..2] == AgentPair(index, identifier, numControlPlane, agentIndex);
      raised := index >= MacIndexLimit;
    }

    /** Builds every agent's configuration, then submits each agent to the shared pool in index order. */
    method LaunchAgents(current: Option<string>, next: Option<string>) returns (out: Outcome)
      requires Valid()
      modifies this`agents, this`agentTasks, taskPool
      ensures var n := RangeCount(TotalAgents());
        if index >= MacIndexLimit && n > 0 then
          out == Raised && agents == old(agents) && agentTasks == old(agentTasks)
          && taskPool.submissions == old(taskPool.submissions)
        else
          && out == Returned(next)
          && agents == AgentConfigs(index, identifier, TotalAgents())
          && taskPool.submissions == old(taskPool.submissions) + StartJobs(agents)
          && |agentTasks| == n
          && forall k :: 0 <= k < n ==> agentTasks[k] == |old(taskPool.submissions)| + k
    {
      var n := RangeCount(TotalAgents());
      if index >= MacIndexLimit && n > 0 {
        // the first `make_mac` call of the comprehension raises
        return Raised;
      }
      var configs := AgentConfigs(index, identifier, TotalAgents());
      agents := configs;
      agentTasks := [];
      ghost var before := taskPool.submissions;
      var k := 0;
      while k < |configs|
        invariant 0 <= k <= |configs| == n
        invariant agents == configs
        invariant taskPool.submissions == before + StartJobs(configs[..k])
        invariant |agentTasks| == k
        invariant forall i :: 0 <= i < k ==> agentTasks[i] == |before| + i
      {
        var handle := taskPool.Submit(StartAgent(configs[k]));
        agentTasks := agentTasks + [handle];
        StartJobsSnoc(configs, k);
        k := k + 1;
      }
      assert configs[..k] == configs;
      out := Returned(next);
    }

    /** Waits for the AgentClusterInstall's infraID, then stores it. */
    method WaitForInfraId(current: Option<string>, next: Option<string>) returns (out: Outcome)
      requires kubeCache.Valid()
      modifies this`infraId
      ensures var w := InfraIdWait(kubeCache.GetAgentClusterInstall(identifier, identifier));
        && out == Answer(w, current, next)
        && infraId == if w.Advance? then Some(w.found) else old(infraId)
    {
      var aci := kubeCache.GetAgentClusterInstall(identifier, identifier);
      var w := InfraIdWait(aci);
      if w.Advance? {
        infraId := Some(w.found);
      }
      out := Answer(w, current, next);
    }

    method Done(current: Option<string>) returns (out: Outcome)
      ensures out == Returned(current)
    {
      out := Returned(current);
    }
  }

  /** Construction: the topology assertions, and on success a fresh cluster. */
  method NewCluster(index: nat, swarmIdentifier: string, singleNode: Doc, numWorkers: Doc,
                    kubeCache: SwarmKubeCache, taskPool: TaskPool) returns (r: Result<Cluster, TopologyError>)
    ensures r.Err? <==> CheckTopology(singleNode, numWorkers).Some?
    ensures r.Err? ==> r.error == CheckTopology(singleNode, numWorkers).value
    ensures r.Ok? ==> (fresh(r.value) && r.value.Valid() && r.value.index == index
                       && r.value.singleNode == singleNode && r.value.numWorkers == numWorkers
                       && r.value.kubeCache == kubeCache && r.value.taskPool == taskPool)
  {
    var check := CheckTopology(singleNode, numWorkers);
    if check.Some? {
      return Err(check.value);
    }
    var c := new Cluster(index, swarmIdentifier, singleNode, numWorkers, kubeCache, taskPool);
    r := Ok(c);
  }
}
