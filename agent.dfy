/**
 * A single swarm agent: its identifiers, its MAC address, the extraction of
 * the infra-env id from an ISO URL, and the state handlers that wait for
 * fields to appear in cached kube-api objects or patch a cached
 * BareMetalHost's status. The handlers' calls into the state machine are
 * modelled by passing the machine's current state in explicitly; the HTTP
 * PUT of the patched status is an input saying whether it succeeded.
 */
module SwarmAgent {
  import opened Wrappers
  import opened Text
  import opened Doc
  import opened KubeCache
  import opened StateMachine

  /** The handler table of an agent, in order; "Done" is terminal. */
  const AgentStates: seq<string> := [
    "Initializing", "Generating manifests", "Applying manifests",
    "Waiting for ISO URL on InfraEnv", "Seting BMH provisioning state to \"ready\"",
    "Waiting for ISO URL on BMH", "Seting BMH provisioning state to \"provisioned\"",
    "Generating container configurations", "Running agent",
    "Waiting for AgentClusterInstall clusterMetadata infraID", "Running controller", "Done"]

  /** The swarm identifier, a dash and the agent index: the agent's namespace and name in every lookup. */
  function AgentIdentifier(swarmIdentifier: string, index: nat): string
  {
    swarmIdentifier + "-" + Dec(index)
  }

  /** Agents of one swarm with different indexes have different identifiers. */
  lemma AgentIdentifierInjective(swarmIdentifier: string, i: nat, j: nat)
    ensures AgentIdentifier(swarmIdentifier, i) == AgentIdentifier(swarmIdentifier, j) ==> i == j
  {
    if AgentIdentifier(swarmIdentifier, i) == AgentIdentifier(swarmIdentifier, j) {
      var p := swarmIdentifier + "-";
      assert Dec(i) == AgentIdentifier(swarmIdentifier, i)[|p|..];
      assert Dec(j) == AgentIdentifier(swarmIdentifier, j)[|p|..];
      DecInjective(i, j);
    }
  }

  /** Four zero groups, then the index's high and low byte as two-digit hexadecimal groups. */
  function AgentMac(index: nat): string
  {
    "00:00:00:00:" + Hex02(index / 256) + ":" + Hex02(index % 256)
  }

  /** Below 2^16 the MAC is six two-digit groups whose last two spell the index. */
  lemma AgentMacRoundTrip(index: nat)
    requires index < 65536
    ensures var mac := AgentMac(index);
      && |mac| == 17 && mac[..12] == "00:00:00:00:" && mac[14] == ':'
      && IsHexDigit(mac[12]) && IsHexDigit(mac[13]) && IsHexDigit(mac[15]) && IsHexDigit(mac[16])
      && 256 * ParseHex2(mac[12..14]) + ParseHex2(mac[15..17]) == index
  {
    Hex02RoundTrip(index / 256);
    Hex02RoundTrip(index % 256);
    var mac := AgentMac(index);
    assert mac[12..14] == Hex02(index / 256);
    assert mac[15..17] == Hex02(index % 256);
  }

  lemma AgentMacInjective(i: nat, j: nat)
    requires i < 65536 && j < 65536
    ensures AgentMac(i) == AgentMac(j) ==> i == j
  {
    AgentMacRoundTrip(i);
    AgentMacRoundTrip(j);
  }

  /** Position `k` of a lower-case UUID: groups of 8, 4, 4, 4 and 12 hexadecimal digits joined by dashes. */
  predicate UuidCharOk(k: int, c: char)
  {
    if k == 8 || k == 13 || k == 18 || k == 23 then c == '-' else IsHexDigit(c)
  }

  predicate UuidShape(u: string)
  {
    |u| == 36 && forall k :: 0 <= k < 36 ==> UuidCharOk(k, u[k])
  }

  /** The uuid pattern matches `s` at position `j`. */
  predicate UuidAt(s: string, j: int)
  {
    0 <= j && j + 36 <= |s| && UuidShape(s[j..j + 36])
  }

  /** The leftmost match of the uuid pattern at or after `i`. */
  function FirstUuidFrom(s: string, i: nat): (r: Option<nat>)
    ensures r.Some? ==> i <= r.value && UuidAt(s, r.value)
    ensures r.Some? ==> forall j :: i <= j < r.value ==> !UuidAt(s, j)
    ensures r.None? ==> forall j :: i <= j ==> !UuidAt(s, j)
    decreases |s| - i
  {
    if i + 36 > |s| then None
    else if UuidShape(s[i..i + 36]) then Some(i)
    else FirstUuidFrom(s, i + 1)
  }

  /** `get_infraenv_id_from_url`: the first substring matching the uuid pattern; raises when there is none. */
  function GetInfraenvIdFromUrl(url: Doc): (r: Try<string>)
    ensures r.Value? ==> url.DStr? && UuidShape(r.v)
    ensures r.Value? ==> exists j :: UuidAt(url.s, j) && r.v == url.s[j..j + 36]
                                     && forall j' :: 0 <= j' < j ==> !UuidAt(url.s, j')
    ensures url.DStr? ==> (r.Value? <==> exists j :: UuidAt(url.s, j))
    ensures url.DStr? && r.Raise? ==> r.err == RuntimeError
  {
    if !url.DStr? then Raise(TypeError)
    else
      match FirstUuidFrom(url.s, 0)
      case Some(j) => Value(url.s[j..j + 36])
      case None => Raise(RuntimeError)
  }

  /**
   * What a cluster hands each of its agents: the agent's index within the
   * cluster, its MAC address, IP and hostname, and the whole cluster's
   * hostnames and IPs.
   */
  datatype ClusterAgentConfig = ClusterAgentConfig(
    index: nat, macAddress: string, machineIp: string, machineHostname: string,
    clusterIdentifier: string, identifier: string,
    clusterHostnames: seq<string>, clusterIps: seq<string>)

  /** What a waiting handler found: nothing yet, the awaited value, or an exception. */
  datatype Wait<+T> = Stay | Advance(found: T) | Fail(err: PyError)

  predicate IsEmptyString(d: Doc) { d == DStr("") }

  /** The ISO URL a cached object holds under `path` (missing keys read as ""), for the two ISO waits. */
  function UrlWait(obj: Option<Doc>, path: seq<string>): (w: Wait<Doc>)
    requires |path| >= 1
    ensures obj.None? ==> w == Stay
    ensures obj.Some? && GetPath(obj.value, path, DStr("")).Value? ==>
      var u := GetPath(obj.value, path, DStr("")).v;
      w == if IsEmptyString(u) then Stay else Advance(u)
    ensures obj.Some? && GetPath(obj.value, path, DStr("")).Raise? ==> w.Fail?
  {
    match obj
    case None => Stay
    case Some(d) =>
      match GetPath(d, path, DStr(""))
      case Raise(e) => Fail(e)
      case Value(u) => if IsEmptyString(u) then Stay else Advance(u)
  }

  /** A cached object whose URL field holds a non-empty value lets the wait advance with that value. */
  lemma UrlWaitAdvances(obj: Doc, path: seq<string>, url: Doc)
    requires |path| >= 1 && Reaches(obj, path, url) && !IsEmptyString(url)
    ensures UrlWait(Some(obj), path) == Advance(url)
  {
    GetPathPresent(obj, path, DStr(""), url);
  }

  /** A cached object whose URL field holds "" keeps the wait in its state. */
  lemma UrlWaitStaysOnEmpty(obj: Doc, path: seq<string>)
    requires |path| >= 1 && Reaches(obj, path, DStr(""))
    ensures UrlWait(Some(obj), path) == Stay
  {
    GetPathPresent(obj, path, DStr(""), DStr(""));
  }

  const InfraIdPath: seq<string> := ["spec", "clusterMetadata", "infraID"]

  /** The infraID wait: advance only with a truthy `spec.clusterMetadata.infraID`. */
  function InfraIdWait(aci: Option<Doc>): (w: Wait<Doc>)
    ensures w.Advance? ==> Truthy(w.found)
    ensures aci.None? ==> w == Stay
    ensures aci.Some? && GetPath(aci.value, InfraIdPath, DNull).Value? ==>
      var v := GetPath(aci.value, InfraIdPath, DNull).v;
      w == if Truthy(v) then Advance(v) else Stay
  {
    match aci
    case None => Stay
    case Some(d) =>
      match GetPath(d, InfraIdPath, DNull)
      case Raise(e) => Fail(e)
      case Value(v) => if Truthy(v) then Advance(v) else Stay
  }

  /** A cached AgentClusterInstall with a truthy infraID lets the wait advance with it; a falsy one does not. */
  lemma InfraIdWaitOnPresent(aci: Doc, infraId: Doc)
    requires Reaches(aci, InfraIdPath, infraId)
    ensures InfraIdWait(Some(aci)) == if Truthy(infraId) then Advance(infraId) else Stay
  {
    GetPathPresent(aci, InfraIdPath, DNull, infraId);
  }

  /** The status document `set_bmh_provisioning_state` writes. */
  function BmhStatus(provisioningState: string): Doc
  {
    DMap(map[
      "errorCount" := DInt(0),
      "errorMessage" := DStr(""),
      "goodCredentials" := DMap(map[]),
      "hardwareProfile" := DStr(""),
      "operationalStatus" := DStr("discovered"),
      "poweredOn" := DBool(true),
      "provisioning" := DMap(map["state" := DStr(provisioningState), "ID" := DStr(""), "image" := DMap(map["url" := DStr("")])])
    ])
  }

  /** The cache after the BMH stored under `key` (with fields `bmh`) has had its `status` replaced. */
  function PatchBmhStatus(c: Cache, key: string, bmh: map<string, Doc>, provisioningState: string): (r: Cache)
    requires BareMetalHosts in c
    ensures r.Keys == c.Keys
    ensures forall t :: t in c && t != BareMetalHosts ==> r[t] == c[t]
    ensures forall k :: k in c[BareMetalHosts] && k != key ==> k in r[BareMetalHosts] && r[BareMetalHosts][k] == c[BareMetalHosts][k]
  {
    c[BareMetalHosts := c[BareMetalHosts][key := DMap(bmh["status" := BmhStatus(provisioningState)])]]
  }

  /** After the patch, the agent's cached BMH reports the new provisioning state. */
  lemma PatchedStateReadsBack(c: Cache, name: string, namespace: string, bmh: map<string, Doc>, provisioningState: string)
    requires BareMetalHosts in c
    ensures var r := Lookup(PatchBmhStatus(c, Key(name, namespace), bmh, provisioningState), BareMetalHosts, name, namespace);
      && r.Some?
      && GetPath(r.value, ["status", "provisioning", "state"], DNull) == Value(DStr(provisioningState))
  {
    var r := Lookup(PatchBmhStatus(c, Key(name, namespace), bmh, provisioningState), BareMetalHosts, name, namespace);
    GetPathPresent(r.value, ["status", "provisioning", "state"], DNull, DStr(provisioningState));
  }

  /** The handler's answer after a wait: the current state, the recommended one, or an exception. */
  function Answer<T>(w: Wait<T>, current: Option<string>, next: Option<string>): (o: Outcome)
    ensures w.Stay? ==> o == Returned(current)
    ensures w.Advance? ==> o == Returned(next)
    ensures w.Fail? ==> o == Raised
  {
    match w
    case Stay => Returned(current)
    case Advance(_) => Returned(next)
    case Fail(_) => Raised
  }

  class Agent {
    const index: nat
    const swarmIdentifier: string
    const identifier: string
    const macAddress: string
    const kubeCache: SwarmKubeCache
    var infraenvIsoUrl: Option<Doc>
    var infraenvId: Option<string>
    var bmhIsoUrl: Option<Doc>
    var infraId: Option<Doc>

    constructor (swarmIdentifier: string, index: nat, kubeCache: SwarmKubeCache)
      ensures this.identifier == AgentIdentifier(swarmIdentifier, index)
      ensures this.macAddress == AgentMac(index)
      ensures this.index == index && this.swarmIdentifier == swarmIdentifier && this.kubeCache == kubeCache
      ensures infraenvIsoUrl == None && infraenvId == None && bmhIsoUrl == None && infraId == None
    {
      this.index := index;
      this.swarmIdentifier := swarmIdentifier;
      this.identifier := swarmIdentifier + "-" + Dec(index);
      this.macAddress := "00:00:00:00:" + Hex02(index / 256) + ":" + Hex02(index % 256);
      this.kubeCache := kubeCache;
      infraenvIsoUrl, infraenvId, bmhIsoUrl, infraId := None, None, None, None;
    }

    /** Waits for `status.isoDownloadURL` on the agent's InfraEnv, then stores it and the id it holds. */
    method WaitIsoUrlInfraenv(current: Option<string>, next: Option<string>) returns (out: Outcome)
      requires kubeCache.Valid()
      modifies this`infraenvIsoUrl, this`infraenvId
      ensures var w := UrlWait(kubeCache.GetInfraenv(identifier, identifier), ["status", "isoDownloadURL"]);
        && (w.Advance? ==> infraenvIsoUrl == Some(w.found))
        && (w.Advance? && GetInfraenvIdFromUrl(w.found).Raise? ==> out == Raised && infraenvId == old(infraenvId))
        && (w.Advance? && GetInfraenvIdFromUrl(w.found).Value? ==>
             out == Returned(next) && infraenvId == Some(GetInfraenvIdFromUrl(w.found).v))
        && (!w.Advance? ==> out == Answer(w, current, next) && infraenvIsoUrl == old(infraenvIsoUrl) && infraenvId == old(infraenvId))
    {
      var infraenv := kubeCache.GetInfraenv(identifier, identifier);
      var w := UrlWait(infraenv, ["status", "isoDownloadURL"]);
      if !w.Advance? {
        return Answer(w, current, next);
      }
      infraenvIsoUrl := Some(w.found);
      var id := GetInfraenvIdFromUrl(w.found);
      if id.Raise? {
        return Raised;
      }
      infraenvId := Some(id.v);
      out := Returned(next);
    }

    /** Waits for `spec.image.url` on the agent's BMH, then stores it and recomputes the id from the InfraEnv URL. */
    method WaitIsoUrlBmh(current: Option<string>, next: Option<string>) returns (out: Outcome)
      requires kubeCache.Valid()
      modifies this`bmhIsoUrl, this`infraenvId
      ensures var w := UrlWait(kubeCache.GetBaremetalhost(identifier, identifier), ["spec", "image", "url"]);
        && (!w.Advance? ==> out == Answer(w, current, next) && bmhIsoUrl == old(bmhIsoUrl) && infraenvId == old(infraenvId))
        && (w.Advance? ==> bmhIsoUrl == Some(w.found))
        && (w.Advance? && infraenvIsoUrl.None? ==> out == Raised && infraenvId == old(infraenvId))
        && (w.Advance? && infraenvIsoUrl.Some? ==>
             var id := GetInfraenvIdFromUrl(infraenvIsoUrl.value);
             if id.Value? then out == Returned(next) && infraenvId == Some(id.v)
             else out == Raised && infraenvId == old(infraenvId))
    {
      var bmh := kubeCache.GetBaremetalhost(identifier, identifier);
      var w := UrlWait(bmh, ["spec", "image", "url"]);
      if !w.Advance? {
        return Answer(w, current, next);
      }
      bmhIsoUrl := Some(w.found);
      if infraenvIsoUrl.None? {
        // `self.infraenv_iso_url` was never assigned: AttributeError
        return Raised;
      }
      var id := GetInfraenvIdFromUrl(infraenvIsoUrl.value);
      if id.Raise? {
        return Raised;
      }
      infraenvId := Some(id.v);
      out := Returned(next);
    }

    /**
     * Overwrites the cached BMH's `status` (in the cache itself) and PUTs
     * the document; `putOk` says whether the PUT succeeded. Without a cached
     * BMH it returns false and changes nothing. A failed PUT raises
     * `requests.HTTPError` from `raise_for_status`, or a connection error;
     * the model reports either as `RuntimeError`, since the state machine
     * only needs to know that the handler raised.
     */
    method SetBmhProvisioningState(provisioningState: string, putOk: bool) returns (r: Try<bool>)
      requires kubeCache.Valid()
      modifies kubeCache
      ensures kubeCache.Valid()
      ensures var key := Key(identifier, identifier);
        var bmh := old(kubeCache.GetBaremetalhost(identifier, identifier));
        && (bmh.None? ==> r == Value(false) && kubeCache.cache == old(kubeCache.cache))
        && (bmh.Some? && !bmh.value.DMap? ==> r == Raise(TypeError) && kubeCache.cache == old(kubeCache.cache))
        && (bmh.Some? && bmh.value.DMap? ==>
              && kubeCache.cache == PatchBmhStatus(old(kubeCache.cache), key, bmh.value.fields, provisioningState)
              && r == if putOk then Value(true) else Raise(RuntimeError))
    {
      var bmh := kubeCache.GetBaremetalhost(identifier, identifier);
      if bmh.None? {
        return Value(false);
      }
      if !bmh.value.DMap? {
        return Raise(TypeError);
      }
      var key := Key(identifier, identifier);
      var patched := DMap(bmh.value.fields["status" := BmhStatus(provisioningState)]);
      kubeCache.cache := kubeCache.cache[BareMetalHosts := kubeCache.cache[BareMetalHosts][key := patched]];
      if !putOk {
        return Raise(RuntimeError);
      }
      r := Value(true);
    }

    /** The two "Seting BMH provisioning state" handlers: advance exactly when the status was set. */
    method SetProvisioningHandler(provisioningState: string, putOk: bool, current: Option<string>, next: Option<string>)
      returns (out: Outcome)
      requires kubeCache.Valid()
      modifies kubeCache
      ensures kubeCache.Valid()
      ensures var bmh := old(kubeCache.GetBaremetalhost(identifier, identifier));
        && (bmh.None? ==> out == Returned(current) && kubeCache.cache == old(kubeCache.cache))
        && (bmh.Some? && !bmh.value.DMap? ==> kubeCache.cache == old(kubeCache.cache))
        && (bmh.Some? && bmh.value.DMap? ==>
              kubeCache.cache == PatchBmhStatus(old(kubeCache.cache), Key(identifier, identifier), bmh.value.fields, provisioningState))
        && (bmh.Some? && bmh.value.DMap? && putOk ==> out == Returned(next))
        && (bmh.Some? && !(bmh.value.DMap? && putOk) ==> out == Raised)
    {
      var res := SetBmhProvisioningState(provisioningState, putOk);
      match res
      case Raise(_) => out := Raised;
      case Value(ok) => out := if ok then Returned(next) else Returned(current);
    }

    method ReadyBmh(putOk: bool, current: Option<string>, next: Option<string>) returns (out: Outcome)
      requires kubeCache.Valid()
      modifies kubeCache
      ensures kubeCache.Valid()
      ensures var bmh := old(kubeCache.GetBaremetalhost(identifier, identifier));
        && (bmh.None? ==> out == Returned(current) && kubeCache.cache == old(kubeCache.cache))
        && (bmh.Some? && bmh.value.DMap? ==>
              kubeCache.cache == PatchBmhStatus(old(kubeCache.cache), Key(identifier, identifier), bmh.value.fields, "ready"))
        && (bmh.Some? && bmh.value.DMap? && putOk ==> out == Returned(next))
        && (bmh.Some? && !(bmh.value.DMap? && putOk) ==> out == Raised)
    {
      out := SetProvisioningHandler("ready", putOk, current, next);
    }

    method ProvisionedBmh(putOk: bool, current: Option<string>, next: Option<string>) returns (out: Outcome)
      requires kubeCache.Valid()
      modifies kubeCache
      ensures kubeCache.Valid()
      ensures var bmh := old(kubeCache.GetBaremetalhost(identifier, identifier));
        && (bmh.None? ==> out == Returned(current) && kubeCache.cache == old(kubeCache.cache))
        && (bmh.Some? && bmh.value.DMap? ==>
              kubeCache.cache == PatchBmhStatus(old(kubeCache.cache), Key(identifier, identifier), bmh.value.fields, "provisioned"))
        && (bmh.Some? && bmh.value.DMap? && putOk ==> out == Returned(next))
        && (bmh.Some? && !(bmh.value.DMap? && putOk) ==> out == Raised)
    {
      out := SetProvisioningHandler("provisioned", putOk, current, next);
    }

    /** Waits for the AgentClusterInstall's infraID, then stores it. */
    method WaitForInfraId(current: Option<string>, next: Option<string>) returns (out: Outcome)
      requires kubeCache.Valid()
      modifies this`infraId
      ensures var w := InfraIdWait(kubeCache.GetAgentClusterInstall(identifier, identifier));
        && out == Answer(w, current, next)
        && infraId == if w.Advance? then Some(w.found) else old(infraId)
    {
      var aci := kubeCache.GetAgentClusterInstall(identifier, identifier);
      var w := InfraIdWait(aci);
      if w.Advance? {
        infraId := Some(w.found);
      }
      out := Answer(w, current, next);
    }

    /** The terminal state's handler: stays where it is. */
    method Done(current: Option<string>) returns (out: Outcome)
      ensures out == Returned(current)
    {
      out := Returned(current);
    }
  }
}
