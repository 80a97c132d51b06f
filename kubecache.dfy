/**
 * The in-memory cache of kube-api objects: for each of three object types a
 * map from "<namespace>/<name>" to the object's document. A fetch of one
 * type writes each listed object into that type's map in place (entries the
 * fetch does not list are kept); a fetch that fails is swallowed by the
 * polling loop, which goes on with the next type.
 *
 * Running `oc get <type> -A -ojson` and decoding its output is outside the
 * model: its result arrives as a `FetchResult`.
 */
module KubeCache {
  import opened Wrappers
  import opened Doc

  const AgentClusterInstalls: string := "agentclusterinstalls"
  const BareMetalHosts: string := "baremetalhosts"
  const InfraEnvs: string := "infraenvs"

  /** The cached types in the dict's insertion order, the order `monitor` visits them. */
  const Types: seq<string> := [AgentClusterInstalls, BareMetalHosts, InfraEnvs]

  type Cache = map<string, map<string, Doc>>

  /** The decoded output of the bulk fetch of one type, or the failure of the command or the decoding. */
  datatype FetchResult = FetchFailed | Fetched(result: Doc)

  /** The cache a new `SwarmKubeCache` starts with. */
  function EmptyCache(): (c: Cache)
    ensures c.Keys == {AgentClusterInstalls, BareMetalHosts, InfraEnvs}
    ensures forall t :: t in c ==> c[t] == map[]
  {
    map[AgentClusterInstalls := map[], BareMetalHosts := map[], InfraEnvs := map[]]
  }

  function Key(name: string, namespace: string): string
  {
    namespace + "/" + name
  }

  /**
   * The object a type's map holds under "<namespace>/<name>": a key that
   * was never stored, like one holding a JSON null, reads as None.
   */
  function Lookup(c: Cache, apiType: string, name: string, namespace: string): (r: Option<Doc>)
    requires apiType in c
    ensures r.Some? <==> Key(name, namespace) in c[apiType] && c[apiType][Key(name, namespace)] != DNull
    ensures r.Some? ==> r.value == c[apiType][Key(name, namespace)]
  {
    var k := Key(name, namespace);
    if k in c[apiType] && c[apiType][k] != DNull then Some(c[apiType][k]) else None
  }

  /**
   * The key an object is cached under: its `metadata.namespace` and
   * `metadata.name`, each formatted as the f-string formats it, joined by a
   * slash. A missing key or a non-dict on the way raises, namespace first;
   * a namespace or name that is a list or dict is outside `Format` and is
   * reported as a TypeError.
   */
  function ObjectKey(obj: Doc): (r: Try<string>)
    ensures r.Value? ==> obj.DMap? && "metadata" in obj.fields && obj.fields["metadata"].DMap?
    ensures r.Value? ==>
      var meta := obj.fields["metadata"].fields;
      && "namespace" in meta && "name" in meta
      && Format(meta["namespace"]).Some? && Format(meta["name"]).Some?
      && r.v == Key(Format(meta["name"]).value, Format(meta["namespace"]).value)
  {
    match Subscript(obj, "metadata")
    case Raise(e) => Raise(e)
    case Value(meta) =>
      match Subscript(meta, "namespace")
      case Raise(e) => Raise(e)
      case Value(ns) =>
        match Subscript(meta, "name")
        case Raise(e) => Raise(e)
        case Value(n) =>
          match (Format(ns), Format(n))
          case (Some(a), Some(b)) => Value(Key(b, a))
          case _ => Raise(TypeError)
  }

  /** Any scalar namespace and name give a key: namespace 5 and name "x" are cached under "5/x". */
  lemma ScalarMetadataHasKey(obj: Doc)
    requires obj.DMap? && "metadata" in obj.fields && obj.fields["metadata"].DMap?
    requires var f := obj.fields["metadata"].fields;
      "namespace" in f && "name" in f
      && !(f["namespace"].DList? || f["namespace"].DMap?) && !(f["name"].DList? || f["name"].DMap?)
    ensures ObjectKey(obj).Value?
  {
  }

  lemma IntegerNamespaceExample()
    ensures ObjectKey(DMap(map["metadata" := DMap(map["namespace" := DInt(5), "name" := DStr("x")])])) == Value("5/x")
  {
    assert Format(DInt(5)) == Some("5");
    assert Key("x", "5") == "5/x";
  }

  /**
   * The elements `for api_object in result["items"]` visits before it could
   * write anything. A non-empty dict or string yields elements that are
   * strings, and the first `api_object['metadata']` on one raises; a scalar
   * is not iterable.
   */
  function ItemsOf(result: Doc): Try<seq<Doc>>
  {
    match Subscript(result, "items")
    case Raise(e) => Raise(e)
    case Value(items) =>
      match items
      case DList(xs) => Value(xs)
      case DMap(m) => if m == map[] then Value([]) else Raise(TypeError)
      case DStr(s) => if s == "" then Value([]) else Raise(TypeError)
      case _ => Raise(TypeError)
  }

  /** A type's entries after the write loop, and whether the loop ran to the end. */
  datatype Ingested = Ingested(entries: map<string, Doc>, ok: bool)

  /** The write loop: each object in turn is stored under its key; the first bad object stops the loop. */
  function Ingest(sub: map<string, Doc>, items: seq<Doc>): Ingested
    decreases |items|
  {
    if items == [] then Ingested(sub, true)
    else
      match ObjectKey(items[0])
      case Raise(_) => Ingested(sub, false)
      case Value(k) => Ingest(sub[k := items[0]], items[1..])
  }

  /** The loop runs to the end exactly when every object has a key; it keeps every key already there and the value of every key it does not write. */
  lemma {:induction false} IngestKeeps(sub: map<string, Doc>, items: seq<Doc>)
    ensures var r := Ingest(sub, items);
      && sub.Keys <= r.entries.Keys
      && (forall k :: k in sub && (forall i :: 0 <= i < |items| ==> ObjectKey(items[i]) != Value(k))
                      ==> r.entries[k] == sub[k])
      && (r.ok <==> forall i :: 0 <= i < |items| ==> ObjectKey(items[i]).Value?)
    decreases |items|
  {
    if items != [] && ObjectKey(items[0]).Value? {
      IngestKeeps(sub[ObjectKey(items[0]).v := items[0]], items[1..]);
      assert forall i :: 1 <= i < |items| ==> items[i] == items[1..][i - 1];
    }
  }

  /** Every object the loop stored is found under its key, and the last object with a key wins. */
  lemma {:induction false} IngestFinds(sub: map<string, Doc>, items: seq<Doc>, i: nat)
    requires i < |items| && Ingest(sub, items).ok
    requires forall j :: i < j < |items| ==> ObjectKey(items[j]) != ObjectKey(items[i])
    ensures ObjectKey(items[i]).Value?
    ensures ObjectKey(items[i]).v in Ingest(sub, items).entries
    ensures Ingest(sub, items).entries[ObjectKey(items[i]).v] == items[i]
    decreases |items|
  {
    IngestKeeps(sub, items);
    var k := ObjectKey(items[0]).v;
    if i == 0 {
      IngestKeeps(sub[k := items[0]], items[1..]);
      assert forall j :: 0 <= j < |items[1..]| ==> ObjectKey(items[1..][j]) != Value(k) by {
        forall j | 0 <= j < |items[1..]| ensures ObjectKey(items[1..][j]) != Value(k) {
          assert items[1..][j] == items[j + 1];
        }
      }
    } else {
      forall j | i - 1 < j < |items[1..]|
        ensures ObjectKey(items[1..][j]) != ObjectKey(items[1..][i - 1])
      {
        assert items[1..][j] == items[j + 1];
      }
      IngestFinds(sub[k := items[0]], items[1..], i - 1);
    }
  }

  /** The whole `cache_api_type` call: the new cache and whether it returned without raising. */
  function CacheApiTypeSpec(c: Cache, apiType: string, fetch: FetchResult): (r: (Cache, bool))
    ensures r.0.Keys == c.Keys
    ensures forall t :: t in c && t != apiType ==> r.0[t] == c[t]
    ensures fetch.FetchFailed? ==> r == (c, false)
  {
    match fetch
    case FetchFailed => (c, false)
    case Fetched(result) =>
      match ItemsOf(result)
      case Raise(_) => (c, false)
      case Value(items) =>
        if items == [] then (c, true)
        else if apiType !in c then (c, false)
        else
          var ing := Ingest(c[apiType], items);
          (c[apiType := ing.entries], ing.ok)
  }

  /** After a successful fetch every listed object is returned by a lookup of its own namespace and name. */
  lemma FetchedObjectsFound(c: Cache, apiType: string, result: Doc, i: nat)
    requires apiType in c
    requires ItemsOf(result).Value? && i < |ItemsOf(result).v|
    requires CacheApiTypeSpec(c, apiType, Fetched(result)).1
    requires var items := ItemsOf(result).v;
      forall j :: i < j < |items| ==> ObjectKey(items[j]) != ObjectKey(items[i])
    ensures ItemsOf(result).v[i].DMap? && "metadata" in ItemsOf(result).v[i].fields
    ensures var meta := ItemsOf(result).v[i].fields["metadata"];
      meta.DMap? && "name" in meta.fields && "namespace" in meta.fields
      && Format(meta.fields["name"]).Some? && Format(meta.fields["namespace"]).Some?
    ensures var meta := ItemsOf(result).v[i].fields["metadata"];
      Lookup(CacheApiTypeSpec(c, apiType, Fetched(result)).0, apiType,
             Format(meta.fields["name"]).value, Format(meta.fields["namespace"]).value) == Some(ItemsOf(result).v[i])
  {
    var items := ItemsOf(result).v;
    IngestFinds(c[apiType], items, i);
  }

  /** A fetch keeps the cached objects of that type that it does not list. */
  lemma FetchKeepsUnlisted(c: Cache, apiType: string, fetch: FetchResult, k: string)
    requires apiType in c && k in c[apiType]
    requires fetch.Fetched? && ItemsOf(fetch.result).Value?
    requires forall i :: 0 <= i < |ItemsOf(fetch.result).v| ==> ObjectKey(ItemsOf(fetch.result).v[i]) != Value(k)
    ensures k in CacheApiTypeSpec(c, apiType, fetch).0[apiType]
    ensures CacheApiTypeSpec(c, apiType, fetch).0[apiType][k] == c[apiType][k]
  {
    IngestKeeps(c[apiType], ItemsOf(fetch.result).v);
  }

  /** The answers of the bulk fetch of each type during one polling cycle. */
  type Answers = string -> FetchResult

  /** One cycle of `monitor`: each type in turn, failures swallowed. */
  function CycleSpec(c: Cache, answers: Answers, types: seq<string>): Cache
    decreases |types|
  {
    if types == [] then c
    else CycleSpec(CacheApiTypeSpec(c, types[0], answers(types[0])).0, answers, types[1..])
  }

  /** A cycle gives each type exactly what its own fetch would give it alone: one failing type does not stop the others. */
  lemma {:induction false} CycleIsPerType(c: Cache, answers: Answers, types: seq<string>, t: string)
    requires t in c
    requires forall i, j :: 0 <= i < j < |types| ==> types[i] != types[j]
    ensures CycleSpec(c, answers, types).Keys == c.Keys
    ensures CycleSpec(c, answers, types)[t]
         == if t in types then CacheApiTypeSpec(c, t, answers(t)).0[t] else c[t]
    decreases |types|
  {
    if types != [] {
      var c' := CacheApiTypeSpec(c, types[0], answers(types[0])).0;
      forall i, j | 0 <= i < j < |types[1..]| ensures types[1..][i] != types[1..][j] {
        assert types[1..][i] == types[i + 1] && types[1..][j] == types[j + 1];
      }
      CycleIsPerType(c', answers, types[1..], t);
      if t == types[0] {
        assert t !in types[1..] by {
          forall k | 0 <= k < |types[1..]| ensures types[1..][k] != t {
            assert types[1..][k] == types[k + 1];
          }
        }
      } else {
        assert t in types <==> t in types[1..];
      }
    }
  }

  /** What `monitor` sees on one pass of its loop: whether the done event is set, and the fetch answers. */
  datatype Poll = Poll(isSet: bool, answers: Answers)

  function MonitorSpec(c: Cache, polls: seq<Poll>): Cache
    decreases |polls|
  {
    if polls == [] || polls[0].isSet then c
    else MonitorSpec(CycleSpec(c, polls[0].answers, Types), polls[1..])
  }

  /** Once the done event is seen set, later polls have no effect. */
  lemma {:induction false} MonitorStopsWhenDone(c: Cache, before: seq<Poll>, answers: Answers, after: seq<Poll>)
    ensures MonitorSpec(c, before + [Poll(true, answers)] + after) == MonitorSpec(c, before + [Poll(true, answers)])
    decreases |before|
  {
    if before != [] && !before[0].isSet {
      assert (before + [Poll(true, answers)] + after)[1..] == before[1..] + [Poll(true, answers)] + after;
      assert (before + [Poll(true, answers)])[1..] == before[1..] + [Poll(true, answers)];
      MonitorStopsWhenDone(CycleSpec(c, before[0].answers, Types), before[1..], answers, after);
    } else if before == [] {
      assert before + [Poll(true, answers)] + after == [Poll(true, answers)] + after;
    }
  }

  /** Looking up a key in a new cache finds nothing, whatever the type. */
  lemma EmptyCacheFindsNothing(name: string, namespace: string)
    ensures Lookup(EmptyCache(), InfraEnvs, name, namespace) == None
    ensures Lookup(EmptyCache(), AgentClusterInstalls, name, namespace) == None
    ensures Lookup(EmptyCache(), BareMetalHosts, name, namespace) == None
  {
  }

  class SwarmKubeCache {
    var cache: Cache

    /** The cache always holds exactly the three types: nothing adds or removes a type. */
    ghost predicate Valid()
      reads this
    {
      cache.Keys == {AgentClusterInstalls, BareMetalHosts, InfraEnvs}
    }

    constructor ()
      ensures Valid() && cache == EmptyCache()
    {
      cache := EmptyCache();
    }

    function GetInfraenv(name: string, namespace: string): (r: Option<Doc>)
      reads this
      requires Valid()
      ensures r == Lookup(cache, InfraEnvs, name, namespace)
    {
      var k := Key(name, namespace);
      if k in cache[InfraEnvs] && cache[InfraEnvs][k] != DNull then Some(cache[InfraEnvs][k]) else None
    }

    function GetAgentClusterInstall(name: string, namespace: string): (r: Option<Doc>)
      reads this
      requires Valid()
      ensures r == Lookup(cache, AgentClusterInstalls, name, namespace)
    {
      var k := Key(name, namespace);
      if k in cache[AgentClusterInstalls] && cache[AgentClusterInstalls][k] != DNull then Some(cache[AgentClusterInstalls][k]) else None
    }

    function GetBaremetalhost(name: string, namespace: string): (r: Option<Doc>)
      reads this
      requires Valid()
      ensures r == Lookup(cache, BareMetalHosts, name, namespace)
    {
      var k := Key(name, namespace);
      if k in cache[BareMetalHosts] && cache[BareMetalHosts][k] != DNull then Some(cache[BareMetalHosts][k]) else None
    }

    /** Fetch one type and write each listed object into its map; `ok` is false when it raised. */
    method CacheApiType(apiType: string, fetch: FetchResult) returns (ok: bool)
      requires Valid()
      modifies this
      ensures Valid()
      ensures (cache, ok) == CacheApiTypeSpec(old(cache), apiType, fetch)
    {
      if fetch.FetchFailed? {
        return false;
      }
      var found := ItemsOf(fetch.result);
      if found.Raise? {
        return false;
      }
      var items := found.v;
      if items == [] {
        return true;
      }
      if apiType !in cache {
        // the first write raises KeyError
        return false;
      }
      var i := 0;
      ok := true;
      while i < |items|
        invariant 0 <= i <= |items|
        invariant apiType in cache && cache == old(cache)[apiType := cache[apiType]]
        invariant Ingest(cache[apiType], items[i..]) == Ingest(old(cache)[apiType], items)
      {
        var key := ObjectKey(items[i]);
        if key.Raise? {
          assert Ingest(cache[apiType], items[i..]) == Ingested(cache[apiType], false);
          return false;
        }
        assert items[i..][1..] == items[i + 1..];
        cache := cache[apiType := cache[apiType][key.v := items[i]]];
        i := i + 1;
      }
      assert items[i..] == [];
    }

    /** One pass of the polling loop: every type in order, each failure swallowed. */
    method Cycle(answers: Answers)
      requires Valid()
      modifies this
      ensures Valid()
      ensures cache == CycleSpec(old(cache), answers, Types)
    {
      var i := 0;
      while i < |Types|
        invariant 0 <= i <= |Types|
        invariant Valid()
        invariant CycleSpec(cache, answers, Types[i..]) == CycleSpec(old(cache), answers, Types)
      {
        assert Types[i..][1..] == Types[i + 1..];
        var _ := CacheApiType(Types[i], answers(Types[i]));
        i := i + 1;
      }
    }

    /** `monitor`: poll until the done event is seen set (or the supplied polls run out). */
    method Monitor(polls: seq<Poll>)
      requires Valid()
      modifies this
      ensures Valid()
      ensures cache == MonitorSpec(old(cache), polls)
    {
      var i := 0;
      while i < |polls| && !polls[i].isSet
        invariant 0 <= i <= |polls|
        invariant Valid()
        invariant MonitorSpec(cache, polls[i..]) == MonitorSpec(old(cache), polls)
      {
        assert polls[i..][1..] == polls[i + 1..];
        Cycle(polls[i].answers);
        i := i + 1;
      }
    }
  }
}
