/**
 * The three adjusters applied to a parsed containers TOML document before
 * it is written out for one agent or cluster: point storage at a private
 * graphroot, add shared additional image stores, and add environment
 * variable names and a lock count. Each mutates the document it is given
 * and returns that same document; a missing table makes it raise, possibly
 * after an earlier step already changed the document.
 */
module ContainerConfig {
  import opened Wrappers
  import opened Doc

  /** `d[p0][p1]...`. */
  function GetIn(d: Doc, path: seq<string>): (r: Try<Doc>)
    decreases |path|
  {
    if path == [] then Value(d)
    else
      match Subscript(d, path[0])
      case Raise(e) => Raise(e)
      case Value(child) => GetIn(child, path[1..])
  }

  /** The document after `d[p0]...[pn-1] = v`: every table on the way must exist, and the last must be a dict. */
  function SetIn(d: Doc, path: seq<string>, v: Doc): (r: Try<Doc>)
    requires |path| >= 1
    ensures r.Value? ==> r.v.DMap? && d.DMap? && r.v.fields.Keys == d.fields.Keys + {path[0]}
    decreases |path|
  {
    if |path| == 1 then
      if d.DMap? then Value(DMap(d.fields[path[0] := v])) else Raise(TypeError)
    else
      match Subscript(d, path[0])
      case Raise(e) => Raise(e)
      case Value(child) =>
        match SetIn(child, path[1..], v)
        case Raise(e) => Raise(e)
        case Value(child') => Value(DMap(d.fields[path[0] := child']))
  }

  /** The document after `d[p0]...[pn-1].extend(items)`: only a list has `extend`. */
  function ExtendIn(d: Doc, path: seq<string>, items: seq<Doc>): (r: Try<Doc>)
    requires |path| >= 1
  {
    match GetIn(d, path)
    case Raise(e) => Raise(e)
    case Value(list) =>
      if list.DList? then SetIn(d, path, DList(list.items + items)) else Raise(AttributeError)
  }

  /** An assignment succeeds exactly when the table that receives it can be reached and is a dict. */
  lemma {:induction false} SetInSucceeds(d: Doc, path: seq<string>, v: Doc)
    requires |path| >= 1
    ensures SetIn(d, path, v).Value? <==>
      GetIn(d, path[..|path| - 1]).Value? && GetIn(d, path[..|path| - 1]).v.DMap?
    decreases |path|
  {
    if |path| > 1 {
      var child := Subscript(d, path[0]);
      if child.Value? {
        SetInSucceeds(child.v, path[1..], v);
        assert path[1..][..|path[1..]| - 1] == path[..|path| - 1][1..];
      }
    }
  }

  /** After an assignment the path holds the assigned value. */
  lemma {:induction false} SetInThenGet(d: Doc, path: seq<string>, v: Doc)
    requires |path| >= 1 && SetIn(d, path, v).Value?
    ensures GetIn(SetIn(d, path, v).v, path) == Value(v)
    decreases |path|
  {
    if |path| > 1 {
      SetInThenGet(Subscript(d, path[0]).v, path[1..], v);
    }
  }

  /** `q` leaves `p` at some position both have. */
  predicate Diverges(p: seq<string>, q: seq<string>)
  {
    exists i :: 0 <= i < |p| && i < |q| && p[i] != q[i]
  }

  /** An assignment leaves every path that branches off its own path as it was. */
  lemma {:induction false} SetInKeepsOthers(d: Doc, path: seq<string>, v: Doc, other: seq<string>)
    requires |path| >= 1 && SetIn(d, path, v).Value? && Diverges(path, other)
    ensures GetIn(SetIn(d, path, v).v, other) == GetIn(d, other)
    decreases |path|
  {
    var r := SetIn(d, path, v).v;
    if path[0] != other[0] {
      assert Subscript(r, other[0]) == Subscript(d, other[0]);
    } else {
      var i :| 0 <= i < |path| && i < |other| && path[i] != other[i];
      assert i > 0;
      assert path[1..][i - 1] != other[1..][i - 1];
      SetInKeepsOthers(Subscript(d, path[0]).v, path[1..], v, other[1..]);
    }
  }

  /** After `extend` the list is the old list followed by the new items. */
  lemma ExtendInThenGet(d: Doc, path: seq<string>, items: seq<Doc>)
    requires |path| >= 1 && ExtendIn(d, path, items).Value?
    ensures GetIn(d, path).Value? && GetIn(d, path).v.DList?
    ensures GetIn(ExtendIn(d, path, items).v, path) == Value(DList(GetIn(d, path).v.items + items))
  {
    SetInThenGet(d, path, DList(GetIn(d, path).v.items + items));
  }

  function Strings(names: seq<string>): seq<Doc>
  {
    seq(|names|, i requires 0 <= i < |names| => DStr(names[i]))
  }

  /** The document after an adjuster ran as far as it got, and the exception that stopped it. */
  datatype Adjusted = Adjusted(doc: Doc, err: Option<PyError>)

  /** Runs one more step unless an earlier one raised: a step that raises leaves the document as it was. */
  function Then(a: Adjusted, step: Try<Doc>): Adjusted
  {
    if a.err.Some? then a
    else match step
      case Raise(e) => Adjusted(a.doc, Some(e))
      case Value(d) => Adjusted(d, None)
  }

  const GraphrootPath: seq<string> := ["storage", "graphroot"]
  const AdditionalStoresPath: seq<string> := ["storage", "options", "additionalimagestores"]
  const EnvPath: seq<string> := ["containers", "env"]
  const NumLocksPath: seq<string> := ["engine", "num_locks"]

  function GraphrootAdjusted(d: Doc, graphroot: string): Adjusted
  {
    Then(Adjusted(d, None), SetIn(d, GraphrootPath, DStr(graphroot)))
  }

  function StoresAdjusted(d: Doc, graphroot: string, stores: seq<string>): Adjusted
  {
    var a := Then(Adjusted(d, None), ExtendIn(d, AdditionalStoresPath, Strings(stores)));
    if a.err.Some? then a else Then(a, SetIn(a.doc, GraphrootPath, DStr(graphroot)))
  }

  /** Gives the containers table an empty env list when it has none. */
  function EnsureEnv(d: Doc): Try<Doc>
  {
    match Subscript(d, "containers")
    case Raise(e) => Raise(e)
    case Value(containers) =>
      match Contains(containers, "env")
      case Raise(e) => Raise(e)
      case Value(present) => if present then Value(d) else SetIn(d, EnvPath, DList([]))
  }

  function EnvAdjusted(d: Doc, env: seq<string>, numLocks: int): Adjusted
  {
    var a := Then(Adjusted(d, None), EnsureEnv(d));
    if a.err.Some? then a else
    var b := Then(a, ExtendIn(a.doc, EnvPath, Strings(env)));
    if b.err.Some? then b else Then(b, SetIn(b.doc, NumLocksPath, DInt(numLocks)))
  }

  /** The graphroot adjust sets `storage.graphroot` and leaves every path off it untouched. */
  lemma GraphrootAdjustedSets(d: Doc, graphroot: string, other: seq<string>)
    requires GraphrootAdjusted(d, graphroot).err.None?
    ensures GetIn(GraphrootAdjusted(d, graphroot).doc, GraphrootPath) == Value(DStr(graphroot))
    ensures Diverges(GraphrootPath, other) ==> GetIn(GraphrootAdjusted(d, graphroot).doc, other) == GetIn(d, other)
  {
    SetInThenGet(d, GraphrootPath, DStr(graphroot));
    if Diverges(GraphrootPath, other) {
      SetInKeepsOthers(d, GraphrootPath, DStr(graphroot), other);
    }
  }

  /** The graphroot adjust fails exactly when `storage` is missing or not a dict, and then changes nothing. */
  lemma GraphrootAdjustedFails(d: Doc, graphroot: string)
    ensures GraphrootAdjusted(d, graphroot).err.Some? <==>
      !(GetIn(d, ["storage"]).Value? && GetIn(d, ["storage"]).v.DMap?)
    ensures GraphrootAdjusted(d, graphroot).err.Some? ==> GraphrootAdjusted(d, graphroot).doc == d
  {
    SetInSucceeds(d, GraphrootPath, DStr(graphroot));
    assert GraphrootPath[..1] == ["storage"];
  }

  /** The stores adjust appends the stores to the old list, keeping its order, and also sets the graphroot. */
  lemma StoresAdjustedSets(d: Doc, graphroot: string, stores: seq<string>)
    requires StoresAdjusted(d, graphroot, stores).err.None?
    ensures GetIn(d, AdditionalStoresPath).Value? && GetIn(d, AdditionalStoresPath).v.DList?
    ensures GetIn(StoresAdjusted(d, graphroot, stores).doc, AdditionalStoresPath)
         == Value(DList(GetIn(d, AdditionalStoresPath).v.items + Strings(stores)))
    ensures GetIn(StoresAdjusted(d, graphroot, stores).doc, GraphrootPath) == Value(DStr(graphroot))
  {
    var e := ExtendIn(d, AdditionalStoresPath, Strings(stores)).v;
    ExtendInThenGet(d, AdditionalStoresPath, Strings(stores));
    SetInThenGet(e, GraphrootPath, DStr(graphroot));
    assert Diverges(GraphrootPath, AdditionalStoresPath) by {
      assert GraphrootPath[1] != AdditionalStoresPath[1];
    }
    SetInKeepsOthers(e, GraphrootPath, DStr(graphroot), AdditionalStoresPath);
  }

  /** Once `storage.options.additionalimagestores` was extended, setting the graphroot cannot fail. */
  lemma StoresAdjustedGraphrootCannotFail(d: Doc, graphroot: string, stores: seq<string>)
    requires ExtendIn(d, AdditionalStoresPath, Strings(stores)).Value?
    ensures StoresAdjusted(d, graphroot, stores).err.None?
  {
    var e := ExtendIn(d, AdditionalStoresPath, Strings(stores)).v;
    assert Subscript(d, "storage").Value?;
    assert e.fields["storage"].DMap?;
    SetInSucceeds(e, GraphrootPath, DStr(graphroot));
    assert GraphrootPath[..1] == ["storage"];
  }

  /**
   * The env adjust leaves `containers.env` equal to the old list (or the
   * empty list when there was none) followed by the given names, and sets
   * `engine.num_locks`.
   */
  lemma EnvAdjustedSets(d: Doc, env: seq<string>, numLocks: int)
    requires EnvAdjusted(d, env, numLocks).err.None?
    ensures var containers := Subscript(d, "containers");
      && containers.Value? && containers.v.DMap?
      && var old_env := if "env" in containers.v.fields then containers.v.fields["env"] else DList([]);
         old_env.DList?
         && GetIn(EnvAdjusted(d, env, numLocks).doc, EnvPath) == Value(DList(old_env.items + Strings(env)))
    ensures GetIn(EnvAdjusted(d, env, numLocks).doc, NumLocksPath) == Value(DInt(numLocks))
  {
    var a := EnsureEnv(d).v;
    var containers := Subscript(d, "containers").v;
    if "env" !in containers.fields {
      SetInThenGet(d, EnvPath, DList([]));
      assert GetIn(a, EnvPath) == Value(DList([]));
    } else {
      assert GetIn(a, EnvPath) == Value(containers.fields["env"]);
    }
    var b := ExtendIn(a, EnvPath, Strings(env)).v;
    ExtendInThenGet(a, EnvPath, Strings(env));
    SetInThenGet(b, NumLocksPath, DInt(numLocks));
    assert Diverges(NumLocksPath, EnvPath) by { assert NumLocksPath[0] != EnvPath[0]; }
    SetInKeepsOthers(b, NumLocksPath, DInt(numLocks), EnvPath);
  }

  /** A document without an `engine` table still gets its env extended before the adjust raises. */
  lemma EnvAdjustedPartial(d: Doc, env: seq<string>, numLocks: int)
    requires EnsureEnv(d).Value? && ExtendIn(EnsureEnv(d).v, EnvPath, Strings(env)).Value?
    requires d.DMap? && "engine" !in d.fields
    ensures EnvAdjusted(d, env, numLocks).err == Some(KeyError("engine"))
    ensures EnvAdjusted(d, env, numLocks).doc == ExtendIn(EnsureEnv(d).v, EnvPath, Strings(env)).v
  {
    var b := ExtendIn(EnsureEnv(d).v, EnvPath, Strings(env)).v;
    assert b.fields.Keys == d.fields.Keys + {"containers"} by {
      var a := EnsureEnv(d).v;
      assert a.DMap? && a.fields.Keys == d.fields.Keys + {"containers"};
    }
  }

  /** A parsed TOML document; the adjusters change it in place. */
  class TomlDocument {
    var doc: Doc

    constructor (doc: Doc)
      ensures this.doc == doc
    {
      this.doc := doc;
    }
  }

  /** Applies one step to the document in place, or reports the exception and leaves it alone. */
  method Apply(conf: TomlDocument, step: Try<Doc>) returns (err: Option<PyError>)
    modifies conf
    ensures Adjusted(conf.doc, err) == Then(Adjusted(old(conf.doc), None), step)
  {
    match step
    case Raise(e) => err := Some(e);
    case Value(d) => conf.doc := d; err := None;
  }

  function Outcome(conf: TomlDocument, err: Option<PyError>): Try<TomlDocument>
  {
    if err.Some? then Raise(err.value) else Value(conf)
  }

  class ContainerStorageConfigWithGraphroot {
    const graphroot: string

    constructor (graphroot: string)
      ensures this.graphroot == graphroot
    {
      this.graphroot := graphroot;
    }

    method Adjust(conf: TomlDocument) returns (r: Try<TomlDocument>)
      modifies conf
      ensures var a := GraphrootAdjusted(old(conf.doc), graphroot);
        conf.doc == a.doc && r == Outcome(conf, a.err)
    {
      var err := Apply(conf, SetIn(conf.doc, GraphrootPath, DStr(graphroot)));
      r := Outcome(conf, err);
    }
  }

  class ContainerStorageConfigWithGraphrootAndAdditionalImageStores {
    const graphroot: string
    const additionalImageStores: seq<string>

    constructor (graphroot: string, additionalImageStores: seq<string>)
      ensures this.graphroot == graphroot && this.additionalImageStores == additionalImageStores
    {
      this.graphroot := graphroot;
      this.additionalImageStores := additionalImageStores;
    }

    method Adjust(conf: TomlDocument) returns (r: Try<TomlDocument>)
      modifies conf
      ensures var a := StoresAdjusted(old(conf.doc), graphroot, additionalImageStores);
        conf.doc == a.doc && r == Outcome(conf, a.err)
    {
      var err := Apply(conf, ExtendIn(conf.doc, AdditionalStoresPath, Strings(additionalImageStores)));
      if err.Some? {
        return Raise(err.value);
      }
      err := Apply(conf, SetIn(conf.doc, GraphrootPath, DStr(graphroot)));
      r := Outcome(conf, err);
    }
  }

  class ContainerConfigWithEnvAndNumLocks {
    const env: seq<string>
    const numLocks: int

    constructor (env: seq<string>, numLocks: int)
      ensures this.env == env && this.numLocks == numLocks
    {
      this.env := env;
      this.numLocks := numLocks;
    }

    method Adjust(conf: TomlDocument) returns (r: Try<TomlDocument>)
      modifies conf
      ensures var a := EnvAdjusted(old(conf.doc), env, numLocks);
        conf.doc == a.doc && r == Outcome(conf, a.err)
    {
      var err := Apply(conf, EnsureEnv(conf.doc));
      if err.Some? {
        return Raise(err.value);
      }
      err := Apply(conf, ExtendIn(conf.doc, EnvPath, Strings(env)));
      if err.Some? {
        return Raise(err.value);
      }
      err := Apply(conf, SetIn(conf.doc, NumLocksPath, DInt(numLocks)));
      r := Outcome(conf, err);
    }
  }
}
