/**
 * The swarm agent's "install" step: it validates the install request it was
 * given, then copies the request into the installer's configuration.
 * Argument parsing, JSON decoding, the proxy, installer-argument and version
 * validators and the file system belong to libraries outside this model;
 * they arrive in an `Oracles` value.
 */
module InstallRunner {
  import opened Wrappers
  import opened Text

  datatype Proxy = Proxy(httpProxy: Option<string>, httpsProxy: Option<string>, noProxy: Option<string>)

  /** `models.InstallCmdRequest`; pointer fields are `Option`s. */
  datatype InstallCmdRequest = InstallCmdRequest(
    role: Option<string>,
    clusterId: string,
    hostId: string,
    bootDevice: Option<string>,
    highAvailabilityMode: Option<string>,
    controllerImage: Option<string>,
    mcoImage: string,
    mustGatherImage: string,
    openshiftVersion: string,
    disksToFormat: seq<string>,
    checkCvo: Option<bool>,
    installerArgs: string,
    proxy: Option<Proxy>,
    serviceIps: seq<string>)

  /** What `Stat` reports: the path exists, it does not, or the call failed otherwise. */
  datatype StatResult = Found | NotExist | StatFailed

  datatype Oracles = Oracles(
    parseCommon: seq<string> -> Option<InstallCmdRequest>,
    httpProxyOk: string -> bool,
    noProxyOk: string -> bool,
    parseStringList: string -> Option<seq<string>>,
    installerArgsOk: seq<string> -> bool,
    versionOk: string -> bool,
    parseImageMap: string -> Option<map<string, string>>,
    stat: string -> StatResult)

  datatype MustGatherError = ImageInvalid(image: string) | OperatorInvalid(op: string)

  datatype InstallError =
    | CommonInvalid
    | MustGather(cause: MustGatherError)
    | ProxyInvalid(url: string)
    | InstallerArgsUnparsable
    | InstallerArgsInvalid
    | VersionInvalid(version: string)
    | DiskPrefix(disk: string)
    | DiskNotFound(disk: string)
    | RoleMissing

  /** `swag.StringValue`: the empty string for `nil`. */
  function StringValue(s: Option<string>): string
  {
    if s.Some? then s.value else ""
  }

  /** `swag.BoolValue`: false for `nil`. */
  function BoolValue(b: Option<bool>): bool
  {
    b.Some? && b.value
  }

  predicate HasPrefix(s: string, prefix: string)
  {
    |prefix| <= |s| && s[..|prefix|] == prefix
  }

  // ---------------------------------------------------------------------------
  // The must-gather image check.

  predicate All(s: string, p: char -> bool)
  {
    forall i :: 0 <= i < |s| ==> p(s[i])
  }

  predicate IsAlnum(c: char) { 'a' <= c <= 'z' || 'A' <= c <= 'Z' || '0' <= c <= '9' }

  /** A registry host character: a letter, a digit, a dash or a dot. */
  predicate HostChar(c: char) { IsAlnum(c) || c == '-' || c == '.' }

  /** An image name character: a lower-case letter, a digit, or one of `._-/@`. */
  predicate NameChar(c: char) { 'a' <= c <= 'z' || '0' <= c <= '9' || c in "._-/@" }

  /** A tag or digest character: a letter, a digit, or one of `?:_-.`. */
  predicate TailChar(c: char) { IsAlnum(c) || c in "?:_-." }

  /** A non-empty run of host characters, optionally followed by a colon and a port number. */
  predicate RegistryHost(r: string)
  {
    (|r| >= 1 && All(r, HostChar))
    || exists k | 1 <= k < |r| - 1 :: All(r[..k], HostChar) && r[k] == ':' && All(r[k + 1..], IsDigit)
  }

  /** The optional leading host and port, followed by a slash. */
  predicate HostPrefix(p: string)
  {
    p == [] || (|p| >= 2 && p[|p| - 1] == '/' && RegistryHost(p[..|p| - 1]))
  }

  /** A non-empty name followed by a non-empty tag part, up to the end of the string. */
  predicate NameAndTail(t: string)
  {
    exists j | 1 <= j < |t| :: All(t[..j], NameChar) && All(t[j..], TailChar)
  }

  /** The must-gather image pattern of src/runners/install_runner.go:168, anchored at both ends. */
  predicate MatchesImage(s: string)
  {
    exists i | 0 <= i <= |s| :: HostPrefix(s[..i]) && NameAndTail(s[i..])
  }

  /** A name followed by a tag, with no registry host, is an accepted image. */
  lemma BareImageMatches(name: string, tag: string)
    requires |name| >= 1 && All(name, NameChar) && |tag| >= 1 && All(tag, TailChar)
    ensures MatchesImage(name + tag)
  {
    var s := name + tag;
    assert s[..0] == [] && s[0..] == s;
    assert s[..|name|] == name && s[|name|..] == tag;
  }

  /** A registry host, a slash, a name and a tag is an accepted image. */
  lemma HostedImageMatches(host: string, name: string, tag: string)
    requires |host| >= 1 && All(host, HostChar)
    requires |name| >= 1 && All(name, NameChar) && |tag| >= 1 && All(tag, TailChar)
    ensures MatchesImage(host + "/" + (name + tag))
  {
    var p := host + "/";
    var s := p + (name + tag);
    assert p[..|p| - 1] == host;
    assert s[..|p|] == p && s[|p|..] == name + tag;
    var t := name + tag;
    assert t[..|name|] == name && t[|name|..] == tag;
  }

  lemma RegistryHostChars(r: string)
    requires RegistryHost(r)
    ensures forall k :: 0 <= k < |r| ==> HostChar(r[k]) || r[k] == ':'
  {
    if !(|r| >= 1 && All(r, HostChar)) {
      var m :| 1 <= m < |r| - 1 && All(r[..m], HostChar) && r[m] == ':' && All(r[m + 1..], IsDigit);
      forall k | 0 <= k < |r|
        ensures HostChar(r[k]) || r[k] == ':'
      {
        if k < m {
          assert r[..m][k] == r[k];
        } else if k > m {
          assert r[m + 1..][k - m - 1] == r[k];
        }
      }
    }
  }

  lemma NameAndTailChars(t: string)
    requires NameAndTail(t)
    ensures |t| >= 2
    ensures forall k :: 0 <= k < |t| ==> NameChar(t[k]) || TailChar(t[k])
  {
    var j :| 1 <= j < |t| && All(t[..j], NameChar) && All(t[j..], TailChar);
    forall k | 0 <= k < |t|
      ensures NameChar(t[k]) || TailChar(t[k])
    {
      if k >= j {
        assert t[j..][k - j] == t[k];
      } else {
        assert t[..j][k] == t[k];
      }
    }
  }

  /** Every accepted image has at least two characters, all from the pattern's classes. */
  lemma ImageCharacters(s: string)
    requires MatchesImage(s)
    ensures |s| >= 2
    ensures forall k :: 0 <= k < |s| ==> HostChar(s[k]) || NameChar(s[k]) || TailChar(s[k]) || s[k] == ':'
  {
    var i :| 0 <= i <= |s| && HostPrefix(s[..i]) && NameAndTail(s[i..]);
    NameAndTailChars(s[i..]);
    if i > 0 {
      RegistryHostChars(s[..i][..i - 1]);
    }
    forall k | 0 <= k < |s|
      ensures HostChar(s[k]) || NameChar(s[k]) || TailChar(s[k]) || s[k] == ':'
    {
      if k >= i {
        assert s[i..][k - i] == s[k];
      } else if k < i - 1 {
        assert s[..i][..i - 1][k] == s[k];
      }
    }
  }

  const Operators: set<string> := {"cnv", "lso", "ocs", "odf", "ocp"}

  /** The operator-to-image map: the decoded JSON object, or the whole value as the "ocp" image. */
  function ImageMap(mustGatherImage: string, o: Oracles): (m: map<string, string>)
    ensures o.parseImageMap(mustGatherImage).None? ==> m == map["ocp" := mustGatherImage]
    ensures o.parseImageMap(mustGatherImage).Some? ==> m == o.parseImageMap(mustGatherImage).value
  {
    match o.parseImageMap(mustGatherImage)
    case Some(m) => m
    case None => map["ocp" := mustGatherImage]
  }

  predicate EntryValid(m: map<string, string>, op: string)
    requires op in m
  {
    MatchesImage(m[op]) && op in Operators
  }

  predicate MustGatherValid(mustGatherImage: string, o: Oracles)
  {
    var m := ImageMap(mustGatherImage, o);
    forall op :: op in m ==> EntryValid(m, op)
  }

  /** The error a failing entry reports: the image check comes before the operator check. */
  function EntryError(m: map<string, string>, op: string): MustGatherError
    requires op in m
  {
    if !MatchesImage(m[op]) then ImageInvalid(m[op]) else OperatorInvalid(op)
  }

  lemma NonEmptyHasMember(s: set<string>)
    requires s != {}
    ensures exists x :: x in s
  {
    if forall x :: x !in s {
      assert false;
    }
  }

  /**
   * Checks every entry of the image map in an unspecified order (Go map
   * iteration) and reports the first failing entry it meets.
   */
  method ValidateMustGatherImages(mustGatherImage: string, o: Oracles) returns (r: Option<MustGatherError>)
    ensures r.None? <==> MustGatherValid(mustGatherImage, o)
    ensures r.Some? ==> var m := ImageMap(mustGatherImage, o);
                        exists op :: op in m && !EntryValid(m, op) && r.value == EntryError(m, op)
  {
    var imageMap := ImageMap(mustGatherImage, o);
    var remaining := imageMap.Keys;
    while remaining != {}
      invariant remaining <= imageMap.Keys
      invariant forall op :: op in imageMap && op !in remaining ==> EntryValid(imageMap, op)
      decreases |remaining|
    {
      NonEmptyHasMember(remaining);
      var op :| op in remaining;
      if !MatchesImage(imageMap[op]) {
        return Some(ImageInvalid(imageMap[op]));
      }
      if op !in Operators {
        return Some(OperatorInvalid(op));
      }
      remaining := remaining - {op};
    }
    return None;
  }

  /** A value that is not a JSON object is checked as a single "ocp" image. */
  lemma PlainImageIsOcp(mustGatherImage: string, o: Oracles)
    requires o.parseImageMap(mustGatherImage).None?
    ensures MustGatherValid(mustGatherImage, o) <==> MatchesImage(mustGatherImage)
  {
    var m := ImageMap(mustGatherImage, o);
    assert "ocp" in m && m["ocp"] == mustGatherImage;
    assert "ocp" in Operators;
  }

  /** An operator outside the supported five makes the check fail. */
  lemma UnknownOperatorRejected(mustGatherImage: string, o: Oracles, op: string)
    requires op in ImageMap(mustGatherImage, o) && op !in Operators
    ensures !MustGatherValid(mustGatherImage, o)
  {
    assert !EntryValid(ImageMap(mustGatherImage, o), op);
  }

  // ---------------------------------------------------------------------------
  // The proxy, disk and overall checks.

  function ValidateProxy(proxy: Proxy, o: Oracles): (r: Option<InstallError>)
    ensures r.None? <==>
      && (StringValue(proxy.httpProxy) == "" || o.httpProxyOk(StringValue(proxy.httpProxy)))
      && (StringValue(proxy.httpsProxy) == "" || o.httpProxyOk(StringValue(proxy.httpsProxy)))
      && (StringValue(proxy.noProxy) == "" || o.noProxyOk(StringValue(proxy.noProxy)))
    ensures r.Some? ==> r.value.ProxyInvalid?
  {
    var http, https, no := StringValue(proxy.httpProxy), StringValue(proxy.httpsProxy), StringValue(proxy.noProxy);
    if http != "" && !o.httpProxyOk(http) then Some(ProxyInvalid(http))
    else if https != "" && !o.httpProxyOk(https) then Some(ProxyInvalid(https))
    else if no != "" && !o.noProxyOk(no) then Some(ProxyInvalid(no))
    else None
  }

  /** `pathExists`: only a successful `Stat` counts as existing. */
  function PathExists(path: string, stat: string -> StatResult): (r: bool)
    ensures stat(path) == NotExist ==> !r
    ensures stat(path) == StatFailed ==> !r
    ensures stat(path) == Found ==> r
  {
    stat(path) == Found
  }

  /** The disks to check: every disk to format, then the boot device (`""` when unset). */
  function DisksToValidate(p: InstallCmdRequest): (ds: seq<string>)
    ensures |ds| == |p.disksToFormat| + 1
    ensures ds[..|p.disksToFormat|] == p.disksToFormat
    ensures ds[|p.disksToFormat|] == StringValue(p.bootDevice)
  {
    p.disksToFormat + [StringValue(p.bootDevice)]
  }

  predicate DiskValid(disk: string, stat: string -> StatResult)
  {
    HasPrefix(disk, "/dev/") && PathExists(disk, stat)
  }

  /** The error for one disk, if any: the prefix is checked before the file system is asked. */
  function DiskError(disk: string, stat: string -> StatResult): (r: Option<InstallError>)
    ensures r.None? <==> DiskValid(disk, stat)
    ensures !HasPrefix(disk, "/dev/") ==> r == Some(DiskPrefix(disk))
  {
    if !HasPrefix(disk, "/dev/") then Some(DiskPrefix(disk))
    else if !PathExists(disk, stat) then Some(DiskNotFound(disk))
    else None
  }

  /** The first failing disk in list order decides the result. */
  function FirstDiskError(disks: seq<string>, stat: string -> StatResult): (r: Option<InstallError>)
    ensures r.None? <==> forall i :: 0 <= i < |disks| ==> DiskValid(disks[i], stat)
  {
    if disks == [] then None
    else if DiskError(disks[0], stat).Some? then DiskError(disks[0], stat)
    else FirstDiskError(disks[1..], stat)
  }

  /** A reported disk error is the error of some disk all of whose predecessors pass. */
  lemma {:induction false} FirstDiskErrorIsFirst(disks: seq<string>, stat: string -> StatResult)
    requires FirstDiskError(disks, stat).Some?
    ensures exists i :: 0 <= i < |disks| && FirstDiskError(disks, stat) == DiskError(disks[i], stat)
                        && (forall k :: 0 <= k < i ==> DiskValid(disks[k], stat))
  {
    if DiskError(disks[0], stat).None? {
      FirstDiskErrorIsFirst(disks[1..], stat);
      var i :| 0 <= i < |disks[1..]| && FirstDiskError(disks[1..], stat) == DiskError(disks[1..][i], stat)
                && (forall k :: 0 <= k < i ==> DiskValid(disks[1..][k], stat));
      assert forall k :: 0 <= k < i + 1 ==> DiskValid(disks[k], stat) by {
        forall k | 0 <= k < i + 1 ensures DiskValid(disks[k], stat) {
          if k > 0 {
            assert disks[k] == disks[1..][k - 1];
          }
        }
      }
      assert DiskError(disks[i + 1], stat) == DiskError(disks[1..][i], stat);
    } else {
      assert FirstDiskError(disks, stat) == DiskError(disks[0], stat);
    }
  }

  /** Without a boot device the check always fails: either earlier, or on the empty name. */
  lemma MissingBootDeviceFails(p: InstallCmdRequest, stat: string -> StatResult)
    requires p.bootDevice.None?
    ensures FirstDiskError(DisksToValidate(p), stat).Some?
  {
    var ds := DisksToValidate(p);
    assert !DiskValid(ds[|ds| - 1], stat);
  }

  /** `validateDisks`, as the early-return loop it is. */
  method ValidateDisks(p: InstallCmdRequest, stat: string -> StatResult) returns (r: Option<InstallError>)
    ensures r == FirstDiskError(DisksToValidate(p), stat)
  {
    var disks := p.disksToFormat + [StringValue(p.bootDevice)];
    var i := 0;
    while i < |disks|
      invariant 0 <= i <= |disks|
      invariant FirstDiskError(disks, stat) == FirstDiskError(disks[i..], stat)
    {
      assert disks[i..][1..] == disks[i + 1..];
      if !HasPrefix(disks[i], "/dev/") {
        return Some(DiskPrefix(disks[i]));
      }
      if !PathExists(disks[i], stat) {
        return Some(DiskNotFound(disks[i]));
      }
      i := i + 1;
    }
    return None;
  }

  /** Everything `validate` checks after the must-gather image, in its order. */
  function LaterChecks(p: InstallCmdRequest, o: Oracles): (r: Option<InstallError>)
  {
    if p.proxy.Some? && ValidateProxy(p.proxy.value, o).Some? then ValidateProxy(p.proxy.value, o)
    else if p.installerArgs != "" && o.parseStringList(p.installerArgs).None? then Some(InstallerArgsUnparsable)
    else if p.installerArgs != "" && !o.installerArgsOk(o.parseStringList(p.installerArgs).value) then Some(InstallerArgsInvalid)
    else if p.openshiftVersion != "" && !o.versionOk(p.openshiftVersion) then Some(VersionInvalid(p.openshiftVersion))
    else FirstDiskError(DisksToValidate(p), o.stat)
  }

  predicate InstallerArgsAccepted(p: InstallCmdRequest, o: Oracles)
  {
    p.installerArgs == ""
    || (o.parseStringList(p.installerArgs).Some? && o.installerArgsOk(o.parseStringList(p.installerArgs).value))
  }

  /** The later checks pass exactly when each of them does. */
  lemma LaterChecksAccept(p: InstallCmdRequest, o: Oracles)
    ensures LaterChecks(p, o).None? <==>
      && (p.proxy.None? || ValidateProxy(p.proxy.value, o).None?)
      && InstallerArgsAccepted(p, o)
      && (p.openshiftVersion == "" || o.versionOk(p.openshiftVersion))
      && forall i :: 0 <= i < |DisksToValidate(p)| ==> DiskValid(DisksToValidate(p)[i], o.stat)
  {
  }

  /** A disk error is reported only once the proxy, installer-argument and version checks have passed. */
  lemma DisksCheckedLast(p: InstallCmdRequest, o: Oracles)
    requires LaterChecks(p, o).Some?
    requires LaterChecks(p, o).value.DiskPrefix? || LaterChecks(p, o).value.DiskNotFound?
    ensures p.proxy.None? || ValidateProxy(p.proxy.value, o).None?
    ensures InstallerArgsAccepted(p, o)
    ensures p.openshiftVersion == "" || o.versionOk(p.openshiftVersion)
    ensures LaterChecks(p, o) == FirstDiskError(DisksToValidate(p), o.stat)
  {
  }

  // ---------------------------------------------------------------------------
  // The installer's configuration and the runner.

  datatype ConfigValues = ConfigValues(
    role: string, clusterId: string, hostId: string, device: string,
    highAvailabilityMode: string, controllerImage: string, mcoImage: string,
    mustGatherImage: string, openshiftVersion: string, disksToFormat: seq<string>,
    checkClusterVersion: bool, installerArgs: seq<string>,
    httpProxy: string, httpsProxy: string, noProxy: string, serviceIps: string)

  /**
   * What `merge` leaves in the configuration and what it returns. A missing
   * role is a nil dereference before anything is written; an installer-args
   * decoding failure returns after the earlier fields have been written.
   */
  function MergeSpec(c: ConfigValues, p: InstallCmdRequest, o: Oracles): (ConfigValues, Option<InstallError>)
  {
    if p.role.None? then (c, Some(RoleMissing))
    else
      var c1 := CopiedFields(c, p);
      if p.installerArgs != "" && o.parseStringList(p.installerArgs).None? then (c1, Some(InstallerArgsUnparsable))
      else
        var c2 := if p.installerArgs != "" then c1.(installerArgs := o.parseStringList(p.installerArgs).value) else c1;
        (WithProxy(c2, p).(serviceIps := Join(p.serviceIps, ",")), None)
  }

  /** The fields `merge` writes before decoding the installer arguments. */
  function CopiedFields(c: ConfigValues, p: InstallCmdRequest): ConfigValues
    requires p.role.Some?
  {
    c.(role := p.role.value, clusterId := p.clusterId, hostId := p.hostId,
       device := StringValue(p.bootDevice),
       highAvailabilityMode := StringValue(p.highAvailabilityMode),
       controllerImage := StringValue(p.controllerImage),
       mcoImage := p.mcoImage, mustGatherImage := p.mustGatherImage,
       openshiftVersion := p.openshiftVersion, disksToFormat := p.disksToFormat,
       checkClusterVersion := BoolValue(p.checkCvo))
  }

  function WithProxy(c: ConfigValues, p: InstallCmdRequest): ConfigValues
  {
    if p.proxy.Some? then
      c.(httpProxy := StringValue(p.proxy.value.httpProxy),
         httpsProxy := StringValue(p.proxy.value.httpsProxy),
         noProxy := StringValue(p.proxy.value.noProxy))
    else c
  }

  /** Once a role is present, the disks to format are the request's, in order, whatever was there before. */
  lemma MergeReplacesDisks(c: ConfigValues, p: InstallCmdRequest, o: Oracles)
    requires p.role.Some?
    ensures MergeSpec(c, p, o).0.disksToFormat == p.disksToFormat
    ensures MergeSpec(c, p, o).0.role == p.role.value
    ensures MergeSpec(c, p, o).0.device == StringValue(p.bootDevice)
  {
  }

  /** Proxy settings are overwritten only when the request carries a proxy; the service IPs are comma-joined. */
  lemma MergeProxyAndServiceIps(c: ConfigValues, p: InstallCmdRequest, o: Oracles)
    requires MergeSpec(c, p, o).1.None?
    ensures var c' := MergeSpec(c, p, o).0;
      && c'.serviceIps == Join(p.serviceIps, ",")
      && (p.proxy.None? ==> c'.httpProxy == c.httpProxy && c'.httpsProxy == c.httpsProxy && c'.noProxy == c.noProxy)
      && (p.proxy.Some? ==> c'.httpProxy == StringValue(p.proxy.value.httpProxy)
                            && c'.httpsProxy == StringValue(p.proxy.value.httpsProxy)
                            && c'.noProxy == StringValue(p.proxy.value.noProxy))
  {
  }

  /** A missing role changes nothing. */
  lemma MergeWithoutRole(c: ConfigValues, p: InstallCmdRequest, o: Oracles)
    requires p.role.None?
    ensures MergeSpec(c, p, o) == (c, Some(RoleMissing))
  {
  }

  /** A request that passed validation merges without error, provided it carries a role. */
  lemma ValidatedRequestMerges(c: ConfigValues, p: InstallCmdRequest, o: Oracles)
    requires LaterChecks(p, o).None? && p.role.Some?
    ensures MergeSpec(c, p, o).1.None?
    ensures p.installerArgs != "" ==> MergeSpec(c, p, o).0.installerArgs == o.parseStringList(p.installerArgs).value
  {
    LaterChecksAccept(p, o);
  }

  /**
   * The installer's `config.Config`, shared by reference with the caller of
   * `NewInstallerRunner`; `values` holds the fields `merge` writes.
   */
  class InstallConfig {
    var values: ConfigValues

    constructor (c: ConfigValues)
      ensures values == c
    {
      values := c;
    }
  }

  class Runner {
    const args: seq<string>
    var installParams: InstallCmdRequest
    const installConfig: InstallConfig
    const oracles: Oracles

    constructor (installConfig: InstallConfig, args: seq<string>, oracles: Oracles, blank: InstallCmdRequest)
      ensures this.installConfig == installConfig && this.args == args && this.oracles == oracles
      ensures installParams == blank
    {
      this.installConfig := installConfig;
      this.args := args;
      this.oracles := oracles;
      installParams := blank;
    }

    /**
     * `validate`: decode the arguments into `installParams`, then the
     * must-gather image, proxy, installer arguments, version and disks, stopping
     * at the first failure.
     */
    method Validate() returns (r: Option<InstallError>)
      modifies this`installParams
      ensures oracles.parseCommon(args).None? ==> r == Some(CommonInvalid) && installParams == old(installParams)
      ensures oracles.parseCommon(args).Some? ==> installParams == oracles.parseCommon(args).value
      ensures oracles.parseCommon(args).Some? ==>
        var p := installParams;
        if p.mustGatherImage != "" && !MustGatherValid(p.mustGatherImage, oracles) then
          r.Some? && r.value.MustGather?
        else
          r == LaterChecks(p, oracles)
    {
      var parsed := oracles.parseCommon(args);
      if parsed.None? {
        return Some(CommonInvalid);
      }
      installParams := parsed.value;
      var p := installParams;
      if p.mustGatherImage != "" {
        var e := ValidateMustGatherImages(p.mustGatherImage, oracles);
        if e.Some? {
          return Some(MustGather(e.value));
        }
      }
      if p.proxy.Some? {
        var e := ValidateProxy(p.proxy.value, oracles);
        if e.Some? {
          return e;
        }
      }
      if p.installerArgs != "" {
        var installArgs := oracles.parseStringList(p.installerArgs);
        if installArgs.None? {
          return Some(InstallerArgsUnparsable);
        }
        if !oracles.installerArgsOk(installArgs.value) {
          return Some(InstallerArgsInvalid);
        }
      }
      if p.openshiftVersion != "" && !oracles.versionOk(p.openshiftVersion) {
        return Some(VersionInvalid(p.openshiftVersion));
      }
      r := ValidateDisks(p, oracles.stat);
    }

    /** `merge`: copy the request into the installer's configuration, field by field. */
    method Merge() returns (r: Option<InstallError>)
      modifies installConfig
      ensures (installConfig.values, r) == MergeSpec(old(installConfig.values), installParams, oracles)
    {
      var p := installParams;
      ghost var c := installConfig.values;
      if p.role.None? {
        return Some(RoleMissing);
      }
      installConfig.values := installConfig.values.(role := p.role.value);
      installConfig.values := installConfig.values.(clusterId := p.clusterId);
      installConfig.values := installConfig.values.(hostId := p.hostId);
      installConfig.values := installConfig.values.(device := StringValue(p.bootDevice));
      installConfig.values := installConfig.values.(highAvailabilityMode := StringValue(p.highAvailabilityMode));
      installConfig.values := installConfig.values.(controllerImage := StringValue(p.controllerImage));
      installConfig.values := installConfig.values.(mcoImage := p.mcoImage);
      installConfig.values := installConfig.values.(mustGatherImage := p.mustGatherImage);
      installConfig.values := installConfig.values.(openshiftVersion := p.openshiftVersion);
      installConfig.values := installConfig.values.(disksToFormat := []);
      ghost var before := installConfig.values;
      for i := 0 to |p.disksToFormat|
        invariant installConfig.values == before.(disksToFormat := p.disksToFormat[..i])
      {
        installConfig.values := installConfig.values.(disksToFormat := installConfig.values.disksToFormat + [p.disksToFormat[i]]);
      }
      assert p.disksToFormat[..|p.disksToFormat|] == p.disksToFormat;
      installConfig.values := installConfig.values.(checkClusterVersion := BoolValue(p.checkCvo));
      assert installConfig.values == CopiedFields(c, p);
      if p.installerArgs != "" {
        var decoded := oracles.parseStringList(p.installerArgs);
        if decoded.None? {
          return Some(InstallerArgsUnparsable);
        }
        installConfig.values := installConfig.values.(installerArgs := decoded.value);
      }
      if p.proxy.Some? {
        installConfig.values := installConfig.values.(httpProxy := StringValue(p.proxy.value.httpProxy));
        installConfig.values := installConfig.values.(httpsProxy := StringValue(p.proxy.value.httpsProxy));
        installConfig.values := installConfig.values.(noProxy := StringValue(p.proxy.value.noProxy));
      }
      installConfig.values := installConfig.values.(serviceIps := Join(p.serviceIps, ","));
      return None;
    }
  }

  /** The request passes `validate` after its arguments were decoded. */
  predicate Validated(p: InstallCmdRequest, o: Oracles)
  {
    (p.mustGatherImage == "" || MustGatherValid(p.mustGatherImage, o)) && LaterChecks(p, o).None?
  }

  /**
   * `NewInstallerRunner`: a runner exists exactly when validation and merging
   * both succeed; otherwise the error is the first one met. A validation
   * failure leaves the configuration untouched; a merge failure leaves the
   * fields written before it.
   */
  method NewInstallerRunner(installConfig: InstallConfig, args: seq<string>, oracles: Oracles, blank: InstallCmdRequest)
    returns (r: Result<Runner, InstallError>)
    modifies installConfig
    ensures oracles.parseCommon(args).None? ==> r == Err(CommonInvalid) && installConfig.values == old(installConfig.values)
    ensures oracles.parseCommon(args).Some? && !Validated(oracles.parseCommon(args).value, oracles) ==>
      var p := oracles.parseCommon(args).value;
      && r.Err? && installConfig.values == old(installConfig.values)
      && (if p.mustGatherImage != "" && !MustGatherValid(p.mustGatherImage, oracles) then r.error.MustGather?
          else r.error == LaterChecks(p, oracles).value)
    ensures oracles.parseCommon(args).Some? && Validated(oracles.parseCommon(args).value, oracles) ==>
      var m := MergeSpec(old(installConfig.values), oracles.parseCommon(args).value, oracles);
      && installConfig.values == m.0
      && (r.Ok? <==> m.1.None?)
      && (r.Err? ==> r.error == m.1.value)
    ensures r.Ok? ==> fresh(r.value) && r.value.installConfig == installConfig && r.value.args == args
  {
    var runner := new Runner(installConfig, args, oracles, blank);
    var e := runner.Validate();
    if e.Some? {
      return Err(e.value);
    }
    e := runner.Merge();
    if e.Some? {
      return Err(e.value);
    }
    return Ok(runner);
  }
}
