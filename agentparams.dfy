/**
 * The request body of "create a new agent" (`NewAgentParams`) and its
 * generated validation: each of four optional fields is checked only when it
 * is non-empty, and `Validate` gathers the errors of every failing field.
 * The UUID and MAC format checkers belong to the go-openapi format registry
 * and arrive as parameters; the IPv4/CIDR pattern is transcribed here.
 */
module AgentParams {
  import opened Wrappers
  import opened Text
  import SwarmCluster

  datatype NewAgentParams = NewAgentParams(
    agentVersion: string,
    cacert: string,
    containersConf: string,
    containersStorageConf: string,
    dryClusterHostsPath: string,
    dryFakeRebootMarkerPath: string,
    dryForcedHostId: string,
    dryForcedHostIpv4: string,
    dryForcedHostname: string,
    dryForcedMacAddress: string,
    infraEnvId: string,
    pullSecret: string,
    serviceUrl: string)

  /** The format registry: which strings are UUIDs and which are MAC addresses. */
  datatype Formats = Formats(isUuid: string -> bool, isMac: string -> bool)

  datatype ValidationError =
    | InvalidFormat(field: string, format: string)
    | PatternMismatch(field: string)

  // ---------------------------------------------------------------------------
  // The pattern of `dry_forced_host_ipv4`, alternative by alternative.

  /** An octet of the pattern: 250-255, 200-249, or one or two digits after an optional 0 or 1. */
  predicate OctetRe(o: string)
  {
    (|o| == 3 && o[0] == '2' && o[1] == '5' && '0' <= o[2] <= '5')
    || (|o| == 3 && o[0] == '2' && '0' <= o[1] <= '4' && IsDigit(o[2]))
    || (|o| == 1 && IsDigit(o[0]))
    || (|o| == 2 && (o[0] == '0' || o[0] == '1') && IsDigit(o[1]))
    || (|o| == 2 && IsDigit(o[0]) && IsDigit(o[1]))
    || (|o| == 3 && (o[0] == '0' || o[0] == '1') && IsDigit(o[1]) && IsDigit(o[2]))
  }

  /** A prefix length of the pattern: one digit 1-9, 10-29, or 3 optionally followed by 0-2. */
  predicate PrefixRe(p: string)
  {
    (|p| == 1 && '1' <= p[0] <= '9')
    || (|p| == 2 && '1' <= p[0] <= '2' && IsDigit(p[1]))
    || (|p| == 1 && p[0] == '3')
    || (|p| == 2 && p[0] == '3' && '0' <= p[1] <= '2')
  }

  /**
   * A matcher for `(octet\.){k} octet [\/] prefix` anchored at both ends.
   * Every alternative of an octet is made of digits only and is followed by
   * a non-digit, so the octet is exactly the leading run of digits.
   */
  function MatchFrom(s: string, k: nat): bool
    decreases k
  {
    var n := DigitRun(s);
    OctetRe(s[..n]) && n < |s| &&
    if k == 0 then s[n] == '/' && PrefixRe(s[n + 1..])
    else s[n] == '.' && MatchFrom(s[n + 1..], k - 1)
  }

  /** The whole pattern of models/new_agent_params.go:109. */
  function MatchesHostIpv4(s: string): bool
  {
    MatchFrom(s, 3)
  }

  // ---------------------------------------------------------------------------
  // What the pattern means, in terms of decimal values.

  function DigitValue(c: char): int { c as int - '0' as int }

  /** One to three decimal digits whose value is at most 255. */
  predicate DecimalOctet(o: string)
  {
    1 <= |o| <= 3 && AllDigits(o) && ParseDec(o) <= 255
  }

  /** One or two decimal digits, no leading zero, value between 1 and 32. */
  predicate DecimalPrefix(p: string)
  {
    1 <= |p| <= 2 && AllDigits(p) && p[0] != '0' && 1 <= ParseDec(p) <= 32
  }

  /** `k` octets each followed by a dot, then an octet, a slash and a prefix length. */
  ghost predicate DecimalFrom(s: string, k: nat)
    decreases k
  {
    if k == 0 then
      exists o, p :: DecimalOctet(o) && DecimalPrefix(p) && s == o + "/" + p
    else
      exists o, rest :: DecimalOctet(o) && DecimalFrom(rest, k - 1) && s == o + "." + rest
  }

  /** Four dot-separated decimal octets, a slash, and a prefix length. */
  ghost predicate DottedQuadCidr(s: string)
  {
    DecimalFrom(s, 3)
  }

  lemma ParseDecOne(o: string)
    requires |o| == 1 && AllDigits(o)
    ensures ParseDec(o) == DigitValue(o[0])
  {
    assert o[..0] == [];
  }

  lemma ParseDecTwo(o: string)
    requires |o| == 2 && AllDigits(o)
    ensures ParseDec(o) == 10 * DigitValue(o[0]) + DigitValue(o[1])
  {
    ParseDecOne(o[..1]);
  }

  lemma ParseDecThree(o: string)
    requires |o| == 3 && AllDigits(o)
    ensures ParseDec(o) == 100 * DigitValue(o[0]) + 10 * DigitValue(o[1]) + DigitValue(o[2])
  {
    ParseDecTwo(o[..2]);
  }

  /** The octet alternatives accept exactly the decimal numbers 0..255 written with at most three digits. */
  lemma OctetMeaning(o: string)
    ensures OctetRe(o) <==> DecimalOctet(o)
  {
    if 1 <= |o| <= 3 && AllDigits(o) {
      if |o| == 1 {
        ParseDecOne(o);
      } else if |o| == 2 {
        ParseDecTwo(o);
      } else {
        ParseDecThree(o);
      }
    } else if OctetRe(o) {
      assert 1 <= |o| <= 3;
      assert AllDigits(o);
    }
  }

  /** The prefix alternatives accept exactly 1..32 without a leading zero. */
  lemma PrefixMeaning(p: string)
    ensures PrefixRe(p) <==> DecimalPrefix(p)
  {
    if 1 <= |p| <= 2 && AllDigits(p) {
      if |p| == 1 {
        ParseDecOne(p);
      } else {
        ParseDecTwo(p);
      }
    } else if PrefixRe(p) {
      assert 1 <= |p| <= 2;
      assert AllDigits(p);
    }
  }

  lemma {:induction false} MatchFromMeaning(s: string, k: nat)
    ensures MatchFrom(s, k) <==> DecimalFrom(s, k)
    decreases k
  {
    if MatchFrom(s, k) {
      MatchFromSound(s, k);
    }
    if DecimalFrom(s, k) {
      MatchFromComplete(s, k);
    }
  }

  lemma {:induction false} MatchFromSound(s: string, k: nat)
    requires MatchFrom(s, k)
    ensures DecimalFrom(s, k)
    decreases k
  {
    var n := DigitRun(s);
    var o, rest := s[..n], s[n + 1..];
    Decompose(s, n);
    OctetMeaning(o);
    if k == 0 {
      PrefixMeaning(rest);
      DecimalFromLast(o, rest);
    } else {
      MatchFromSound(rest, k - 1);
      DecimalFromCons(o, rest, k);
    }
  }

  lemma Decompose(s: string, n: nat)
    requires n < |s|
    ensures s == s[..n] + [s[n]] + s[n + 1..]
  {
  }

  lemma {:induction false} MatchFromComplete(s: string, k: nat)
    requires DecimalFrom(s, k)
    ensures MatchFrom(s, k)
    decreases k
  {
    var o, rest := FirstOctet(s, k);
    SplitAtOctet(s, o, if k == 0 then '/' else '.', rest);
    if k == 0 {
      PrefixMeaning(rest);
    } else {
      MatchFromComplete(rest, k - 1);
    }
  }

  /** The first octet of a matching string, and what follows its separator. */
  lemma FirstOctet(s: string, k: nat) returns (o: string, rest: string)
    requires DecimalFrom(s, k)
    ensures DecimalOctet(o) && s == o + [if k == 0 then '/' else '.'] + rest
    ensures k == 0 ==> DecimalPrefix(rest)
    ensures k > 0 ==> DecimalFrom(rest, k - 1)
  {
    if k == 0 {
      o, rest :| DecimalOctet(o) && DecimalPrefix(rest) && s == o + "/" + rest;
    } else {
      o, rest :| DecimalOctet(o) && DecimalFrom(rest, k - 1) && s == o + "." + rest;
    }
  }

  /** An octet followed by a separator is the leading digit run. */
  lemma SplitAtOctet(s: string, o: string, sep: char, rest: string)
    requires DecimalOctet(o) && !IsDigit(sep) && s == o + [sep] + rest
    ensures DigitRun(s) == |o| && s[..|o|] == o && |o| < |s| && s[|o|] == sep && s[|o| + 1..] == rest
    ensures OctetRe(o)
  {
    assert s == o + ([sep] + rest);
    DigitRunOf(o, [sep] + rest);
    OctetMeaning(o);
  }

  /**
   * A string matches the IPv4/CIDR pattern exactly when it is four decimal
   * octets 0..255 of one to three digits, separated by dots, then a slash and
   * a prefix length 1..32 with no leading zero.
   */
  lemma HostIpv4Meaning(s: string)
    ensures MatchesHostIpv4(s) <==> DottedQuadCidr(s)
  {
    MatchFromMeaning(s, 3);
  }

  /** A number below 1000 is written with at most three digits. */
  lemma DecShort(n: nat)
    requires n < 1000
    ensures |Dec(n)| <= 3
  {
    if n >= 10 {
      assert Dec(n) == Dec(n / 10) + [DigitChar(n % 10)];
      if n >= 100 {
        assert Dec(n / 10) == Dec(n / 100) + [DigitChar((n / 10) % 10)];
      }
    }
  }

  lemma DecimalOctetOfDec(n: nat)
    requires n <= 255
    ensures DecimalOctet(Dec(n))
  {
    DecRoundTrip(n);
    DecDigits(n);
    DecShort(n);
  }

  lemma DottedQuadOf(a: string, b: string, c: string, d: string, p: string)
    requires DecimalOctet(a) && DecimalOctet(b) && DecimalOctet(c) && DecimalOctet(d)
    requires DecimalPrefix(p)
    ensures DottedQuadCidr(a + "." + (b + "." + (c + "." + (d + "/" + p))))
  {
    var r3 := d + "/" + p;
    DecimalFromLast(d, p);
    DecimalFromCons(c, r3, 1);
    DecimalFromCons(b, c + "." + r3, 2);
    DecimalFromCons(a, b + "." + (c + "." + r3), 3);
  }

  lemma DecimalFromLast(o: string, p: string)
    requires DecimalOctet(o) && DecimalPrefix(p)
    ensures DecimalFrom(o + "/" + p, 0)
  {
  }

  lemma DecimalFromCons(o: string, rest: string, k: nat)
    requires k > 0 && DecimalOctet(o) && DecimalFrom(rest, k - 1)
    ensures DecimalFrom(o + "." + rest, k)
  {
  }

  lemma AgentIpParts(hi: string, lo: string)
    ensures "10.123." + hi + "." + lo + "/16" == "10" + "." + ("123" + "." + (hi + "." + (lo + "/" + "16")))
  {
  }

  /** The addresses handed to the swarm's agents satisfy the pattern. */
  lemma AgentIpMatches(i: nat)
    requires i < 0x10000
    ensures MatchesHostIpv4(SwarmCluster.AgentIp(i))
  {
    DecimalOctetOfDec(i / 256);
    DecimalOctetOfDec(i % 256);
    assert DecimalOctet("10") by { ParseDecTwo("10"); }
    assert DecimalOctet("123") by { ParseDecThree("123"); }
    assert DecimalPrefix("16") by { ParseDecTwo("16"); }
    DottedQuadOf("10", "123", Dec(i / 256), Dec(i % 256), "16");
    AgentIpParts(Dec(i / 256), Dec(i % 256));
    HostIpv4Meaning(SwarmCluster.AgentIp(i));
  }

  // ---------------------------------------------------------------------------
  // The validators.

  /** The zero value of every field here is the empty string, which is never checked. */
  function ValidateDryForcedHostId(m: NewAgentParams, formats: Formats): (r: Option<ValidationError>)
    ensures m.dryForcedHostId == "" ==> r == None
    ensures r == None <==> m.dryForcedHostId == "" || formats.isUuid(m.dryForcedHostId)
    ensures r.Some? ==> r.value == InvalidFormat("dry_forced_host_id", "uuid")
  {
    if m.dryForcedHostId == "" then None
    else if formats.isUuid(m.dryForcedHostId) then None
    else Some(InvalidFormat("dry_forced_host_id", "uuid"))
  }

  function ValidateDryForcedHostIpv4(m: NewAgentParams): (r: Option<ValidationError>)
    ensures m.dryForcedHostIpv4 == "" ==> r == None
    ensures r == None <==> m.dryForcedHostIpv4 == "" || DottedQuadCidr(m.dryForcedHostIpv4)
    ensures r.Some? ==> r.value == PatternMismatch("dry_forced_host_ipv4")
  {
    HostIpv4Meaning(m.dryForcedHostIpv4);
    if m.dryForcedHostIpv4 == "" then None
    else if MatchesHostIpv4(m.dryForcedHostIpv4) then None
    else Some(PatternMismatch("dry_forced_host_ipv4"))
  }

  function ValidateDryForcedMacAddress(m: NewAgentParams, formats: Formats): (r: Option<ValidationError>)
    ensures m.dryForcedMacAddress == "" ==> r == None
    ensures r == None <==> m.dryForcedMacAddress == "" || formats.isMac(m.dryForcedMacAddress)
    ensures r.Some? ==> r.value == InvalidFormat("dry_forced_mac_address", "mac")
  {
    if m.dryForcedMacAddress == "" then None
    else if formats.isMac(m.dryForcedMacAddress) then None
    else Some(InvalidFormat("dry_forced_mac_address", "mac"))
  }

  function ValidateInfraEnvId(m: NewAgentParams, formats: Formats): (r: Option<ValidationError>)
    ensures m.infraEnvId == "" ==> r == None
    ensures r == None <==> m.infraEnvId == "" || formats.isUuid(m.infraEnvId)
    ensures r.Some? ==> r.value == InvalidFormat("infra_env_id", "uuid")
  {
    if m.infraEnvId == "" then None
    else if formats.isUuid(m.infraEnvId) then None
    else Some(InvalidFormat("infra_env_id", "uuid"))
  }

  /** The four field checks, in the order `Validate` runs them. */
  function FieldChecks(m: NewAgentParams, formats: Formats): seq<Option<ValidationError>>
  {
    [ValidateDryForcedHostId(m, formats), ValidateDryForcedHostIpv4(m),
     ValidateDryForcedMacAddress(m, formats), ValidateInfraEnvId(m, formats)]
  }

  function ErrorOf(e: Option<ValidationError>): seq<ValidationError>
  {
    if e.Some? then [e.value] else []
  }

  /** The errors among a sequence of check results, in order. */
  function Failures(results: seq<Option<ValidationError>>): (errs: seq<ValidationError>)
    ensures |errs| <= |results|
    ensures errs == [] <==> forall i :: 0 <= i < |results| ==> results[i] == None
  {
    if results == [] then [] else ErrorOf(results[0]) + Failures(results[1..])
  }

  /** Every failing check contributes its error, and nothing else is reported. */
  lemma {:induction false} FailuresAreTheErrors(results: seq<Option<ValidationError>>)
    ensures forall i :: 0 <= i < |results| && results[i].Some? ==> results[i].value in Failures(results)
    ensures forall e :: e in Failures(results) ==> Some(e) in results
  {
    if results != [] {
      FailuresAreTheErrors(results[1..]);
      var f := Failures(results);
      assert f == ErrorOf(results[0]) + Failures(results[1..]);
      forall i | 0 <= i < |results| && results[i].Some?
        ensures results[i].value in f
      {
        if i > 0 {
          assert results[1..][i - 1] == results[i];
        }
      }
      forall e | e in f
        ensures Some(e) in results
      {
        if e !in ErrorOf(results[0]) {
          assert Some(e) in results[1..];
        }
      }
    }
  }

  lemma FailuresOfFour(rs: seq<Option<ValidationError>>)
    requires |rs| == 4
    ensures Failures(rs) == ErrorOf(rs[0]) + ErrorOf(rs[1]) + ErrorOf(rs[2]) + ErrorOf(rs[3])
  {
    assert Failures(rs[3..]) == ErrorOf(rs[3]) + Failures(rs[4..]);
    assert Failures(rs[2..]) == ErrorOf(rs[2]) + Failures(rs[3..]) by { assert rs[2..][1..] == rs[3..]; }
    assert Failures(rs[1..]) == ErrorOf(rs[1]) + Failures(rs[2..]) by { assert rs[1..][1..] == rs[2..]; }
    assert rs[4..] == [];
  }

  /**
   * Run every field check and collect the errors: `None` when every check
   * passes, otherwise every error, in field order.
   */
  method Validate(m: NewAgentParams, formats: Formats) returns (r: Option<seq<ValidationError>>)
    ensures r == None <==> forall i :: 0 <= i < 4 ==> FieldChecks(m, formats)[i] == None
    ensures r.Some? ==> r.value == Failures(FieldChecks(m, formats)) && |r.value| >= 1
  {
    var res: seq<ValidationError> := [];
    var e := ValidateDryForcedHostId(m, formats);
    if e.Some? { res := res + [e.value]; }
    e := ValidateDryForcedHostIpv4(m);
    if e.Some? { res := res + [e.value]; }
    e := ValidateDryForcedMacAddress(m, formats);
    if e.Some? { res := res + [e.value]; }
    e := ValidateInfraEnvId(m, formats);
    if e.Some? { res := res + [e.value]; }
    FailuresOfFour(FieldChecks(m, formats));
    if |res| > 0 {
      return Some(res);
    }
    return None;
  }

  /** A request whose four checked fields are all empty passes validation. */
  lemma EmptyFieldsValidate(m: NewAgentParams, formats: Formats)
    requires m.dryForcedHostId == "" && m.dryForcedHostIpv4 == ""
    requires m.dryForcedMacAddress == "" && m.infraEnvId == ""
    ensures Failures(FieldChecks(m, formats)) == []
  {
  }

  /** `ContextValidate` has no context-dependent fields to check. */
  function ContextValidate(m: NewAgentParams, formats: Formats): (r: Option<seq<ValidationError>>)
    ensures r == None
  {
    None
  }
}
