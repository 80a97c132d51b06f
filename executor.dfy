/**
 * The command helpers of the swarm executor: wrapping a command in `sudo`
 * so that the given environment survives, the part of an environment that
 * differs from the current process environment (what gets logged), and
 * the normalisation of `check_output` results to bytes.
 */
module Executor {
  import opened Wrappers
  import opened Text

  /** An environment in insertion order, as a Python dict iterates it. */
  type Env = seq<(string, string)>

  function Keys(env: Env): (r: seq<string>)
    ensures |r| == |env| && forall i :: 0 <= i < |env| ==> r[i] == env[i].0
  {
    seq(|env|, i requires 0 <= i < |env| => env[i].0)
  }

  /** The command prefixed by sudo and a flag that preserves the names of the environment, comma-separated. */
  function PrepareSudoCommand(command: seq<string>, env: Env): (r: seq<string>)
    ensures |r| == |command| + 2
    ensures r[0] == "sudo"
    ensures r[2..] == command
  {
    ["sudo", "--preserve-env=" + Join(Keys(env), ",")] + command
  }

  const PreserveEnvFlag: string := "--preserve-env="

  /** The position of the first `sep` in `s`. */
  function FirstIndexOf(s: string, sep: char): (r: int)
    ensures -1 <= r < |s|
    ensures r >= 0 ==> s[r] == sep && forall j :: 0 <= j < r ==> s[j] != sep
    ensures r == -1 ==> forall j :: 0 <= j < |s| ==> s[j] != sep
    decreases |s|
  {
    if s == [] then -1
    else if s[0] == sep then 0
    else
      var r := FirstIndexOf(s[1..], sep);
      if r == -1 then -1 else r + 1
  }

  /** Python's `s.split(sep)`. */
  function Split(s: string, sep: char): (r: seq<string>)
    ensures |r| >= 1
    decreases |s|
  {
    var i := FirstIndexOf(s, sep);
    if i == -1 then [s] else [s[..i]] + Split(s[i + 1..], sep)
  }

  lemma FirstIndexOfJoin(head: string, rest: string, sep: char)
    requires forall j :: 0 <= j < |head| ==> head[j] != sep
    ensures FirstIndexOf(head + [sep] + rest, sep) == |head|
  {
    var s := head + [sep] + rest;
    var r := FirstIndexOf(s, sep);
    assert s[|head|] == sep;
    assert forall j :: 0 <= j < |head| ==> s[j] == head[j];
  }

  /** Splitting a comma-joined list of names that contain no comma gives the names back. */
  lemma {:induction false} SplitJoinRoundTrip(names: seq<string>, sep: char)
    requires |names| >= 1
    requires forall i, j :: 0 <= i < |names| && 0 <= j < |names[i]| ==> names[i][j] != sep
    ensures Split(Join(names, [sep]), sep) == names
    decreases |names|
  {
    if |names| == 1 {
      assert FirstIndexOf(names[0], sep) == -1;
    } else {
      var head, tail := names[0], Join(names[1..], [sep]);
      var s := Join(names, [sep]);
      assert s == head + [sep] + tail;
      FirstIndexOfJoin(head, tail, sep);
      assert s[..|head|] == head;
      assert s[|head| + 1..] == tail;
      SplitJoinRoundTrip(names[1..], sep);
      assert [names[0]] + names[1..] == names;
    }
  }

  /**
   * The `--preserve-env` flag names exactly the environment's variables, in
   * order, when the names contain no comma; an empty environment gives the
   * bare flag.
   */
  lemma PreserveEnvNamesKeys(command: seq<string>, env: Env)
    requires forall i, j :: 0 <= i < |env| && 0 <= j < |env[i].0| ==> env[i].0[j] != ','
    ensures var flag := PrepareSudoCommand(command, env)[1];
      && |flag| >= |PreserveEnvFlag| && flag[..|PreserveEnvFlag|] == PreserveEnvFlag
      && (env == [] ==> flag == PreserveEnvFlag)
      && (env != [] ==> Split(flag[|PreserveEnvFlag|..], ',') == Keys(env))
  {
    var flag := PrepareSudoCommand(command, env)[1];
    assert flag == PreserveEnvFlag + Join(Keys(env), ",");
    assert flag[|PreserveEnvFlag|..] == Join(Keys(env), ",");
    if env != [] {
      SplitJoinRoundTrip(Keys(env), ',');
    }
  }

  /** The entries of `a` that `b` lacks or maps to another value. */
  function DictionaryDiff(a: map<string, string>, b: map<string, string>): (r: map<string, string>)
    ensures r.Keys <= a.Keys
    ensures forall k :: k in r ==> r[k] == a[k]
    ensures forall k :: k in a ==> (k in r <==> k !in b || b[k] != a[k])
  {
    map k | k in a && (k !in b || a[k] != b[k]) :: a[k]
  }

  /** An environment differs from itself nowhere. */
  lemma DiffWithItselfEmpty(a: map<string, string>)
    ensures DictionaryDiff(a, a) == map[]
  {
    assert DictionaryDiff(a, a).Keys == {};
  }

  /** Adding the difference to the base environment reproduces every entry of the given one. */
  lemma DiffCompletesBase(a: map<string, string>, b: map<string, string>)
    ensures forall k :: k in a ==> k in b + DictionaryDiff(a, b) && (b + DictionaryDiff(a, b))[k] == a[k]
  {
  }

  /* ------------------------------------------------------------------ */
  /* check_output                                                        */
  /* ------------------------------------------------------------------ */

  newtype byte = x: int | 0 <= x < 256

  /** What `subprocess.check_output` gave back: bytes, or a str when text mode was requested. */
  datatype CommandOutput = Bytes(data: seq<byte>) | Str(text: string)

  /** The UTF-8 encoding of one Unicode scalar value. */
  function EncodeChar(c: char): (r: seq<byte>)
    ensures 1 <= |r| <= 4
  {
    var n := c as int;
    if n < 0x80 then [n as byte]
    else if n < 0x800 then [(0xC0 + n / 0x40) as byte, (0x80 + n % 0x40) as byte]
    else if n < 0x1_0000 then
      [(0xE0 + n / 0x1000) as byte, (0x80 + n / 0x40 % 0x40) as byte, (0x80 + n % 0x40) as byte]
    else
      [(0xF0 + n / 0x4_0000) as byte, (0x80 + n / 0x1000 % 0x40) as byte,
       (0x80 + n / 0x40 % 0x40) as byte, (0x80 + n % 0x40) as byte]
  }

  /** `s.encode('utf-8')`. */
  function EncodeUtf8(s: string): seq<byte>
  {
    if s == [] then [] else EncodeChar(s[0]) + EncodeUtf8(s[1..])
  }

  /** `check_output`'s result conversion: bytes pass through, a str is UTF-8 encoded. */
  function CheckOutput(output: CommandOutput): (r: seq<byte>)
    ensures output.Bytes? ==> r == output.data
    ensures output.Str? ==> r == EncodeUtf8(output.text)
  {
    match output
    case Bytes(data) => data
    case Str(text) => EncodeUtf8(text)
  }

  predicate Continuation(b: byte) { 0x80 <= b < 0xC0 }

  function AsChar(n: int): Option<char>
  {
    if 0 <= n < 0xD800 || 0xE000 <= n < 0x11_0000 then Some(n as char) else None
  }

  /** A code point decoded from a sequence of `len` bytes; None when it has a shorter encoding (an overlong form) or is not a character. */
  function AsCharOfLength(n: int, len: nat): Option<char>
  {
    var least := if len == 2 then 0x80 else if len == 3 then 0x800 else if len == 4 then 0x1_0000 else 0;
    if n < least then None else AsChar(n)
  }

  /** Decodes the character that starts `bs`, giving it and the number of bytes it took. */
  function DecodeChar(bs: seq<byte>): (r: Option<(char, nat)>)
    requires |bs| >= 1
    ensures r.Some? ==> 1 <= r.value.1 <= |bs| && r.value.1 == |EncodeChar(r.value.0)|
  {
    var b0 := bs[0] as int;
    if b0 < 0x80 then
      match AsChar(b0) case None => None case Some(c) => Some((c, 1))
    else if 0xC0 <= b0 < 0xE0 && |bs| >= 2 && Continuation(bs[1]) then
      match AsCharOfLength((b0 - 0xC0) * 0x40 + (bs[1] as int - 0x80), 2) case None => None case Some(c) => Some((c, 2))
    else if 0xE0 <= b0 < 0xF0 && |bs| >= 3 && Continuation(bs[1]) && Continuation(bs[2]) then
      match AsCharOfLength((b0 - 0xE0) * 0x1000 + (bs[1] as int - 0x80) * 0x40 + (bs[2] as int - 0x80), 3)
      case None => None case Some(c) => Some((c, 3))
    else if 0xF0 <= b0 < 0xF8 && |bs| >= 4 && Continuation(bs[1]) && Continuation(bs[2]) && Continuation(bs[3]) then
      match AsCharOfLength((b0 - 0xF0) * 0x4_0000 + (bs[1] as int - 0x80) * 0x1000 + (bs[2] as int - 0x80) * 0x40 + (bs[3] as int - 0x80), 4)
      case None => None case Some(c) => Some((c, 4))
    else None
  }

  /** `bs.decode('utf-8')`, None where Python would raise. */
  function DecodeUtf8(bs: seq<byte>): Option<string>
    decreases |bs|
  {
    if bs == [] then Some("")
    else
      match DecodeChar(bs)
      case None => None
      case Some(p) =>
        if p.1 < 1 || p.1 > |bs| then None
        else match DecodeUtf8(bs[p.1..])
          case None => None
          case Some(rest) => Some([p.0] + rest)
  }

  /** The overlong encodings of NUL in two, three and four bytes do not decode, as Python's strict decoder refuses them. */
  lemma OverlongRejected()
    ensures DecodeUtf8([0xC0, 0x80]).None?
    ensures DecodeUtf8([0xE0, 0x80, 0x80]).None?
    ensures DecodeUtf8([0xF0, 0x80, 0x80, 0x80]).None?
  {
    assert DecodeChar([0xC0, 0x80]).None?;
    assert DecodeChar([0xE0, 0x80, 0x80]).None?;
    assert DecodeChar([0xF0, 0x80, 0x80, 0x80]).None?;
  }

  lemma DecodeEncodedChar(c: char, rest: seq<byte>)
    ensures DecodeChar(EncodeChar(c) + rest) == Some((c, |EncodeChar(c)|))
  {
    var n := c as int;
    if n < 0x80 {
    } else if n < 0x800 {
      DecodeTwoBytes(c, rest);
    } else if n < 0x1_0000 {
      DecodeThreeBytes(c, rest);
    } else {
      DecodeFourBytes(c, rest);
    }
  }

  lemma DecodeTwoBytes(c: char, rest: seq<byte>)
    requires 0x80 <= c as int < 0x800
    ensures DecodeChar(EncodeChar(c) + rest) == Some((c, 2))
  {
    var n := c as int;
    var bs := EncodeChar(c) + rest;
    assert bs[0] as int == 0xC0 + n / 0x40 && bs[1] as int == 0x80 + n % 0x40;
    assert (n / 0x40) * 0x40 + n % 0x40 == n;
  }

  lemma DecodeThreeBytes(c: char, rest: seq<byte>)
    requires 0x800 <= c as int < 0x1_0000
    ensures DecodeChar(EncodeChar(c) + rest) == Some((c, 3))
  {
    var n := c as int;
    var bs := EncodeChar(c) + rest;
    assert bs[0] as int == 0xE0 + n / 0x1000 && bs[1] as int == 0x80 + n / 0x40 % 0x40;
    assert bs[2] as int == 0x80 + n % 0x40;
    assert (n / 0x1000) * 0x1000 + (n / 0x40 % 0x40) * 0x40 + n % 0x40 == n;
  }

  lemma DecodeFourBytes(c: char, rest: seq<byte>)
    requires 0x1_0000 <= c as int
    ensures DecodeChar(EncodeChar(c) + rest) == Some((c, 4))
  {
    var n := c as int;
    var bs := EncodeChar(c) + rest;
    assert bs[0] as int == 0xF0 + n / 0x4_0000 && bs[1] as int == 0x80 + n / 0x1000 % 0x40;
    assert bs[2] as int == 0x80 + n / 0x40 % 0x40 && bs[3] as int == 0x80 + n % 0x40;
    SixBitGroups(n);
  }

  /** A number is the sum of its four base-64 digits, as `EncodeChar` extracts them. */
  lemma SixBitGroups(n: nat)
    ensures (n / 0x4_0000) * 0x4_0000 + (n / 0x1000 % 0x40) * 0x1000 + (n / 0x40 % 0x40) * 0x40 + n % 0x40 == n
  {
    var m1 := n / 0x40;
    var m2 := m1 / 0x40;
    var m3 := m2 / 0x40;
    assert n == 0x40 * m1 + n % 0x40;
    assert m1 == 0x40 * m2 + m1 % 0x40;
    assert m2 == 0x40 * m3 + m2 % 0x40;
    assert n == 0x1000 * m2 + (0x40 * (m1 % 0x40) + n % 0x40);
    assert n / 0x1000 == m2;
    assert n == 0x4_0000 * m3 + (0x1000 * (m2 % 0x40) + 0x40 * (m1 % 0x40) + n % 0x40);
    assert n / 0x4_0000 == m3;
  }

  /** Decoding what `check_output` encoded gives back the text. */
  lemma {:induction false} Utf8RoundTrip(s: string)
    ensures DecodeUtf8(EncodeUtf8(s)) == Some(s)
    decreases |s|
  {
    if s != [] {
      var e := EncodeChar(s[0]);
      DecodeEncodedChar(s[0], EncodeUtf8(s[1..]));
      assert (e + EncodeUtf8(s[1..]))[|e|..] == EncodeUtf8(s[1..]);
      Utf8RoundTrip(s[1..]);
      assert [s[0]] + s[1..] == s;
    }
  }

  /** An ASCII text is encoded one byte per character, with the character's code. */
  lemma {:induction false} AsciiEncodesBytewise(s: string)
    requires forall i :: 0 <= i < |s| ==> s[i] as int < 0x80
    ensures |EncodeUtf8(s)| == |s|
    ensures forall i :: 0 <= i < |s| ==> EncodeUtf8(s)[i] as int == s[i] as int
    decreases |s|
  {
    if s != [] {
      AsciiEncodesBytewise(s[1..]);
    }
  }
}
