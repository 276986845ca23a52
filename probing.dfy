/**
 * The environment prober's pure parts: how the outcome of `<tool> --version`
 * becomes an availability flag and a version string, and the free-space
 * threshold.
 */
module Probing {

  /** What `subprocess.run([tool, '--version'], timeout=10)` came back with. */
  datatype ProbeOutcome =
    | Exited(code: int, stdout: string)
    | TimedOut
    | NotFound

  /** Free bytes in the home volume, or the probe raised. */
  datatype DiskProbe = FreeBytes(bytes: int) | DiskUnreadable

  /** The configured minimum, 5 GiB, in bytes. */
  const RequiredDiskGb: int := 5
  const RequiredDiskBytes: int := RequiredDiskGb * 1024 * 1024 * 1024

  /** The characters `str.strip()` removes, restricted to ASCII. */
  predicate IsSpace(c: char)
  {
    c == ' ' || (9 <= c as int <= 13) || (28 <= c as int <= 31)
  }

  /** `s` with its leading whitespace removed. */
  function TrimStart(s: string): (r: string)
    ensures |r| <= |s| && r == s[|s| - |r|..]
    ensures r == [] || !IsSpace(r[0])
    ensures forall k | 0 <= k < |s| - |r| :: IsSpace(s[k])
  {
    if s != [] && IsSpace(s[0]) then TrimStart(s[1..]) else s
  }

  /** `s` with its trailing whitespace removed. */
  function TrimEnd(s: string): (r: string)
    ensures |r| <= |s| && r == s[..|r|]
    ensures r == [] || !IsSpace(r[|r| - 1])
    ensures forall k | |r| <= k < |s| :: IsSpace(s[k])
  {
    if s != [] && IsSpace(s[|s| - 1]) then TrimEnd(s[..|s| - 1]) else s
  }

  /** `str.strip()`: the longest infix that neither starts nor ends with whitespace. */
  function Strip(s: string): (r: string)
    ensures |r| <= |s|
    ensures r == [] || (!IsSpace(r[0]) && !IsSpace(r[|r| - 1]))
  {
    var t := TrimStart(s);
    var r := TrimEnd(t);
    assert r != [] ==> r[0] == t[0];
    r
  }

  /**
   * `Strip(s)` is the infix of `s` that starts right after its `n` leading
   * whitespace characters.
   */
  lemma StripIsInfix(s: string)
    ensures var n := |s| - |TrimStart(s)|;
      && n + |Strip(s)| <= |s| && Strip(s) == s[n..n + |Strip(s)|]
      && forall k | 0 <= k < n :: IsSpace(s[k])
  {
    var t := TrimStart(s);
    var n := |s| - |t|;
    assert t == s[n..];
    assert Strip(s) == t[..|Strip(s)|];
  }

  /** What `Strip` cuts off at the end is whitespace. */
  lemma StripCutsTrailingSpace(s: string)
    ensures var n := |s| - |TrimStart(s)|;
      forall k | n + |Strip(s)| <= k < |s| :: IsSpace(s[k])
  {
    var t := TrimStart(s);
    var n := |s| - |t|;
    assert t == s[n..];
    forall k | n + |Strip(s)| <= k < |s| ensures IsSpace(s[k]) {
      assert s[k] == t[k - n];
    }
  }

  /** The tool ran and exited with 0. */
  predicate Answers(o: ProbeOutcome)
  {
    o.Exited? && o.code == 0
  }

  /** `check_command`: available exactly when the tool exited with 0; the version is its stripped output. */
  function VersionProbe(o: ProbeOutcome): (r: (bool, string))
    ensures r.0 <==> o.Exited? && o.code == 0
    ensures !o.Exited? ==> r.1 == ""
    ensures o.Exited? ==> r.1 == Strip(o.stdout)
  {
    match o
    case Exited(code, out) => (code == 0, Strip(out))
    case _ => (false, "")
  }

  /** The disk check raises an error only when it read a free size below the minimum. */
  predicate DiskShort(d: DiskProbe)
  {
    d.FreeBytes? && d.bytes < RequiredDiskBytes
  }
}
