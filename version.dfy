/** The package version: the version_info tuple and the __version__ string
    formed from it, '.'.join(map(str, version_info[:3])) followed by
    '-' and the fourth entry when there is one. */
module Version {
  import opened Text

  /** One entry of version_info: an integer, or a tag such as 'dev'. */
  datatype Component = Int(n: int) | Str(s: string)

  predicate IsDigit(c: char) {
    '0' <= c <= '9'
  }

  predicate AllDigits(s: string) {
    forall i :: 0 <= i < |s| ==> IsDigit(s[i])
  }

  function DigitChar(d: nat): (c: char)
    requires d < 10
    ensures IsDigit(c) && c as int - '0' as int == d
  {
    ('0' as int + d) as char
  }

  /** str(n) for n >= 0: decimal digits, no leading zero except for 0 itself. */
  function NatToString(n: nat): (r: string)
    ensures |r| >= 1 && AllDigits(r)
    ensures r[0] == '0' ==> n == 0
    decreases n
  {
    if n < 10 then [DigitChar(n)] else NatToString(n / 10) + [DigitChar(n % 10)]
  }

  /** The value of a string of decimal digits, read left to right. */
  function ParseNat(s: string): nat
    requires AllDigits(s)
  {
    if s == [] then 0 else 10 * ParseNat(s[..|s| - 1]) + (s[|s| - 1] as int - '0' as int)
  }

  lemma DigitsHaveNoDot(s: string)
    requires AllDigits(s)
    ensures '.' !in s
  {
    forall i | 0 <= i < |s| ensures s[i] != '.' {
      assert IsDigit(s[i]);
    }
  }

  /** Reading back str(n) gives n. */
  lemma {:induction false} ParseNatToString(n: nat)
    ensures ParseNat(NatToString(n)) == n
    decreases n
  {
    if n >= 10 {
      ParseNatToString(n / 10);
      var r := NatToString(n);
      assert r[..|r| - 1] == NatToString(n / 10);
    }
  }

  /** str(x) of a version_info entry: signed decimal for an integer, the
      string itself for a tag. */
  function Render(c: Component): (r: string)
    ensures c.Int? ==> |r| >= 1 && (c.n >= 0 <==> r[0] != '-')
  {
    match c
    case Int(n) => if n < 0 then "-" + NatToString(-n) else NatToString(n)
    case Str(s) => s
  }

  /** map(str, parts) */
  function RenderAll(parts: seq<Component>): (r: seq<string>)
    ensures |r| == |parts|
    ensures forall i :: 0 <= i < |parts| ==> r[i] == Render(parts[i])
  {
    if parts == [] then [] else [Render(parts[0])] + RenderAll(parts[1..])
  }

  /** The first line of __version__: the first three entries (or fewer, when
      the tuple is shorter) rendered and joined with '.'. */
  function Base(info: seq<Component>): string {
    Join(RenderAll(info[..if |info| < 3 then |info| else 3]), '.')
  }

  /** __version__ */
  function VersionString(info: seq<Component>): string {
    if |info| > 3 then Base(info) + "-" + Render(info[3]) else Base(info)
  }

  /** The tuple shipped in version.py. */
  const VersionInfo: seq<Component> := [Int(0), Int(3), Int(0)]

  /** The version literal the package's __init__ declares. */
  const PackageVersion: string := "0.3.0"

  /** Three entries give the three renderings joined by '.'. */
  lemma ThreeEntries(info: seq<Component>)
    requires |info| == 3
    ensures VersionString(info) == Render(info[0]) + "." + Render(info[1]) + "." + Render(info[2])
  {
    assert info[..3] == info;
    var r := RenderAll(info);
    assert r == [Render(info[0]), Render(info[1]), Render(info[2])];
    assert r[1..] == [Render(info[1]), Render(info[2])];
    assert r[1..][1..] == [Render(info[2])];
    assert Join(r[1..], '.') == Render(info[1]) + "." + Render(info[2]);
    assert Join(r, '.') == Render(info[0]) + "." + (Render(info[1]) + "." + Render(info[2]));
  }

  /** A fourth entry is appended after '-', and entries past the fourth are
      ignored. */
  lemma FourthEntryIsSuffix(info: seq<Component>)
    requires |info| > 3
    ensures VersionString(info) == VersionString(info[..3]) + "-" + Render(info[3])
    ensures VersionString(info) == VersionString(info[..4])
  {
    assert info[..3][..3] == info[..3];
    assert info[..4][..3] == info[..3];
  }

  /** The version of three non-negative integers splits on '.' into their
      decimal strings, which read back as the integers: the version string
      determines the numbers. */
  lemma {:induction false} NumericVersionRoundTrip(a: nat, b: nat, c: nat)
    ensures var parts := Split(VersionString([Int(a), Int(b), Int(c)]), '.');
      |parts| == 3
      && AllDigits(parts[0]) && AllDigits(parts[1]) && AllDigits(parts[2])
      && ParseNat(parts[0]) == a && ParseNat(parts[1]) == b && ParseNat(parts[2]) == c
  {
    var info := [Int(a), Int(b), Int(c)];
    var pieces := [NatToString(a), NatToString(b), NatToString(c)];
    var r := RenderAll(info);
    assert info[..3] == info;
    assert r == pieces;
    forall k | 0 <= k < |pieces| ensures '.' !in pieces[k] {
      DigitsHaveNoDot(pieces[k]);
    }
    SplitJoin(pieces, '.');
    ParseNatToString(a);
    ParseNatToString(b);
    ParseNatToString(c);
  }

  /** The shipped tuple gives "0.3.0", the literal of the package's __init__. */
  lemma ShippedVersion()
    ensures VersionString(VersionInfo) == PackageVersion
  {
    ThreeEntries(VersionInfo);
  }

  /** Adding 'dev' to the end of the tuple, as version.py suggests, gives "0.3.0-dev". */
  lemma DevVersion()
    ensures VersionString(VersionInfo + [Str("dev")]) == PackageVersion + "-dev"
  {
    var info := VersionInfo + [Str("dev")];
    FourthEntryIsSuffix(info);
    assert info[..3] == VersionInfo;
    ShippedVersion();
  }

  /** The part before any '-' suffix is always the start of the version. */
  lemma BaseIsPrefix(info: seq<Component>)
    ensures Base(info) <= VersionString(info)
  {
  }

  /** An integer's rendering has no '.'. */
  lemma IntHasNoDot(n: int)
    ensures '.' !in Render(Int(n))
  {
    if n < 0 {
      DigitsHaveNoDot(NatToString(-n));
      assert Render(Int(n)) == "-" + NatToString(-n);
    } else {
      DigitsHaveNoDot(NatToString(n));
    }
  }

  /** Three integer entries give a version with exactly two '.'. */
  lemma ThreeIntsTwoDots(a: int, b: int, c: int)
    ensures Count(VersionString([Int(a), Int(b), Int(c)]), '.') == 2
  {
    var info := [Int(a), Int(b), Int(c)];
    var r := RenderAll(info);
    assert info[..3] == info;
    IntHasNoDot(a);
    IntHasNoDot(b);
    IntHasNoDot(c);
    assert forall k :: 0 <= k < |r| ==> '.' !in r[k];
    JoinCount(r, '.');
  }
}
