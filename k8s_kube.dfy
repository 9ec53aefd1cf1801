/** internal/k8s/kube.go: comparing the API server's version with "1.<minor>".
    Versions are read the way apimachinery's version.ParseGeneric reads them:
    optional leading white space and 'v', then dot-separated decimal
    components (at least two, the first without a leading zero, each one a
    Go `uint`, that is below 2^64), then any text without a line break: the
    pattern's `(.*)*$` cannot step over a newline, since `.` excludes it and
    `$` is the end of the text. That trailing text is otherwise ignored. */
module K8sKube {
  import opened Wrappers
  import opened Text
  import opened Store

  /** The server's version report; only Major and Minor are read. */
  datatype Info = Info(major: string, minor: string)

  /** One more than the largest value of Go's `uint` on a 64-bit platform:
      strconv.ParseUint(comp, 10, 0) rejects every component from here on. */
  const UintLimit: nat := 0x1_0000_0000_0000_0000

  /** White space as Go's regexp `\s` knows it. */
  predicate IsSpace(c: char) {
    c == ' ' || c == '\t' || c == '\n' || c == '\U{C}' || c == '\r'
  }

  function SkipSpace(s: string): (t: string)
    ensures t == [] || !IsSpace(t[0])
    decreases |s|
  {
    if s != [] && IsSpace(s[0]) then SkipSpace(s[1..]) else s
  }

  /** Length of the run of digits `s` starts with. */
  function DigitRun(s: string): (n: nat)
    ensures n <= |s|
    ensures forall i :: 0 <= i < n ==> IsDigit(s[i])
    ensures n < |s| ==> !IsDigit(s[n])
    decreases |s|
  {
    if s == [] || !IsDigit(s[0]) then 0 else 1 + DigitRun(s[1..])
  }

  /** The numerals of `[0-9]+(\.[0-9]+)*`, matched greedily at the start of `s`. */
  function Numerals(s: string): (parts: seq<string>)
    requires s != [] && IsDigit(s[0])
    ensures |parts| >= 1
    ensures forall i :: 0 <= i < |parts| ==> IsDigits(parts[i]) && AllDigits(parts[i])
    decreases |s|
  {
    var n := DigitRun(s);
    var rest := s[n..];
    if |rest| >= 2 && rest[0] == '.' && IsDigit(rest[1]) then [s[..n]] + Numerals(rest[1..])
    else [s[..n]]
  }

  /** version.ParseGeneric; None stands for its error. Numerals and dots hold
      no newline, so a newline anywhere after the 'v' lies in the trailing text. */
  function ParseGeneric(str: string): (v: Option<seq<nat>>)
    ensures v.Some? ==> |v.value| >= 2
    ensures v.Some? ==> FitsUint(v.value)
  {
    var t := SkipSpace(str);
    var t := if t != [] && t[0] == 'v' then t[1..] else t;
    if t == [] || !IsDigit(t[0]) || '\n' in t then None
    else
      var parts := Numerals(t);
      if |parts| < 2 then None
      else if parts[0][0] == '0' && parts[0] != "0" then None
      else
        var values := NumeralValues(parts);
        if FitsUint(values) then Some(values) else None
  }

  function NumeralValues(parts: seq<string>): (values: seq<nat>)
    requires forall i :: 0 <= i < |parts| ==> AllDigits(parts[i])
    ensures |values| == |parts| && forall i :: 0 <= i < |parts| ==> values[i] == DigitsValue(parts[i])
  {
    seq(|parts|, i requires 0 <= i < |parts| => DigitsValue(parts[i]))
  }

  /** Version.compareInternal on two generic versions: component by component,
      a missing component counting as zero. */
  function Compare(v: seq<nat>, w: seq<nat>): (c: int)
    ensures -1 <= c <= 1
    decreases |v| + |w|
  {
    if v == [] && w == [] then 0
    else if v == [] then (if w[0] != 0 then -1 else Compare([], w[1..]))
    else if w == [] then (if v[0] != 0 then 1 else Compare(v[1..], []))
    else if v[0] > w[0] then 1
    else if v[0] < w[0] then -1
    else Compare(v[1..], w[1..])
  }

  /** The comparison is antisymmetric, so AtLeast and LessThan agree in both orders. */
  lemma {:induction false} CompareAntisymmetric(v: seq<nat>, w: seq<nat>)
    ensures Compare(v, w) == -Compare(w, v)
    decreases |v| + |w|
  {
    if v == [] && w == [] {
    } else if v == [] {
      if w[0] == 0 { CompareAntisymmetric([], w[1..]); }
    } else if w == [] {
      if v[0] == 0 { CompareAntisymmetric(v[1..], []); }
    } else if v[0] == w[0] {
      CompareAntisymmetric(v[1..], w[1..]);
    }
  }

  lemma CompareCons(x: nat, v: seq<nat>, y: nat, w: seq<nat>)
    ensures Compare([x] + v, [y] + w) == if x > y then 1 else if x < y then -1 else Compare(v, w)
  {
    assert ([x] + v)[1..] == v && ([y] + w)[1..] == w;
  }

  /** Three-component versions compare lexicographically. */
  lemma CompareTriples(a: nat, b: nat, c: nat, x: nat, y: nat, z: nat)
    ensures Compare([a, b, c], [x, y, z]) == -1 <==> a < x || (a == x && (b < y || (b == y && c < z)))
  {
    assert [a, b, c] == [a] + [b, c] && [x, y, z] == [x] + [y, z];
    assert [b, c] == [b] + [c] && [y, z] == [y] + [z];
    assert [c] == [c] + [] && [z] == [z] + [];
    CompareCons(a, [b, c], x, [y, z]);
    CompareCons(b, [c], y, [z]);
    CompareCons(c, [], z, []);
  }

  /** IsKubeAtLeastOrLessThanVersion: "v<major>.<minor>.0" against
      "v1.<minorVersion>.0"; a missing report or an unparsable version gives true.
      `minorVersion` is a Go `uint`. */
  function IsKubeAtLeastOrLessThanVersion(clusterVersion: Option<Info>, minorVersion: nat, atLeast: bool): (r: bool)
    requires minorVersion < UintLimit
    ensures clusterVersion.None? ==> r
    ensures clusterVersion.Some? && ServerVersion(clusterVersion.value).None? ==> r
    ensures clusterVersion.Some? && ServerVersion(clusterVersion.value).Some? ==>
      r == (if atLeast then Compare(ServerVersion(clusterVersion.value).value, [1, minorVersion, 0]) != -1
            else Compare(ServerVersion(clusterVersion.value).value, [1, minorVersion, 0]) == -1)
  {
    if clusterVersion.None? then true
    else
      match ParseGeneric("v" + clusterVersion.value.major + "." + clusterVersion.value.minor + ".0")
      case None => true
      case Some(cv) =>
        assert "v1." + NatToString(minorVersion) + ".0" == "v" + NatToString(1) + "." + NatToString(minorVersion) + ".0";
        ParsesNumerals(1, minorVersion);
        match ParseGeneric("v1." + NatToString(minorVersion) + ".0")
        case None => assert false; true
        case Some(ev) =>
          if atLeast then Compare(cv, ev) != -1 else Compare(cv, ev) == -1
  }

  function ServerVersion(info: Info): Option<seq<nat>> {
    ParseGeneric("v" + info.major + "." + info.minor + ".0")
  }

  /** IsAtLeastVersion: a failed server-version probe counts as recent enough. */
  function IsAtLeastVersion(probe: Result<Info, Error>, minorVersion: nat): (r: bool)
    requires minorVersion < UintLimit
    ensures probe.Err? ==> r
    ensures probe.Ok? ==> r == IsKubeAtLeastOrLessThanVersion(Some(probe.value), minorVersion, true)
  {
    match probe
    case Err(_) => true
    case Ok(info) => IsKubeAtLeastOrLessThanVersion(Some(info), minorVersion, true)
  }

  lemma {:induction false} DigitRunOfDigits(d: string, rest: string)
    requires forall i :: 0 <= i < |d| ==> IsDigit(d[i])
    requires rest == [] || !IsDigit(rest[0])
    ensures DigitRun(d + rest) == |d|
    decreases |d|
  {
    if d != [] {
      assert (d + rest)[1..] == d[1..] + rest;
      DigitRunOfDigits(d[1..], rest);
    } else {
      assert d + rest == rest;
    }
  }

  lemma {:induction false} NatToStringLeadingZero(n: nat)
    ensures NatToString(n)[0] == '0' ==> n == 0
    decreases n
  {
    if n >= 10 {
      NatToStringLeadingZero(n / 10);
      assert NatToString(n)[0] == NatToString(n / 10)[0];
    }
  }

  /** A decimal numeral followed by ".<numeral>..." or by the end of the text. */
  lemma NumeralsOfNumeral(d: string, rest: string)
    requires IsDigits(d)
    requires rest == [] || (|rest| >= 2 && rest[0] == '.' && IsDigit(rest[1]))
    ensures rest == [] ==> Numerals(d + rest) == [d]
    ensures rest != [] ==> Numerals(d + rest) == [d] + Numerals(rest[1..])
  {
    DigitRunOfDigits(d, rest);
    assert (d + rest)[..|d|] == d;
    assert (d + rest)[|d|..] == rest;
  }

  lemma VersionStringShape(da: string, db: string)
    ensures "v" + da + "." + db + ".0" == "v" + (da + ("." + db + ".0"))
  {
    assert "v" + da + "." + db == "v" + (da + "." + db);
    assert "v" + da + "." + db + ".0" == "v" + (da + "." + db + ".0");
    assert da + "." + db + ".0" == da + ("." + db) + ".0" == da + ("." + db + ".0");
  }

  lemma NumeralsOfPair(db: string)
    requires IsDigits(db)
    ensures Numerals(db + ".0") == [db, "0"]
  {
    assert IsDigits("0");
    NumeralsOfNumeral("0", []);
    assert "0" + [] == "0";
    NumeralsOfNumeral(db, ".0");
    assert (".0")[1..] == "0";
  }

  lemma NumeralsOfTriple(da: string, db: string)
    requires IsDigits(da) && IsDigits(db)
    ensures Numerals(da + ("." + db + ".0")) == [da, db, "0"]
  {
    NumeralsOfPair(db);
    NumeralsOfNumeral(da, "." + db + ".0");
    assert ("." + db + ".0")[1..] == db + ".0";
  }

  lemma ParseGenericOfPrefixed(t: string)
    requires t != [] && IsDigit(t[0]) && '\n' !in t
    requires |Numerals(t)| >= 2 && !(Numerals(t)[0][0] == '0' && Numerals(t)[0] != "0")
    ensures var values := NumeralValues(Numerals(t));
      ParseGeneric("v" + t) == if FitsUint(values) then Some(values) else None
  {
    assert SkipSpace("v" + t) == "v" + t;
    assert ("v" + t)[1..] == t;
  }

  lemma DigitsLackNewline(d: string)
    requires AllDigits(d)
    ensures '\n' !in d
  {
  }

  predicate FitsUint(values: seq<nat>) {
    forall i :: 0 <= i < |values| ==> values[i] < UintLimit
  }

  lemma TripleFits(a: nat, b: nat)
    ensures FitsUint([a, b, 0]) <==> a < UintLimit && b < UintLimit
  {
    var v := [a, b, 0];
    assert v[0] == a && v[1] == b;
  }

  lemma TripleLacksNewline(da: string, db: string)
    requires AllDigits(da) && AllDigits(db)
    ensures '\n' !in da + ("." + db + ".0")
  {
    DigitsLackNewline(da);
    DigitsLackNewline(db);
    assert da + ("." + db + ".0") == da + "." + db + ".0";
  }

  /** Two decimal numerals, the first without a leading zero, then ".0". */
  lemma ParsesTriple(da: string, db: string)
    requires IsDigits(da) && IsDigits(db) && !(da[0] == '0' && da != "0")
    ensures var v := [DigitsValue(da), DigitsValue(db), 0];
      ParseGeneric("v" + (da + ("." + db + ".0"))) == if FitsUint(v) then Some(v) else None
  {
    var t := da + ("." + db + ".0");
    NumeralsOfTriple(da, db);
    assert t[0] == da[0];
    TripleLacksNewline(da, db);
    ParseGenericOfPrefixed(t);
    TripleValues(da, db);
  }

  /** "v<a>.<b>.0", with a and b written in decimal, parses to [a, b, 0]
      exactly when both fit in a Go `uint`. */
  lemma ParsesNumerals(a: nat, b: nat)
    ensures ParseGeneric("v" + NatToString(a) + "." + NatToString(b) + ".0")
         == if a < UintLimit && b < UintLimit then Some([a, b, 0]) else None
  {
    var da, db := NatToString(a), NatToString(b);
    NatToStringRoundTrip(a);
    NatToStringRoundTrip(b);
    NatToStringLeadingZero(a);
    VersionStringShape(da, db);
    ParsesTriple(da, db);
    TripleFits(a, b);
  }

  /** A newline in the reported minor version makes the parse fail, so both
      modes answer true. */
  lemma NewlineInMinorCountsAsRecent(info: Info, minorVersion: nat, atLeast: bool)
    requires minorVersion < UintLimit
    requires '\n' in info.minor
    ensures IsKubeAtLeastOrLessThanVersion(Some(info), minorVersion, atLeast)
  {
    var t := info.major + "." + info.minor + ".0";
    assert "v" + info.major + "." + info.minor + ".0" == "v" + t;
    assert SkipSpace("v" + t) == "v" + t;
    assert ("v" + t)[1..] == t;
    assert '\n' in t;
  }

  lemma TripleValues(da: string, db: string)
    requires IsDigits(da) && IsDigits(db)
    ensures NumeralValues([da, db, "0"]) == [DigitsValue(da), DigitsValue(db), 0]
  {
    assert DigitsValue("0") == 0 by {
      assert "0"[..0] == [];
    }
  }

  /** For a server reporting decimal major and minor numbers, the at-least
      test is (major, minor) >= (1, minorVersion); the patch level plays no
      part, and a number too wide for a `uint` fails the parse, which counts
      as recent enough. */
  lemma AtLeastMeansLexicographic(major: nat, minor: nat, minorVersion: nat)
    requires minorVersion < UintLimit
    ensures IsKubeAtLeastOrLessThanVersion(Some(Info(NatToString(major), NatToString(minor))), minorVersion, true)
        <==> major >= UintLimit || minor >= UintLimit || major > 1 || (major == 1 && minor >= minorVersion)
  {
    ParsesNumerals(major, minor);
    CompareTriples(major, minor, 0, 1, minorVersion, 0);
  }

  /** Whenever the server's version parses, the two modes answer oppositely. */
  lemma AtLeastAndLessThanComplementary(info: Info, minorVersion: nat)
    requires minorVersion < UintLimit
    requires ServerVersion(info).Some?
    ensures IsKubeAtLeastOrLessThanVersion(Some(info), minorVersion, true)
        == !IsKubeAtLeastOrLessThanVersion(Some(info), minorVersion, false)
  {
  }

  /** The documented example: a v1.15 server is at least 1.13 and not at least 1.17. */
  lemma DocumentedExample()
    ensures IsKubeAtLeastOrLessThanVersion(Some(Info("1", "15")), 13, true)
    ensures !IsKubeAtLeastOrLessThanVersion(Some(Info("1", "15")), 17, true)
  {
    assert NatToString(1) == "1";
    assert NatToString(15) == "15";
    AtLeastMeansLexicographic(1, 15, 13);
    AtLeastMeansLexicographic(1, 15, 17);
  }
}
