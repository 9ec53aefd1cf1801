/** internal/controller/utils: name hashing, the adopted / mesh / readiness tests
    on a ClusterDeployment, the existence probe, event annotations and the
    message LogEvent records. */
module Utils {
  import opened Wrappers
  import opened Text
  import opened Resources
  import opened Store

  // ---------------------------------------------------------------------------
  // FNV-1a, 32 bits (IETF draft-eastlake-fnv, section 2): start from the offset
  // basis, then for every byte XOR it in and multiply by the prime modulo 2^32.

  const FnvOffsetBasis32: bv32 := 0x811C9DC5   // 2166136261
  const FnvPrime32: bv32 := 0x01000193         // 16777619

  function Fnv1a32(data: seq<byte>): bv32
    decreases |data|
  {
    if data == [] then FnvOffsetBasis32
    else (Fnv1a32(data[..|data| - 1]) ^ ((data[|data| - 1] as bv8) as bv32)) * FnvPrime32
  }

  /** Test vectors of the FNV draft for the empty string and "a". */
  lemma Fnv1a32Vectors()
    ensures Fnv1a32([]) == 0x811C9DC5
    ensures Fnv1a32([97]) == 0xE40C292C
  {
    assert [97][..0] == [];
    assert Fnv1a32([97]) == (FnvOffsetBasis32 ^ 97) * FnvPrime32;
    var x: bv32 := 0x811C9DC5 ^ 0x61;
    assert x == 0x811C9DA4;
    var y: bv32 := 0x811C9DA4 * 0x01000193;
    assert y == 0xE40C292C;
  }

  function NameHashValue(name: string): nat {
    Fnv1a32(Utf8(name)) as nat
  }

  /** GetNameHash: prefix + "-" + `%x` of the FNV-1a hash of the name's bytes.
      The suffix is the hash written in 1 to 8 lower-case hex digits with no
      leading zero, so it determines the hash and is determined by it. */
  function GetNameHash(prefix: string, name: string): (r: string)
    ensures |r| > |prefix| + 1 && r[..|prefix| + 1] == prefix + "-"
    ensures var suffix := r[|prefix| + 1..];
      && 1 <= |suffix| <= 8
      && IsHexString(suffix)
      && (suffix[0] == '0' ==> |suffix| == 1)
      && ParseHex(suffix) == NameHashValue(name)
  {
    var h := NameHashValue(name);
    HexRoundTrip(h);
    assert Pow16(8) == 0x1_0000_0000;
    HexLength(h, 8);
    var r := prefix + "-" + Hex(h);
    assert r[|prefix| + 1..] == Hex(h);
    r
  }

  /** Two names get the same derived name under one prefix exactly when their
      hashes collide: the hex suffix is a faithful rendering of the hash. */
  lemma NameHashInjective(prefix: string, a: string, b: string)
    ensures GetNameHash(prefix, a) == GetNameHash(prefix, b) <==> NameHashValue(a) == NameHashValue(b)
  {
    var ra, rb := GetNameHash(prefix, a), GetNameHash(prefix, b);
    if ra == rb {
      assert ra[|prefix| + 1..] == rb[|prefix| + 1..];
    }
  }

  /** Names derived under prefixes that differ in their first character never clash. */
  lemma NameHashPrefixesSeparate(p: string, q: string, a: string, b: string)
    requires |p| > 0 && |q| > 0 && p[0] != q[0]
    ensures GetNameHash(p, a) != GetNameHash(q, b)
  {
    var ra, rb := GetNameHash(p, a), GetNameHash(q, b);
    assert ra[0] == (p + "-")[0] == p[0];
    assert rb[0] == (q + "-")[0] == q[0];
  }

  // ---------------------------------------------------------------------------
  // Tests on a ClusterDeployment

  /** Adopted clusters are the ones whose template name starts with "adopted-". */
  predicate IsAdopted(cd: ClusterDeployment)
    ensures IsAdopted(cd) <==> |cd.template| >= 8 && cd.template[..8] == "adopted-"
  {
    "adopted-" <= cd.template
  }

  /** In a mesh: the comma-ok read of the mesh label. Presence alone counts,
      so a label with the empty value is in the mesh, while a missing one,
      read plainly, would give "". */
  predicate IsInMesh(cd: ClusterDeployment): (b: bool)
    ensures b <==> IstioMeshLabel in cd.labels
    ensures !b ==> LabelValue(cd.labels, IstioMeshLabel) == ""
  {
    IstioMeshLabel in cd.labels
  }

  lemma IsInMeshIgnoresValue(cd: ClusterDeployment, v: string)
    ensures IsInMesh(cd.(labels := cd.labels[IstioMeshLabel := v]))
    ensures !IsInMesh(cd.(labels := cd.labels - {IstioMeshLabel}))
  {
  }

  /** The condition type whose presence marks the cluster ready. */
  function ReadinessConditionType(cd: ClusterDeployment): string {
    if IsAdopted(cd) then ReadyCondition else CapiClusterSummaryCondition
  }

  predicate HasConditionType(conditions: seq<Condition>, t: string) {
    exists i :: 0 <= i < |conditions| && conditions[i].conditionType == t
  }

  /** Ready: some condition carries the readiness type, whatever its status. */
  predicate IsReady(cd: ClusterDeployment) {
    HasConditionType(cd.conditions, ReadinessConditionType(cd))
  }

  /** IsClusterDeploymentReady scans every condition and raises a flag on a
      condition of the readiness type. */
  method IsClusterDeploymentReady(cd: ClusterDeployment) returns (readiness: bool)
    ensures readiness <==> HasConditionType(cd.conditions, if IsAdopted(cd) then ReadyCondition else CapiClusterSummaryCondition)
  {
    readiness := false;
    var i := 0;
    while i < |cd.conditions|
      invariant 0 <= i <= |cd.conditions|
      invariant readiness <==> HasConditionType(cd.conditions[..i], ReadinessConditionType(cd))
    {
      var condition := cd.conditions[i];
      if IsAdopted(cd) {
        if condition.conditionType == ReadyCondition {
          readiness := true;
        }
      } else {
        if condition.conditionType == CapiClusterSummaryCondition {
          readiness := true;
        }
      }
      assert cd.conditions[..i + 1] == cd.conditions[..i] + [condition];
      i := i + 1;
    }
    assert cd.conditions[..i] == cd.conditions;
  }

  /** Readiness depends on the condition types only: changing statuses changes nothing. */
  lemma ReadinessIgnoresStatus(cd: ClusterDeployment, statuses: seq<string>)
    requires |statuses| == |cd.conditions|
    ensures var cd' := cd.(conditions := seq(|statuses|, i requires 0 <= i < |statuses| => cd.conditions[i].(status := statuses[i])));
      IsReady(cd') <==> IsReady(cd)
  {
    var cd' := cd.(conditions := seq(|statuses|, i requires 0 <= i < |statuses| => cd.conditions[i].(status := statuses[i])));
    if IsReady(cd) {
      var i :| 0 <= i < |cd.conditions| && cd.conditions[i].conditionType == ReadinessConditionType(cd);
      assert cd'.conditions[i].conditionType == ReadinessConditionType(cd');
    }
    if IsReady(cd') {
      var i :| 0 <= i < |cd'.conditions| && cd'.conditions[i].conditionType == ReadinessConditionType(cd');
      assert cd.conditions[i].conditionType == ReadinessConditionType(cd);
    }
  }

  // ---------------------------------------------------------------------------
  // Existence probe

  /** IsResourceExists: (true, nil) when found, (false, nil) on NotFound and
      (false, err) on any other error. */
  function IsResourceExists(s: State, k: Key): (r: (bool, Option<Error>))
    ensures r.0 <==> k in s.objects && k !in s.failing
    ensures r.1.None? <==> k !in s.failing
    ensures r.1.Some? ==> !r.0 && r.1 == Some(Api(Unavailable))
  {
    match s.Get(k)
    case Ok(_) => (true, None)
    case Err(NotFound) => (false, None)
    case Err(e) => (false, Some(Api(e)))
  }

  // ---------------------------------------------------------------------------
  // Events

  /** GetEventsAnnotations: the one key "generation", holding "nil" for a zero
      generation (also what an object without metadata yields) and the decimal
      generation otherwise. */
  function GetEventsAnnotations(generation: int): (m: map<string, string>)
    ensures m.Keys == {"generation"}
    ensures m["generation"] == "nil" <==> generation == 0
    ensures generation != 0 ==> ParseInt(m["generation"]) == Some(generation)
  {
    IntToStringRoundTrip(generation);
    assert ParseInt("nil") == None by {
      assert !IsDigits("nil") by { assert !IsDigit("nil"[0]); }
    }
    map["generation" := if generation == 0 then "nil" else IntToString(generation)]
  }

  /** A value handed to LogEvent's variadic keysAndValues. */
  datatype Arg = Str(s: string) | ErrArg(e: Error)

  function Describe(e: Error): string {
    match e
    case Api(NotFound) => "not found"
    case Api(AlreadyExists) => "already exists"
    case Api(Unavailable) => "server unavailable"
    case Wrapped(context, cause) => context + ": " + Describe(cause)
    case Fault(message) => message
  }

  /** fmt.Errorf with `%v`: the cause survives only as text, so errors.Is no
      longer sees it (unlike `%w`, which is `Wrapped`). */
  function Errorf(context: string, cause: Error): (e: Error)
    ensures e.Fault? && e.message == context + ": " + Describe(cause)
  {
    Fault(context + ": " + Describe(cause))
  }

  /** strconv.Quote for printable text: quotes around, `"` and `\` escaped. */
  function Quote(s: string): string {
    "\"" + Escape(s) + "\""
  }

  function Escape(s: string): string
    decreases |s|
  {
    if s == [] then ""
    else (if s[0] == '"' || s[0] == '\\' then ['\\', s[0]] else [s[0]]) + Escape(s[1..])
  }

  /** `%v` */
  function Verbose(a: Arg): string {
    match a
    case Str(s) => s
    case ErrArg(e) => Describe(e)
  }

  /** `%#v` */
  function GoSyntax(a: Arg): string {
    match a
    case Str(s) => Quote(s)
    case ErrArg(e) => Quote(Describe(e))
  }

  /** What position `i` of keysAndValues contributes: ", key=" at even
      positions, the value in Go syntax at odd ones. */
  function Part(i: nat, a: Arg): string {
    if i % 2 == 0 then KeyText(Verbose(a)) else GoSyntax(a)
  }

  function KeyText(key: string): string {
    ", " + key + "="
  }

  function Suffix(args: seq<Arg>): string
    decreases |args|
  {
    if args == [] then "" else Suffix(args[..|args| - 1]) + Part(|args| - 1, args[|args| - 1])
  }

  /** The key LogEvent puts in front of a non-nil error. */
  const ErrKey := "err"

  /** The list LogEvent renders: ("err", err) in front when there is an error. */
  function EventArgs(err: Option<Error>, keysAndValues: seq<Arg>): seq<Arg> {
    if err.Some? then [Str(ErrKey), ErrArg(err.value)] + keysAndValues else keysAndValues
  }

  function Concat(parts: seq<string>): string
    decreases |parts|
  {
    if parts == [] then "" else Concat(parts[..|parts| - 1]) + parts[|parts| - 1]
  }

  /** LogEvent's event: a warning when `err` is set, a normal event otherwise,
      carrying the object's annotations and the message followed by the
      rendered keys and values. */
  method LogEvent(reason: string, message: string, obj: ClusterDeployment, err: Option<Error>, keysAndValues: seq<Arg>)
    returns (e: Event)
    ensures e.eventType == (if err.Some? then Warning else Normal)
    ensures e.reason == reason && e.objectName == obj.name && e.objectNamespace == obj.namespace
    ensures e.annotations == GetEventsAnnotations(obj.generation)
    ensures e.message == message + Suffix(EventArgs(err, keysAndValues))
  {
    var eventType := Normal;
    var args := keysAndValues;
    if err.Some? {
      eventType := Warning;
      args := [Str(ErrKey), ErrArg(err.value)] + args;
    }
    var rendered := RenderArgs(args);
    e := Event(obj.name, obj.namespace, eventType, reason, GetEventsAnnotations(obj.generation), message + rendered);
  }

  /** The loop rendering each key (even position) and value (odd position). */
  method RenderArgs(args: seq<Arg>) returns (text: string)
    ensures text == Suffix(args)
  {
    var parts: seq<string> := [];
    var i := 0;
    while i < |args|
      invariant 0 <= i <= |args| && |parts| == i
      invariant Concat(parts) == Suffix(args[..i])
    {
      if i % 2 == 0 {
        parts := parts + [KeyText(Verbose(args[i]))];
      } else {
        parts := parts + [GoSyntax(args[i])];
      }
      assert args[..i + 1][..i] == args[..i];
      i := i + 1;
    }
    assert args[..i] == args;
    text := Concat(parts);
  }

  lemma SuffixSnoc(args: seq<Arg>, a: Arg)
    ensures Suffix(args + [a]) == Suffix(args) + Part(|args|, a)
  {
    assert (args + [a])[..|args|] == args;
  }

  /** A failure event reads "<message>, err=<error>" and then the caller's pair. */
  lemma FailureMessage(e: Error, key: string, value: string)
    ensures Suffix(EventArgs(Some(e), [Str(key), Str(value)]))
         == KeyText(ErrKey) + GoSyntax(ErrArg(e)) + KeyText(key) + GoSyntax(Str(value))
  {
    var a0: seq<Arg> := [];
    var a1 := a0 + [Str(ErrKey)];
    var a2 := a1 + [ErrArg(e)];
    var a3 := a2 + [Str(key)];
    var a4 := a3 + [Str(value)];
    SuffixSnoc(a0, Str(ErrKey));
    assert Suffix(a1) == KeyText(ErrKey);
    SuffixSnoc(a1, ErrArg(e));
    assert Suffix(a2) == KeyText(ErrKey) + GoSyntax(ErrArg(e));
    SuffixSnoc(a2, Str(key));
    assert Suffix(a3) == Suffix(a2) + KeyText(key);
    SuffixSnoc(a3, Str(value));
    assert Suffix(a4) == Suffix(a3) + GoSyntax(Str(value));
    assert EventArgs(Some(e), [Str(key), Str(value)]) == a4;
  }
}
