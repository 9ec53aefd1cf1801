/** scripts/mcs_diagram_generator.py: the Mermaid diagram of MultiClusterService
    and ServiceTemplate dependencies, built from the documents of a rendered Helm
    chart. Documents are the values the YAML loader produces; the diagram is the
    text the script writes to its output file. */
module McsDiagram {
  import opened Wrappers
  import opened Text

  const MultiClusterServiceKind := "MultiClusterService"
  const ServiceTemplateKind := "ServiceTemplate"

  // ---------------------------------------------------------------------------
  // Loaded YAML values

  /** A mapping keeps its entries in document order, with distinct keys. */
  datatype Yaml =
    | Null
    | Bool(b: bool)
    | Int(i: int)
    | Str(s: string)
    | List(items: seq<Yaml>)
    | Dict(entries: seq<(string, Yaml)>)

  /** The exceptions the script can raise on a malformed document. */
  datatype PyError =
    | TypeError
    | KeyError(key: string)

  /** Python truthiness. */
  predicate Truthy(y: Yaml) {
    match y
    case Null => false
    case Bool(b) => b
    case Int(i) => i != 0
    case Str(s) => s != ""
    case List(items) => items != []
    case Dict(entries) => entries != []
  }

  predicate HasKey(entries: seq<(string, Yaml)>, key: string) {
    exists i :: 0 <= i < |entries| && entries[i].0 == key
  }

  /** dict.get(key): the value under `key`, None when the key is absent. */
  function Lookup(entries: seq<(string, Yaml)>, key: string): (v: Yaml)
    ensures !HasKey(entries, key) ==> v == Null
    ensures !v.Null? ==> (key, v) in entries
    decreases |entries|
  {
    if entries == [] then Null
    else if entries[0].0 == key then entries[0].1
    else
      assert HasKey(entries, key) ==> HasKey(entries[1..], key) by {
        if HasKey(entries, key) {
          var i :| 0 <= i < |entries| && entries[i].0 == key;
          assert entries[1..][i - 1].0 == key;
        }
      }
      Lookup(entries[1..], key)
  }

  /** `for x in y`: a list yields its items, a mapping its keys, a string its
      characters; anything else is not iterable. */
  function Elements(y: Yaml): (r: Result<seq<Yaml>, PyError>)
    ensures y.List? ==> r == Ok(y.items)
    ensures (y.Null? || y.Bool? || y.Int?) <==> r == Err(TypeError)
    ensures y.Dict? ==> r.Ok? && |r.value| == |y.entries| &&
                        forall i :: 0 <= i < |y.entries| ==> r.value[i] == Str(y.entries[i].0)
    ensures y.Str? ==> r.Ok? && |r.value| == |y.s| &&
                       forall i :: 0 <= i < |y.s| ==> r.value[i] == Str([y.s[i]])
  {
    match y
    case List(items) => Ok(items)
    case Dict(entries) => Ok(seq(|entries|, i requires 0 <= i < |entries| => Str(entries[i].0)))
    case Str(s) => Ok(seq(|s|, i requires 0 <= i < |s| => Str([s[i]])))
    case _ => Err(TypeError)
  }

  /** `y[key]` with a string key: a mapping without the key raises KeyError,
      anything but a mapping raises TypeError. */
  function Subscript(y: Yaml, key: string): (r: Result<Yaml, PyError>)
    ensures r.Ok? <==> y.Dict? && HasKey(y.entries, key)
    ensures r.Ok? ==> r.value == Lookup(y.entries, key)
    ensures y.Dict? && !HasKey(y.entries, key) ==> r == Err(KeyError(key))
    ensures !y.Dict? ==> r == Err(TypeError)
  {
    match y
    case Dict(entries) => if HasKey(entries, key) then Ok(Lookup(entries, key)) else Err(KeyError(key))
    case _ => Err(TypeError)
  }

  // ---------------------------------------------------------------------------
  // Resource.deep_get

  /** The value at the end of `keys`, or `default` as soon as a step meets
      something that is not a mapping, a missing key or a null. */
  function DeepGetPath(data: Yaml, keys: seq<string>, default: Yaml): Yaml
    decreases |keys|
  {
    if keys == [] then data
    else if !data.Dict? then default
    else
      var next := Lookup(data.entries, keys[0]);
      if next.Null? then default else DeepGetPath(next, keys[1..], default)
  }

  /** Resource.deep_get(data, path, default): walk the dot-separated path. */
  method DeepGet(data: Yaml, path: string, default: Yaml) returns (r: Yaml)
    ensures r == DeepGetPath(data, Split(path, '.'), default)
  {
    var keys := Split(path, '.');
    var cur := data;
    for i := 0 to |keys|
      invariant DeepGetPath(cur, keys[i..], default) == DeepGetPath(data, keys, default)
    {
      assert keys[i..][0] == keys[i] && keys[i..][1..] == keys[i + 1..];
      if !cur.Dict? {
        return default;
      }
      cur := Lookup(cur.entries, keys[i]);
      if cur.Null? {
        return default;
      }
    }
    assert keys[|keys|..] == [];
    return cur;
  }

  /** A mapping nested along `keys` with `v` at the end. */
  function Nest(keys: seq<string>, v: Yaml): Yaml
    decreases |keys|
  {
    if keys == [] then v else Dict([(keys[0], Nest(keys[1..], v))])
  }

  /** deep_get finds what was put at the end of the path, unless it is null. */
  lemma {:induction false} DeepGetNest(keys: seq<string>, v: Yaml, default: Yaml)
    requires !v.Null?
    ensures DeepGetPath(Nest(keys, v), keys, default) == v
    decreases |keys|
  {
    if keys != [] {
      DeepGetNest(keys[1..], v, default);
      assert Lookup([(keys[0], Nest(keys[1..], v))], keys[0]) == Nest(keys[1..], v);
      NestNotNull(keys[1..], v);
    }
  }

  lemma NestNotNull(keys: seq<string>, v: Yaml)
    requires !v.Null?
    ensures !Nest(keys, v).Null?
  {
  }

  /** A non-empty walk never answers null unless the default is null. */
  lemma {:induction false} DeepGetNeverNull(data: Yaml, keys: seq<string>, default: Yaml)
    requires keys != [] && !default.Null?
    ensures !DeepGetPath(data, keys, default).Null?
    decreases |keys|
  {
    if data.Dict? {
      var next := Lookup(data.entries, keys[0]);
      if !next.Null? && |keys| > 1 {
        DeepGetNeverNull(next, keys[1..], default);
      }
    }
  }

  /** Walking `a + b` is walking `a`, then walking `b` from what was found; a
      walk of `a` that fails (null) makes the whole walk answer the default. */
  lemma {:induction false} DeepGetConcat(data: Yaml, a: seq<string>, b: seq<string>, default: Yaml)
    requires b != []
    ensures var mid := DeepGetPath(data, a, Null);
      DeepGetPath(data, a + b, default) == if mid.Null? then default else DeepGetPath(mid, b, default)
    decreases |a|
  {
    if a == [] {
      assert a + b == b;
    } else {
      assert (a + b)[0] == a[0] && (a + b)[1..] == a[1..] + b;
      if data.Dict? {
        var next := Lookup(data.entries, a[0]);
        assert DeepGetPath(data, a + b, default) == if next.Null? then default else DeepGetPath(next, a[1..] + b, default);
        assert DeepGetPath(data, a, Null) == if next.Null? then Null else DeepGetPath(next, a[1..], Null);
        if !next.Null? {
          DeepGetConcat(next, a[1..], b, default);
        }
      }
    }
  }

  // ---------------------------------------------------------------------------
  // extract_kind

  predicate IsKindDoc(doc: Yaml, kind: string) {
    doc.Dict? && Lookup(doc.entries, "kind") == Str(kind)
  }

  /** The documents of the given kind, in the order they were loaded. */
  function FilterKind(docs: seq<Yaml>, kind: string): (found: seq<Yaml>)
    ensures |found| <= |docs|
    decreases |docs|
  {
    if docs == [] then []
    else
      var n := |docs|;
      FilterKind(docs[..n - 1], kind) + if IsKindDoc(docs[n - 1], kind) then [docs[n - 1]] else []
  }

  /** Exactly the documents of the kind are kept. */
  lemma {:induction false} FilterKindMembers(docs: seq<Yaml>, kind: string)
    ensures forall d :: d in FilterKind(docs, kind) <==> d in docs && IsKindDoc(d, kind)
    decreases |docs|
  {
    if docs != [] {
      var n := |docs|;
      FilterKindMembers(docs[..n - 1], kind);
      assert docs == docs[..n - 1] + [docs[n - 1]];
    }
  }

  /** extract_kind over the loaded documents. */
  method ExtractKind(docs: seq<Yaml>, kindToFind: string) returns (found: seq<Yaml>)
    ensures found == FilterKind(docs, kindToFind)
  {
    found := [];
    for i := 0 to |docs|
      invariant found == FilterKind(docs[..i], kindToFind)
    {
      assert docs[..i + 1][..i] == docs[..i];
      if docs[i].Dict? && Lookup(docs[i].entries, "kind") == Str(kindToFind) {
        found := found + [docs[i]];
      }
    }
    assert docs[..|docs|] == docs;
  }

  /** Filtering a concatenation filters each part, order kept. */
  lemma {:induction false} FilterKindAppend(a: seq<Yaml>, b: seq<Yaml>, kind: string)
    ensures FilterKind(a + b, kind) == FilterKind(a, kind) + FilterKind(b, kind)
    decreases |b|
  {
    if b == [] {
      assert a + b == a;
    } else {
      var n := |b|;
      assert (a + b)[..|a + b| - 1] == a + b[..n - 1];
      assert (a + b)[|a + b| - 1] == b[n - 1];
      FilterKindAppend(a, b[..n - 1], kind);
    }
  }

  /** A list of documents all of the kind is kept whole. */
  lemma {:induction false} FilterKindKeepsMatching(docs: seq<Yaml>, kind: string)
    requires forall i :: 0 <= i < |docs| ==> IsKindDoc(docs[i], kind)
    ensures FilterKind(docs, kind) == docs
    decreases |docs|
  {
    if docs != [] {
      var n := |docs|;
      var front := docs[..n - 1];
      FilterKindKeepsMatching(front, kind);
      assert docs == front + [docs[n - 1]];
    }
  }

  /** Filtering twice keeps the same documents. */
  lemma FilterKindIdempotent(docs: seq<Yaml>, kind: string)
    ensures FilterKind(FilterKind(docs, kind), kind) == FilterKind(docs, kind)
  {
    var found := FilterKind(docs, kind);
    FilterKindMembers(docs, kind);
    assert forall i :: 0 <= i < |found| ==> found[i] in found;
    FilterKindKeepsMatching(found, kind);
  }

  // ---------------------------------------------------------------------------
  // The resources: TemplateResource, ServiceTemplate and MultiClusterService

  /** The keys of the dotted paths the resources read, and each path as the
      dotted string passed to deep_get ("metadata.name",
      "spec.resources.localSourceRef", "name", "kind", "spec.dependsOn",
      "spec.serviceSpec.services", "spec.serviceSpec.templateResourceRefs",
      "resource.name", "resource.kind"): the keys joined with dots. */
  const NameKeys := ["metadata", "name"]
  const LocalSourceRefKeys := ["spec", "resources", "localSourceRef"]
  const RefNameKeys := ["name"]
  const RefKindKeys := ["kind"]
  const DependsOnKeys := ["spec", "dependsOn"]
  const ServicesKeys := ["spec", "serviceSpec", "services"]
  const TemplateRefsKeys := ["spec", "serviceSpec", "templateResourceRefs"]
  const ResourceNameKeys := ["resource", "name"]
  const ResourceKindKeys := ["resource", "kind"]

  const NamePath := Join(NameKeys, '.')
  const LocalSourceRefPath := Join(LocalSourceRefKeys, '.')
  const RefNamePath := Join(RefNameKeys, '.')
  const RefKindPath := Join(RefKindKeys, '.')
  const DependsOnPath := Join(DependsOnKeys, '.')
  const ServicesPath := Join(ServicesKeys, '.')
  const TemplateRefsPath := Join(TemplateRefsKeys, '.')
  const ResourceNamePath := Join(ResourceNameKeys, '.')
  const ResourceKindPath := Join(ResourceKindKeys, '.')
  const TemplateKey := "template"

  /** Each of the paths a ServiceTemplate reads splits back into its keys. */
  lemma ServiceTemplatePaths()
    ensures Split(NamePath, '.') == NameKeys
    ensures Split(LocalSourceRefPath, '.') == LocalSourceRefKeys
    ensures Split(RefNamePath, '.') == RefNameKeys
    ensures Split(RefKindPath, '.') == RefKindKeys
  {
    SplitJoin(NameKeys, '.');
    SplitJoin(LocalSourceRefKeys, '.');
    SplitJoin(RefNameKeys, '.');
    SplitJoin(RefKindKeys, '.');
  }

  /** Each of the paths a MultiClusterService reads splits back into its keys. */
  lemma MultiClusterServicePaths()
    ensures Split(NamePath, '.') == NameKeys
    ensures Split(DependsOnPath, '.') == DependsOnKeys
    ensures Split(ServicesPath, '.') == ServicesKeys
    ensures Split(TemplateRefsPath, '.') == TemplateRefsKeys
  {
    SplitJoin(NameKeys, '.');
    SplitJoin(DependsOnKeys, '.');
    SplitJoin(ServicesKeys, '.');
    SplitJoin(TemplateRefsKeys, '.');
  }

  /** Each of the paths a TemplateResource reads splits back into its keys. */
  lemma TemplateResourcePaths()
    ensures Split(ResourceNamePath, '.') == ResourceNameKeys
    ensures Split(ResourceKindPath, '.') == ResourceKindKeys
  {
    SplitJoin(ResourceNameKeys, '.');
    SplitJoin(ResourceKindKeys, '.');
  }

  /** A (name, kind) pair of deps_with_kinds. */
  datatype Dep = Dep(name: Yaml, kind: Yaml)

  datatype TemplateResource = TemplateResource(name: Yaml, kind: Yaml)

  /** The three subclasses of Resource; names and kinds are whatever the
      documents held, which need not be strings. */
  datatype Resource =
    | Template(template: TemplateResource)
    | ServiceTemplate(templateName: Yaml, serviceDeps: seq<TemplateResource>)
    | MultiClusterService(mcsName: Yaml, depsTemplateResources: seq<TemplateResource>,
                          depsServiceNames: seq<Yaml>, depsMcsNames: seq<Yaml>)
  {
    function Kind(): Yaml {
      match this
      case Template(t) => t.kind
      case ServiceTemplate(_, _) => Str(ServiceTemplateKind)
      case MultiClusterService(_, _, _, _) => Str(MultiClusterServiceKind)
    }

    function Name(): Yaml {
      match this
      case Template(t) => t.name
      case ServiceTemplate(n, _) => n
      case MultiClusterService(n, _, _, _) => n
    }

    /** deps_with_kinds: a template resource has none; a service template has
        its template; a MultiClusterService lists its services, then its
        template resources, then the services it depends on. */
    function DepsWithKinds(): seq<Dep> {
      match this
      case Template(_) => []
      case ServiceTemplate(_, trs) => TemplateDeps(trs)
      case MultiClusterService(_, trs, services, mcs) =>
        KindedDeps(services, ServiceTemplateKind) + TemplateDeps(trs) + KindedDeps(mcs, MultiClusterServiceKind)
    }
  }

  /** A MultiClusterService lists its services, then its template resources,
      then the services it depends on, position by position. */
  lemma MultiClusterServiceLayout(r: Resource)
    requires r.MultiClusterService?
    ensures var deps := r.DepsWithKinds();
      var a, b, c := |r.depsServiceNames|, |r.depsTemplateResources|, |r.depsMcsNames|;
      && |deps| == a + b + c
      && (forall i :: 0 <= i < a ==> deps[i] == Dep(r.depsServiceNames[i], Str(ServiceTemplateKind)))
      && (forall i :: 0 <= i < b ==>
            deps[a + i] == Dep(r.depsTemplateResources[i].name, r.depsTemplateResources[i].kind))
      && (forall i :: 0 <= i < c ==> deps[a + b + i] == Dep(r.depsMcsNames[i], Str(MultiClusterServiceKind)))
  {
    var front := KindedDeps(r.depsServiceNames, ServiceTemplateKind);
    var middle := TemplateDeps(r.depsTemplateResources);
    var back := KindedDeps(r.depsMcsNames, MultiClusterServiceKind);
    var deps := front + middle + back;
    assert r.DepsWithKinds() == deps;
    var a, b := |front|, |middle|;
    forall i | 0 <= i < a ensures deps[i] == front[i] {
      assert (front + middle)[i] == front[i];
    }
    forall i | 0 <= i < b ensures deps[a + i] == middle[i] {
      assert (front + middle)[a + i] == middle[i];
    }
    forall i | 0 <= i < |back| ensures deps[a + b + i] == back[i] {
    }
  }

  function TemplateDeps(trs: seq<TemplateResource>): (deps: seq<Dep>)
    ensures |deps| == |trs| && forall i :: 0 <= i < |trs| ==> deps[i] == Dep(trs[i].name, trs[i].kind)
  {
    seq(|trs|, i requires 0 <= i < |trs| => Dep(trs[i].name, trs[i].kind))
  }

  function KindedDeps(names: seq<Yaml>, kind: string): (deps: seq<Dep>)
    ensures |deps| == |names| && forall i :: 0 <= i < |names| ==> deps[i] == Dep(names[i], Str(kind))
  {
    seq(|names|, i requires 0 <= i < |names| => Dep(names[i], Str(kind)))
  }

  /** ServiceTemplate(template_yaml): one template dependency when
      spec.resources.localSourceRef is truthy, none otherwise. */
  function ServiceTemplateOf(templateYaml: Yaml): Resource {
    var localRef := DeepGetPath(templateYaml, LocalSourceRefKeys, Null);
    ServiceTemplate(
      DeepGetPath(templateYaml, NameKeys, Str("")),
      if Truthy(localRef)
      then [TemplateResource(DeepGetPath(localRef, RefNameKeys, Str("")), DeepGetPath(localRef, RefKindKeys, Str("")))]
      else [])
  }

  /** A ServiceTemplate is named by metadata.name and depends on its local
      source reference, if it has one. */
  lemma ServiceTemplateShape(templateYaml: Yaml)
    ensures var r := ServiceTemplateOf(templateYaml);
      && r.ServiceTemplate? && r.Name() == DeepGetPath(templateYaml, NameKeys, Str(""))
      && |r.DepsWithKinds()| == if Truthy(DeepGetPath(templateYaml, LocalSourceRefKeys, Null)) then 1 else 0
  {
  }

  method NewServiceTemplate(templateYaml: Yaml) returns (r: Resource)
    ensures r == ServiceTemplateOf(templateYaml)
  {
    ServiceTemplatePaths();
    var name := DeepGet(templateYaml, NamePath, Str(""));
    var localRef := DeepGet(templateYaml, LocalSourceRefPath, Null);
    var serviceDeps: seq<TemplateResource> := [];
    if Truthy(localRef) {
      var templateName := DeepGet(localRef, RefNamePath, Str(""));
      var templateKind := DeepGet(localRef, RefKindPath, Str(""));
      serviceDeps := serviceDeps + [TemplateResource(templateName, templateKind)];
    }
    return ServiceTemplate(name, serviceDeps);
  }

  /** service["template"] for each service in turn; the first failure is raised. */
  function TemplateNames(services: seq<Yaml>): (r: Result<seq<Yaml>, PyError>)
    decreases |services|
  {
    if services == [] then Ok([])
    else
      var prev := TemplateNames(services[..|services| - 1]);
      if prev.Err? then prev
      else
        match Subscript(services[|services| - 1], TemplateKey)
        case Err(e) => Err(e)
        case Ok(v) => Ok(prev.value + [v])
  }

  /** Once a service fails, the error is what the whole run raises. */
  lemma {:induction false} TemplateNamesSticky(services: seq<Yaml>, i: nat)
    requires i < |services| && TemplateNames(services[..i + 1]).Err?
    ensures TemplateNames(services) == TemplateNames(services[..i + 1])
    decreases |services|
  {
    if |services| > i + 1 {
      var front := services[..|services| - 1];
      assert front[..i + 1] == services[..i + 1];
      TemplateNamesSticky(front, i);
    } else {
      assert services[..i + 1] == services;
    }
  }

  /** The names are read from every service exactly when each of them is a
      mapping holding a "template" key. */
  lemma {:induction false} TemplateNamesOk(services: seq<Yaml>)
    ensures TemplateNames(services).Ok? <==>
      forall i :: 0 <= i < |services| ==> Subscript(services[i], TemplateKey).Ok?
    ensures TemplateNames(services).Ok? ==>
      |TemplateNames(services).value| == |services| &&
      forall i :: 0 <= i < |services| ==> TemplateNames(services).value[i] == Subscript(services[i], TemplateKey).value
    decreases |services|
  {
    if services != [] {
      var n := |services|;
      var front := services[..n - 1];
      TemplateNamesOk(front);
      assert forall i :: 0 <= i < n - 1 ==> front[i] == services[i];
    }
  }

  function TemplateResources(refs: seq<Yaml>): (trs: seq<TemplateResource>)
    ensures |trs| == |refs|
  {
    seq(|refs|, i requires 0 <= i < |refs| =>
      TemplateResource(DeepGetPath(refs[i], ResourceNameKeys, Str("")), DeepGetPath(refs[i], ResourceKindKeys, Str(""))))
  }

  /** MultiClusterService(mcs_yaml): spec.dependsOn, then the services'
      templates, then the template resource references; a value that cannot
      be iterated, or a service without a template, raises. */
  function MultiClusterServiceOf(mcsYaml: Yaml): Result<Resource, PyError> {
    var name := DeepGetPath(mcsYaml, NameKeys, Str(""));
    match Elements(DeepGetPath(mcsYaml, DependsOnKeys, List([])))
    case Err(e) => Err(e)
    case Ok(mcsNames) =>
      match Elements(DeepGetPath(mcsYaml, ServicesKeys, List([])))
      case Err(e) => Err(e)
      case Ok(services) =>
        match TemplateNames(services)
        case Err(e) => Err(e)
        case Ok(serviceNames) =>
          match Elements(DeepGetPath(mcsYaml, TemplateRefsKeys, List([])))
          case Err(e) => Err(e)
          case Ok(refs) => Ok(MultiClusterService(name, TemplateResources(refs), serviceNames, mcsNames))
  }

  method NewMultiClusterService(mcsYaml: Yaml) returns (r: Result<Resource, PyError>)
    ensures r == MultiClusterServiceOf(mcsYaml)
  {
    MultiClusterServicePaths();
    var name := DeepGet(mcsYaml, NamePath, Str(""));

    var depsMcs := DeepGet(mcsYaml, DependsOnPath, List([]));
    var mcsElements := Elements(depsMcs);
    if mcsElements.Err? {
      return Err(mcsElements.error);
    }
    var depsMcsNames := CollectNames(mcsElements.value);

    var services := DeepGet(mcsYaml, ServicesPath, List([]));
    var serviceElements := Elements(services);
    if serviceElements.Err? {
      return Err(serviceElements.error);
    }
    var depsServiceNames := CollectTemplateNames(serviceElements.value);
    if depsServiceNames.Err? {
      return Err(depsServiceNames.error);
    }

    var templateRefs := DeepGet(mcsYaml, TemplateRefsPath, List([]));
    var refElements := Elements(templateRefs);
    if refElements.Err? {
      return Err(refElements.error);
    }
    var depsTemplateResources := CollectTemplateResources(refElements.value);
    return Ok(MultiClusterService(name, depsTemplateResources, depsServiceNames.value, depsMcsNames));
  }

  /** The dependsOn loop: every entry, in order. */
  method CollectNames(names: seq<Yaml>) returns (collected: seq<Yaml>)
    ensures collected == names
  {
    collected := [];
    for i := 0 to |names|
      invariant collected == names[..i]
    {
      collected := collected + [names[i]];
    }
    assert names[..|names|] == names;
  }

  /** The services loop: service["template"] of each, stopping at the first failure. */
  method CollectTemplateNames(services: seq<Yaml>) returns (r: Result<seq<Yaml>, PyError>)
    ensures r == TemplateNames(services)
  {
    var names: seq<Yaml> := [];
    for i := 0 to |services|
      invariant TemplateNames(services[..i]) == Ok(names)
    {
      assert services[..i + 1][..i] == services[..i];
      var template := Subscript(services[i], TemplateKey);
      if template.Err? {
        TemplateNamesSticky(services, i);
        return Err(template.error);
      }
      names := names + [template.value];
    }
    assert services[..|services|] == services;
    return Ok(names);
  }

  /** The templateResourceRefs loop: resource.name and resource.kind of each reference. */
  method CollectTemplateResources(refs: seq<Yaml>) returns (trs: seq<TemplateResource>)
    ensures trs == TemplateResources(refs)
  {
    TemplateResourcePaths();
    trs := [];
    for i := 0 to |refs|
      invariant |trs| == i
      invariant forall j :: 0 <= j < i ==> trs[j] == TemplateResources(refs)[j]
    {
      var templateName := DeepGet(refs[i], ResourceNamePath, Str(""));
      var templateKind := DeepGet(refs[i], ResourceKindPath, Str(""));
      trs := trs + [TemplateResource(templateName, templateKind)];
    }
  }

  /** A MultiClusterService is built exactly when its three lists can be
      iterated and every service names a template. */
  lemma MultiClusterServiceOk(mcsYaml: Yaml)
    ensures var dependsOn := Elements(DeepGetPath(mcsYaml, DependsOnKeys, List([])));
      var services := Elements(DeepGetPath(mcsYaml, ServicesKeys, List([])));
      var refs := Elements(DeepGetPath(mcsYaml, TemplateRefsKeys, List([])));
      MultiClusterServiceOf(mcsYaml).Ok? <==>
        && dependsOn.Ok? && services.Ok? && refs.Ok?
        && forall i :: 0 <= i < |services.value| ==> Subscript(services.value[i], TemplateKey).Ok?
  {
    var services := Elements(DeepGetPath(mcsYaml, ServicesKeys, List([])));
    if services.Ok? {
      TemplateNamesOk(services.value);
    }
  }

  /** A MultiClusterService that is built has one dependency per service, per
      template resource reference and per dependsOn entry. */
  lemma MultiClusterServiceDeps(mcsYaml: Yaml)
    requires MultiClusterServiceOf(mcsYaml).Ok?
    ensures var r := MultiClusterServiceOf(mcsYaml).value;
      && r.Name() == DeepGetPath(mcsYaml, NameKeys, Str(""))
      && |r.DepsWithKinds()| ==
           |Elements(DeepGetPath(mcsYaml, ServicesKeys, List([]))).value| +
           |Elements(DeepGetPath(mcsYaml, TemplateRefsKeys, List([]))).value| +
           |Elements(DeepGetPath(mcsYaml, DependsOnKeys, List([]))).value|
  {
    var services := Elements(DeepGetPath(mcsYaml, ServicesKeys, List([])));
    TemplateNamesOk(services.value);
    MultiClusterServiceLayout(MultiClusterServiceOf(mcsYaml).value);
  }

  // ---------------------------------------------------------------------------
  // DiagramGenerator.clean_template_placeholders: re.sub of \{\{\s*.(.*?)\s*\}\}
  // by its group. The first \s* backtracks from its longest run, `.` and the
  // lazy group take anything but a newline, and the group grows one character
  // at a time until whitespace and "}}" follow.

  /** Python's \s on str patterns: the characters str.isspace accepts. */
  predicate IsSpace(c: char) {
    || c == ' ' || ('\t' <= c <= '\r') || ('\U{1C}' <= c <= '\U{1F}')
    || c == '\U{85}' || c == '\U{A0}' || c == '\U{1680}' || ('\U{2000}' <= c <= '\U{200A}')
    || c == '\U{2028}' || c == '\U{2029}' || c == '\U{202F}' || c == '\U{205F}' || c == '\U{3000}'
  }

  /** The length of the whitespace run starting at `r`. */
  function SpaceRun(s: string, r: nat): (k: nat)
    requires r <= |s|
    ensures r + k <= |s|
    ensures forall j :: r <= j < r + k ==> IsSpace(s[j])
    ensures r + k == |s| || !IsSpace(s[r + k])
    decreases |s| - r
  {
    if r < |s| && IsSpace(s[r]) then 1 + SpaceRun(s, r + 1) else 0
  }

  /** \s*\}\} matches at `r`. A shorter run than the longest cannot help,
      since "}" is not whitespace. */
  predicate ClosesAt(s: string, r: nat)
    requires r <= |s|
  {
    var e := r + SpaceRun(s, r);
    e + 2 <= |s| && s[e] == '}' && s[e + 1] == '}'
  }

  /** Where the lazy group ending at or after `r` stops, if it can. */
  function LazyGroupEnd(s: string, r: nat): (e: Option<nat>)
    requires r <= |s|
    ensures e.Some? ==> r <= e.value <= |s| && ClosesAt(s, e.value)
    decreases |s| - r
  {
    if ClosesAt(s, r) then Some(r)
    else if r < |s| && s[r] != '\n' then LazyGroupEnd(s, r + 1)
    else None
  }

  /** A match at `p`: the first \s* took `lead` characters and the group ends at `close`. */
  datatype Match = Match(lead: nat, close: nat)

  /** The regex matches at `p` with that split: an independent definition of
      a match, with no preference between splits. */
  predicate Shape(s: string, p: nat, lead: nat, close: nat) {
    && p + 3 + lead <= close <= |s|
    && s[p] == '{' && s[p + 1] == '{'
    && (forall j :: p + 2 <= j < p + 2 + lead ==> IsSpace(s[j]))
    && (forall j :: p + 2 + lead <= j < close ==> s[j] != '\n')
    && ClosesAt(s, close)
  }

  /** The search with the first \s* taking `lead` characters, then fewer. */
  function MatchWithLead(s: string, p: nat, lead: nat): (m: Option<Match>)
    requires p + 2 <= |s| && s[p] == '{' && s[p + 1] == '{' && lead <= SpaceRun(s, p + 2)
    decreases lead
  {
    var q := p + 2 + lead;
    var close := if q < |s| && s[q] != '\n' then LazyGroupEnd(s, q + 1) else None;
    if close.Some? then Some(Match(lead, close.value))
    else if lead == 0 then None
    else MatchWithLead(s, p, lead - 1)
  }

  /** The regex tried at `p`. */
  function MatchAt(s: string, p: nat): (m: Option<Match>)
    requires p <= |s|
  {
    if p + 2 <= |s| && s[p] == '{' && s[p + 1] == '{' then MatchWithLead(s, p, SpaceRun(s, p + 2))
    else None
  }

  /** Where the matched text ends. */
  function MatchEnd(s: string, m: Match): nat
    requires m.close <= |s|
  {
    m.close + SpaceRun(s, m.close) + 2
  }

  /** Every match found has the regex's shape. */
  lemma {:induction false} MatchWithLeadSound(s: string, p: nat, lead: nat)
    requires p + 2 <= |s| && s[p] == '{' && s[p + 1] == '{' && lead <= SpaceRun(s, p + 2)
    ensures var m := MatchWithLead(s, p, lead);
      m.Some? ==> m.value.lead <= lead && Shape(s, p, m.value.lead, m.value.close)
    decreases lead
  {
    var q := p + 2 + lead;
    if q < |s| && s[q] != '\n' && LazyGroupEnd(s, q + 1).Some? {
      LeadTaken(s, p, lead);
      TakenShape(s, p, lead);
    } else if lead > 0 {
      LeadGivenBack(s, p, lead);
      MatchWithLeadSound(s, p, lead - 1);
    }
  }

  /** The split with `lead` taken and the lazy group's end has the regex's shape. */
  lemma TakenShape(s: string, p: nat, lead: nat)
    requires p + 2 <= |s| && s[p] == '{' && s[p + 1] == '{' && lead <= SpaceRun(s, p + 2)
    requires p + 2 + lead < |s| && s[p + 2 + lead] != '\n' && LazyGroupEnd(s, p + 3 + lead).Some?
    ensures Shape(s, p, lead, LazyGroupEnd(s, p + 3 + lead).value)
  {
    LazyGroupEndClean(s, p + 3 + lead);
    ShapeIntro(s, p, lead, LazyGroupEnd(s, p + 3 + lead).value);
  }

  lemma ShapeIntro(s: string, p: nat, lead: nat, close: nat)
    requires p + 2 <= |s| && s[p] == '{' && s[p + 1] == '{' && lead <= SpaceRun(s, p + 2)
    requires p + 2 + lead < close <= |s| && s[p + 2 + lead] != '\n' && ClosesAt(s, close)
    requires forall j :: p + 3 + lead <= j < close ==> s[j] != '\n'
    ensures Shape(s, p, lead, close)
  {
  }

  /** The lazy group crosses no newline. */
  lemma {:induction false} LazyGroupEndClean(s: string, r: nat)
    requires r <= |s| && LazyGroupEnd(s, r).Some?
    ensures forall j :: r <= j < LazyGroupEnd(s, r).value ==> s[j] != '\n'
    decreases |s| - r
  {
    if !ClosesAt(s, r) {
      LazyGroupEndClean(s, r + 1);
    }
  }

  /** The lazy group stops at the first place it can: no later than any end
      reachable without crossing a newline. */
  lemma {:induction false} LazyGroupEndFirst(s: string, r: nat, close: nat)
    requires r <= close <= |s| && ClosesAt(s, close)
    requires forall j :: r <= j < close ==> s[j] != '\n'
    ensures LazyGroupEnd(s, r).Some? && LazyGroupEnd(s, r).value <= close
    decreases close - r
  {
    if !ClosesAt(s, r) {
      LazyGroupEndFirst(s, r + 1, close);
    }
  }

  /** Any shaped split with a lead no longer than `lead` is found, and the
      search prefers the longest lead, then the shortest group. */
  lemma {:induction false} MatchWithLeadComplete(s: string, p: nat, lead: nat, a: nat, close: nat)
    requires p + 2 <= |s| && s[p] == '{' && s[p + 1] == '{' && lead <= SpaceRun(s, p + 2)
    requires a <= lead && Shape(s, p, a, close)
    ensures var m := MatchWithLead(s, p, lead);
      m.Some? && a <= m.value.lead && (m.value.lead == a ==> m.value.close <= close)
    decreases lead
  {
    var q := p + 2 + lead;
    if lead == a {
      ShapeFound(s, p, a, close);
    } else if q < |s| && s[q] != '\n' && LazyGroupEnd(s, q + 1).Some? {
      LeadTaken(s, p, lead);
    } else {
      LeadGivenBack(s, p, lead);
      MatchWithLeadComplete(s, p, lead - 1, a, close);
    }
  }

  /** A shaped split is found when the search reaches its lead, with the
      earliest end. */
  lemma ShapeFound(s: string, p: nat, a: nat, close: nat)
    requires p + 2 <= |s| && s[p] == '{' && s[p + 1] == '{' && a <= SpaceRun(s, p + 2)
    requires Shape(s, p, a, close)
    ensures var m := MatchWithLead(s, p, a);
      m.Some? && m.value.lead == a && m.value.close <= close
  {
    var q := p + 2 + a;
    assert s[q] != '\n';
    LazyGroupEndFirst(s, q + 1, close);
    LeadTaken(s, p, a);
  }

  lemma LeadTaken(s: string, p: nat, lead: nat)
    requires p + 2 <= |s| && s[p] == '{' && s[p + 1] == '{' && lead <= SpaceRun(s, p + 2)
    requires p + 2 + lead < |s| && s[p + 2 + lead] != '\n' && LazyGroupEnd(s, p + 3 + lead).Some?
    ensures MatchWithLead(s, p, lead) == Some(Match(lead, LazyGroupEnd(s, p + 3 + lead).value))
  {
  }

  lemma LeadGivenBack(s: string, p: nat, lead: nat)
    requires p + 2 <= |s| && s[p] == '{' && s[p + 1] == '{' && 0 < lead <= SpaceRun(s, p + 2)
    requires !(p + 2 + lead < |s| && s[p + 2 + lead] != '\n' && LazyGroupEnd(s, p + 3 + lead).Some?)
    ensures MatchWithLead(s, p, lead) == MatchWithLead(s, p, lead - 1)
  {
  }

  /** re.search at `p` succeeds exactly when some split has the regex's shape;
      the one it takes has the longest lead and, for it, the shortest group. */
  lemma MatchAtExactly(s: string, p: nat)
    requires p <= |s|
    ensures MatchAt(s, p).Some? ==> Shape(s, p, MatchAt(s, p).value.lead, MatchAt(s, p).value.close)
    ensures forall a: nat, close: nat :: Shape(s, p, a, close) ==>
      MatchAt(s, p).Some? &&
      (a < MatchAt(s, p).value.lead || (a == MatchAt(s, p).value.lead && MatchAt(s, p).value.close <= close))
  {
    if p + 2 <= |s| && s[p] == '{' && s[p + 1] == '{' {
      MatchWithLeadSound(s, p, SpaceRun(s, p + 2));
      forall a: nat, close: nat | Shape(s, p, a, close)
        ensures MatchAt(s, p).Some? &&
          (a < MatchAt(s, p).value.lead || (a == MatchAt(s, p).value.lead && MatchAt(s, p).value.close <= close))
      {
        SpaceRunCovers(s, p + 2, a);
        MatchWithLeadComplete(s, p, SpaceRun(s, p + 2), a, close);
      }
    }
  }

  /** A run of `k` whitespace characters is no longer than the longest run. */
  lemma {:induction false} SpaceRunCovers(s: string, r: nat, k: nat)
    requires r + k <= |s| && forall j :: r <= j < r + k ==> IsSpace(s[j])
    ensures k <= SpaceRun(s, r)
    decreases k
  {
    if k > 0 {
      SpaceRunCovers(s, r + 1, k - 1);
    }
  }

  /** "}}" after exactly `k` whitespace characters is what ClosesAt asks. */
  lemma SpaceThenBraces(s: string, r: nat, k: nat)
    requires r + k + 2 <= |s| && s[r + k] == '}' && s[r + k + 1] == '}'
    requires forall j :: r <= j < r + k ==> IsSpace(s[j])
    ensures SpaceRun(s, r) == k && ClosesAt(s, r)
  {
    SpaceRunCovers(s, r, k);
    assert !IsSpace(s[r + k]);
  }

  /** The cleaned rest of `s` from `p`: each match gives way to its group. */
  function CleanFrom(s: string, p: nat): string
    requires p <= |s|
    decreases |s| - p
  {
    if p == |s| then []
    else
      match MatchAt(s, p)
      case Some(m) =>
        MatchWithLeadSound(s, p, SpaceRun(s, p + 2));
        s[p + 3 + m.lead..m.close] + CleanFrom(s, MatchEnd(s, m))
      case None => [s[p]] + CleanFrom(s, p + 1)
  }

  /** clean_template_placeholders: re.sub of the placeholder pattern by its
      captured inner text, left to right. */
  function CleanTemplatePlaceholders(name: string): (r: string)
    ensures |r| <= |name|
    ensures !Contains(name, "{{") ==> r == name
  {
    CleanShrinks(name, 0);
    if Contains(name, "{{") then CleanFrom(name, 0)
    else
      CleanWithoutBraces(name, 0);
      CleanFrom(name, 0)
  }

  /** A name holding no "{{" is left as it is. */
  lemma {:induction false} CleanWithoutBraces(s: string, p: nat)
    requires p <= |s| && !Contains(s, "{{")
    ensures CleanFrom(s, p) == s[p..]
    decreases |s| - p
  {
    if p < |s| {
      if p + 2 <= |s| && s[p] == '{' && s[p + 1] == '{' {
        assert s[p..p + 2] == "{{";
        ContainsAt(s, "{{", p);
        assert false;
      }
      assert MatchAt(s, p).None?;
      assert CleanFrom(s, p) == [s[p]] + CleanFrom(s, p + 1);
      CleanWithoutBraces(s, p + 1);
      assert s[p..] == [s[p]] + s[p + 1..];
    }
  }

  /** Cleaning never lengthens: each match is at least five characters
      longer than its group. */
  lemma {:induction false} CleanShrinks(s: string, p: nat)
    requires p <= |s|
    ensures |CleanFrom(s, p)| <= |s| - p
    decreases |s| - p
  {
    if p < |s| {
      match MatchAt(s, p)
      case Some(m) =>
        MatchWithLeadSound(s, p, SpaceRun(s, p + 2));
        var e := MatchEnd(s, m);
        CleanShrinks(s, e);
        assert |CleanFrom(s, p)| == m.close - (p + 3 + m.lead) + |CleanFrom(s, e)|;
      case None =>
        CleanShrinks(s, p + 1);
        assert |CleanFrom(s, p)| == 1 + |CleanFrom(s, p + 1)|;
    }
  }

  // ---------------------------------------------------------------------------
  // DiagramGenerator.get_node_label

  /** The Mermaid node `name/kind["name (kind)"]`. */
  function Label(name: string, kind: string): (l: string)
    ensures |l| == 2 * (|name| + |kind|) + 8
    ensures l[..|name|] == name && l[|name|] == '/'
  {
    name + "/" + kind + "[\"" + name + " (" + kind + ")\"]"
  }

  /** get_node_label: both parts cleaned first; re.sub raises TypeError on a
      value that is not a string. */
  function NodeLabel(name: Yaml, kind: Yaml): (r: Result<string, PyError>)
    ensures r.Ok? <==> name.Str? && kind.Str?
    ensures r.Err? ==> r.error == TypeError
    ensures r.Ok? ==> r.value == Label(CleanTemplatePlaceholders(name.s), CleanTemplatePlaceholders(kind.s))
  {
    if !name.Str? || !kind.Str? then Err(TypeError)
    else Ok(Label(CleanTemplatePlaceholders(name.s), CleanTemplatePlaceholders(kind.s)))
  }

  /** Where the parts of a node sit: the name, '/', the kind, then from
      offset |name| + |kind| + 3 the name again and ' '. */
  lemma LabelChars(name: string, kind: string)
    ensures var l := Label(name, kind);
      var o := |name| + |kind| + 3;
      && |l| == 2 * (|name| + |kind|) + 8
      && (forall i :: 0 <= i < |name| ==> l[i] == name[i] && l[o + i] == name[i])
      && l[|name|] == '/' && l[o + |name|] == ' '
      && (forall i :: 0 <= i < |kind| ==> l[|name| + 1 + i] == kind[i])
  {
    var head := name + "/" + kind + "[\"";
    var tail := name + " (" + kind + ")\"]";
    assert Label(name, kind) == head + tail;
    assert |head| == |name| + |kind| + 3;
    assert head[|name|] == '/' && tail[|name|] == ' ';
  }

  /** The i-th letter of the name, at both places the name is written. */
  lemma NameInLabel(name: string, kind: string, i: int)
    ensures var l := Label(name, kind);
      && |l| == 2 * (|name| + |kind|) + 8
      && (0 <= i < |name| ==> l[i] == name[i] && l[|name| + |kind| + 3 + i] == name[i])
  {
    LabelChars(name, kind);
  }

  /** Distinct cleaned (name, kind) pairs give distinct nodes: the '/' after
      the first name and the ' ' after the second cannot both be a letter of
      a longer name. */
  lemma LabelInjective(a: string, b: string, c: string, d: string)
    requires Label(a, b) == Label(c, d)
    ensures a == c && b == d
  {
    if |a| < |c| {
      ShorterNameClashes(a, b, c, d);
      assert false;
    } else if |c| < |a| {
      ShorterNameClashes(c, d, a, b);
      assert false;
    } else {
      SameLengthNamesAgree(a, b, c, d);
    }
  }

  /** With a shorter first name, the label has '/' and ' ' where the other
      label has the same letter of the longer name twice. */
  lemma ShorterNameClashes(a: string, b: string, c: string, d: string)
    ensures |a| < |c| ==> Label(a, b) != Label(c, d)
  {
    if |a| < |c| && |a| + |b| == |c| + |d| {
      var l1, l2 := Label(a, b), Label(c, d);
      var o := |a| + |b| + 3;
      LabelChars(a, b);
      NameInLabel(c, d, |a|);
      assert l1[|a|] == '/' && l1[o + |a|] == ' ';
      assert l2[|a|] == l2[o + |a|];
      assert l1[|a|] != l2[|a|] || l1[o + |a|] != l2[o + |a|];
    } else if |a| < |c| {
      LabelChars(a, b);
      LabelChars(c, d);
    }
  }

  lemma SameLengthNamesAgree(a: string, b: string, c: string, d: string)
    requires |a| == |c| && Label(a, b) == Label(c, d)
    ensures a == c && b == d
  {
    var l := Label(a, b);
    LabelChars(a, b);
    LabelChars(c, d);
    forall i | 0 <= i < |a| ensures a[i] == c[i] {
      assert a[i] == l[i];
    }
    forall i | 0 <= i < |b| ensures b[i] == d[i] {
      assert b[i] == l[|a| + 1 + i];
    }
  }

  // ---------------------------------------------------------------------------
  // DiagramGenerator.generate_diagram

  const MermaidOpen := "```mermaid\n"
  const GraphHeader := "graph TD\n"
  const Fence := "```"

  const EdgeIndent := "    "
  const Arrow := " --> "
  const Newline := "\n"

  function Edge(from: string, to: string): string {
    EdgeIndent + from + Arrow + to + Newline
  }

  /** Lines written one after another. */
  function Lines(ls: seq<string>): string
    decreases |ls|
  {
    if ls == [] then "" else Lines(ls[..|ls| - 1]) + ls[|ls| - 1]
  }

  /** The strings passed to f.write, in order, and the exception that stopped
      generate_diagram, if any. */
  datatype Written = Written(writes: seq<string>, err: Option<PyError>) {
    /** What the output file holds once the `with` block closes it. */
    function Text(): string {
      Lines(writes)
    }
  }

  /** The edges from one node toward `deps`; the first dependency that cannot
      be labelled stops the writing. */
  function DepEdges(from: string, deps: seq<Dep>): Written
    decreases |deps|
  {
    if deps == [] then Written([], None)
    else
      var prev := DepEdges(from, deps[..|deps| - 1]);
      if prev.err.Some? then prev
      else
        match NodeLabel(deps[|deps| - 1].name, deps[|deps| - 1].kind)
        case Err(e) => Written(prev.writes, Some(e))
        case Ok(to) => Written(prev.writes + [Edge(from, to)], None)
  }

  function ResourceEdges(r: Resource): Written {
    match NodeLabel(r.Name(), r.Kind())
    case Err(e) => Written([], Some(e))
    case Ok(from) => DepEdges(from, r.DepsWithKinds())
  }

  function EdgeWrites(rs: seq<Resource>): Written
    decreases |rs|
  {
    if rs == [] then Written([], None)
    else
      var prev := EdgeWrites(rs[..|rs| - 1]);
      if prev.err.Some? then prev
      else
        var w := ResourceEdges(rs[|rs| - 1]);
        Written(prev.writes + w.writes, w.err)
  }

  /** The opening fence and graph header, the edges, and the closing fence
      unless an exception stopped the writing first. */
  function DiagramOf(rs: seq<Resource>): Written {
    var body := EdgeWrites(rs);
    if body.err.None? then Written([MermaidOpen, GraphHeader] + body.writes + [Fence], None)
    else Written([MermaidOpen, GraphHeader] + body.writes, body.err)
  }

  /** generate_diagram. The opening fence and the graph header are written
      first; `body` holds the writes that have followed them. */
  method GenerateDiagram(resources: seq<Resource>) returns (w: Written)
    ensures w == DiagramOf(resources)
  {
    var body := [];
    for i := 0 to |resources|
      invariant EdgeWrites(resources[..i]) == Written(body, None)
    {
      assert resources[..i + 1][..i] == resources[..i];
      var written := WriteResource(resources[i]);
      body := body + written.writes;
      if written.err.Some? {
        EdgeWritesSticky(resources, i);
        return Written([MermaidOpen, GraphHeader] + body, written.err);
      }
    }
    assert resources[..|resources|] == resources;
    return Written([MermaidOpen, GraphHeader] + body + [Fence], None);
  }

  /** The body of the loop over resources: the resource's node, then one edge
      per dependency. */
  method WriteResource(resource: Resource) returns (w: Written)
    ensures w == ResourceEdges(resource)
  {
    var from := NodeLabel(resource.Name(), resource.Kind());
    if from.Err? {
      return Written([], Some(from.error));
    }
    w := WriteDepEdges(from.value, resource.DepsWithKinds());
  }

  /** The inner loop over deps_with_kinds. */
  method WriteDepEdges(from: string, deps: seq<Dep>) returns (w: Written)
    ensures w == DepEdges(from, deps)
  {
    var writes := [];
    for j := 0 to |deps|
      invariant DepEdges(from, deps[..j]) == Written(writes, None)
    {
      assert deps[..j + 1][..j] == deps[..j];
      var to := NodeLabel(deps[j].name, deps[j].kind);
      if to.Err? {
        DepEdgesSticky(from, deps, j);
        return Written(writes, Some(to.error));
      }
      writes := writes + [Edge(from, to.value)];
    }
    assert deps[..|deps|] == deps;
    return Written(writes, None);
  }

  /** Once a dependency fails, nothing after it is written. */
  lemma {:induction false} DepEdgesSticky(from: string, deps: seq<Dep>, j: nat)
    requires j < |deps| && DepEdges(from, deps[..j + 1]).err.Some?
    ensures DepEdges(from, deps) == DepEdges(from, deps[..j + 1])
    decreases |deps|
  {
    if |deps| > j + 1 {
      var front := deps[..|deps| - 1];
      assert front[..j + 1] == deps[..j + 1];
      DepEdgesSticky(from, front, j);
    } else {
      assert deps[..j + 1] == deps;
    }
  }

  /** Once a resource fails, nothing after it is written. */
  lemma {:induction false} EdgeWritesSticky(rs: seq<Resource>, i: nat)
    requires i < |rs| && EdgeWrites(rs[..i + 1]).err.Some?
    ensures EdgeWrites(rs) == EdgeWrites(rs[..i + 1])
    decreases |rs|
  {
    if |rs| > i + 1 {
      var front := rs[..|rs| - 1];
      assert front[..i + 1] == rs[..i + 1];
      EdgeWritesSticky(front, i);
    } else {
      assert rs[..i + 1] == rs;
    }
  }

  /** A dependency whose name and kind are both strings can be labelled. */
  predicate Labelled(d: Dep) {
    d.name.Str? && d.kind.Str?
  }

  predicate Drawable(r: Resource) {
    && r.Name().Str? && r.Kind().Str?
    && forall j :: 0 <= j < |r.DepsWithKinds()| ==> Labelled(r.DepsWithKinds()[j])
  }

  function DepNode(d: Dep): string
    requires Labelled(d)
  {
    Label(CleanTemplatePlaceholders(d.name.s), CleanTemplatePlaceholders(d.kind.s))
  }


  /** The edge lines from one node: one per dependency, in order. */
  function DepLines(from: string, deps: seq<Dep>): (ls: seq<string>)
    requires forall j :: 0 <= j < |deps| ==> Labelled(deps[j])
    ensures |ls| == |deps|
  {
    seq(|deps|, j requires 0 <= j < |deps| => Edge(from, DepNode(deps[j])))
  }

  /** The edges from a node are all written exactly when every dependency can
      be labelled; otherwise the exception is a TypeError. */
  lemma {:induction false} DepEdgesOk(from: string, deps: seq<Dep>)
    ensures DepEdges(from, deps).err.None? <==> forall j :: 0 <= j < |deps| ==> Labelled(deps[j])
    ensures DepEdges(from, deps).err.Some? ==> DepEdges(from, deps).err == Some(TypeError)
    decreases |deps|
  {
    if deps != [] {
      var n := |deps|;
      var front := deps[..n - 1];
      DepEdgesOk(from, front);
      if DepEdges(from, front).err.Some? {
        assert DepEdges(from, deps) == DepEdges(from, front);
        var j :| 0 <= j < n - 1 && !Labelled(front[j]);
        assert front[j] == deps[j];
      } else if Labelled(deps[n - 1]) {
        assert DepEdges(from, deps).err.None?;
        forall j | 0 <= j < n
          ensures Labelled(deps[j])
        {
          if j < n - 1 {
            assert front[j] == deps[j];
          }
        }
      } else {
        assert DepEdges(from, deps).err == Some(TypeError);
      }
    }
  }

  /** When every dependency can be labelled, the writes are the dependency
      lines. */
  lemma {:induction false} DepEdgesLines(from: string, deps: seq<Dep>)
    requires forall j :: 0 <= j < |deps| ==> Labelled(deps[j])
    ensures DepEdges(from, deps) == Written(DepLines(from, deps), None)
    decreases |deps|
  {
    if deps != [] {
      var n := |deps|;
      var front, last := deps[..n - 1], deps[n - 1];
      assert forall j :: 0 <= j < n - 1 ==> front[j] == deps[j];
      DepEdgesLines(from, front);
      assert NodeLabel(last.name, last.kind) == Ok(DepNode(last));
      assert deps == front + [last];
      DepLinesSnoc(from, front, last);
    }
  }

  lemma DepLinesSnoc(from: string, front: seq<Dep>, last: Dep)
    requires forall j :: 0 <= j < |front| ==> Labelled(front[j])
    requires Labelled(last)
    ensures forall j :: 0 <= j < |front + [last]| ==> Labelled((front + [last])[j])
    ensures DepLines(from, front + [last]) == DepLines(from, front) + [Edge(from, DepNode(last))]
  {
    var deps := front + [last];
    forall j | 0 <= j < |deps| ensures Labelled(deps[j]) {
      if j < |front| { assert deps[j] == front[j]; }
    }
    var a, b := DepLines(from, deps), DepLines(from, front) + [Edge(from, DepNode(last))];
    forall j | 0 <= j < |deps| ensures a[j] == b[j] {
      if j < |front| { assert deps[j] == front[j]; }
    }
  }

  /** The lines of a drawable resource. */
  function ResourceLines(r: Resource): seq<string>
    requires Drawable(r)
  {
    DepLines(Label(CleanTemplatePlaceholders(r.Name().s), CleanTemplatePlaceholders(r.Kind().s)), r.DepsWithKinds())
  }

  /** The lines of every resource, resource after resource. */
  function AllLines(rs: seq<Resource>): seq<string>
    requires forall i :: 0 <= i < |rs| ==> Drawable(rs[i])
    decreases |rs|
  {
    if rs == [] then [] else AllLines(rs[..|rs| - 1]) + ResourceLines(rs[|rs| - 1])
  }

  lemma ResourceEdgesOk(r: Resource)
    ensures ResourceEdges(r).err.None? <==> Drawable(r)
    ensures Drawable(r) ==> ResourceEdges(r) == Written(ResourceLines(r), None)
    ensures ResourceEdges(r).err.Some? ==> ResourceEdges(r).err == Some(TypeError)
  {
    if r.Name().Str? && r.Kind().Str? {
      var from := Label(CleanTemplatePlaceholders(r.Name().s), CleanTemplatePlaceholders(r.Kind().s));
      DepEdgesOk(from, r.DepsWithKinds());
      if Drawable(r) {
        DepEdgesLines(from, r.DepsWithKinds());
      }
    }
  }

  /** All edges are written exactly when every resource is drawable;
      otherwise the exception is a TypeError. */
  lemma {:induction false} EdgeWritesOk(rs: seq<Resource>)
    ensures EdgeWrites(rs).err.None? <==> forall i :: 0 <= i < |rs| ==> Drawable(rs[i])
    ensures EdgeWrites(rs).err.Some? ==> EdgeWrites(rs).err == Some(TypeError)
    decreases |rs|
  {
    if rs != [] {
      var n := |rs|;
      var front := rs[..n - 1];
      EdgeWritesOk(front);
      ResourceEdgesOk(rs[n - 1]);
      if EdgeWrites(front).err.Some? {
        assert EdgeWrites(rs) == EdgeWrites(front);
        var i :| 0 <= i < n - 1 && !Drawable(front[i]);
        assert front[i] == rs[i];
      } else {
        assert EdgeWrites(rs).err == ResourceEdges(rs[n - 1]).err;
        if Drawable(rs[n - 1]) {
          forall i | 0 <= i < n
            ensures Drawable(rs[i])
          {
            if i < n - 1 {
              assert front[i] == rs[i];
            }
          }
        }
      }
    }
  }

  /** For drawable resources the edges written are the lines of every
      resource, in order. */
  lemma {:induction false} EdgeWritesLines(rs: seq<Resource>)
    requires forall i :: 0 <= i < |rs| ==> Drawable(rs[i])
    ensures EdgeWrites(rs) == Written(AllLines(rs), None)
    decreases |rs|
  {
    if rs != [] {
      var n := |rs|;
      var front := rs[..n - 1];
      assert forall i :: 0 <= i < n - 1 ==> front[i] == rs[i];
      EdgeWritesLines(front);
      ResourceEdgesOk(rs[n - 1]);
    }
  }

  /** A diagram of drawable resources is the fenced graph of all their edges. */
  lemma DiagramOfDrawable(rs: seq<Resource>)
    requires forall i :: 0 <= i < |rs| ==> Drawable(rs[i])
    ensures DiagramOf(rs) == Written([MermaidOpen, GraphHeader] + AllLines(rs) + [Fence], None)
  {
    EdgeWritesLines(rs);
  }

  /** A resource that cannot be drawn makes generate_diagram raise TypeError,
      and the closing fence is never written. */
  lemma DiagramOfUndrawable(rs: seq<Resource>, i: nat)
    requires i < |rs| && !Drawable(rs[i])
    ensures DiagramOf(rs).err == Some(TypeError)
    ensures DiagramOf(rs).writes == [MermaidOpen, GraphHeader] + EdgeWrites(rs).writes
  {
    EdgeWritesOk(rs);
  }

  // ---------------------------------------------------------------------------
  // The script's main: MultiClusterServices first, then ServiceTemplates

  /** `build` applied to each document in turn; the first failure is raised. */
  function BuildAll(build: Yaml -> Result<Resource, PyError>, docs: seq<Yaml>): (r: Result<seq<Resource>, PyError>)
    ensures r.Ok? ==> |r.value| == |docs|
    decreases |docs|
  {
    if docs == [] then Ok([])
    else
      var prev := BuildAll(build, docs[..|docs| - 1]);
      if prev.Err? then prev
      else
        match build(docs[|docs| - 1])
        case Err(e) => Err(e)
        case Ok(r) => Ok(prev.value + [r])
  }

  /** MultiClusterService(mcs) for each document. */
  function MultiClusterServices(docs: seq<Yaml>): Result<seq<Resource>, PyError> {
    BuildAll(MultiClusterServiceOf, docs)
  }

  /** `build` applied to each document, for a constructor that cannot fail. */
  function BuildEach(build: Yaml -> Resource, docs: seq<Yaml>): (rs: seq<Resource>)
    ensures |rs| == |docs| && forall i :: 0 <= i < |docs| ==> rs[i] == build(docs[i])
  {
    seq(|docs|, i requires 0 <= i < |docs| => build(docs[i]))
  }

  /** ServiceTemplate(st) for each document. */
  function ServiceTemplates(docs: seq<Yaml>): seq<Resource> {
    BuildEach(ServiceTemplateOf, docs)
  }

  /** The resources handed to DiagramGenerator. */
  function ResourcesOf(docs: seq<Yaml>): Result<seq<Resource>, PyError> {
    match MultiClusterServices(FilterKind(docs, MultiClusterServiceKind))
    case Err(e) => Err(e)
    case Ok(ms) => Ok(ms + ServiceTemplates(FilterKind(docs, ServiceTemplateKind)))
  }

  method CollectResources(docs: seq<Yaml>) returns (r: Result<seq<Resource>, PyError>)
    ensures r == ResourcesOf(docs)
  {
    var multiClusterServices := ExtractKind(docs, MultiClusterServiceKind);
    var serviceTemplates := ExtractKind(docs, ServiceTemplateKind);
    var ms := CollectMultiClusterServices(multiClusterServices);
    if ms.Err? {
      return Err(ms.error);
    }
    var sts := CollectServiceTemplates(serviceTemplates);
    return Ok(ms.value + sts);
  }

  method CollectMultiClusterServices(docs: seq<Yaml>) returns (r: Result<seq<Resource>, PyError>)
    ensures r == MultiClusterServices(docs)
  {
    var resources: seq<Resource> := [];
    for i := 0 to |docs|
      invariant MultiClusterServices(docs[..i]) == Ok(resources)
    {
      assert docs[..i + 1][..i] == docs[..i];
      var mcs := NewMultiClusterService(docs[i]);
      if mcs.Err? {
        BuildAllSticky(MultiClusterServiceOf, docs, i);
        return Err(mcs.error);
      }
      resources := resources + [mcs.value];
    }
    assert docs[..|docs|] == docs;
    return Ok(resources);
  }

  method CollectServiceTemplates(docs: seq<Yaml>) returns (rs: seq<Resource>)
    ensures rs == ServiceTemplates(docs)
  {
    rs := [];
    for i := 0 to |docs|
      invariant |rs| == i
      invariant forall j :: 0 <= j < i ==> rs[j] == ServiceTemplateOf(docs[j])
    {
      var st := NewServiceTemplate(docs[i]);
      rs := rs + [st];
    }
  }

  lemma {:induction false} BuildAllSticky(build: Yaml -> Result<Resource, PyError>, docs: seq<Yaml>, i: nat)
    requires i < |docs| && BuildAll(build, docs[..i + 1]).Err?
    ensures BuildAll(build, docs) == BuildAll(build, docs[..i + 1])
    decreases |docs|
  {
    if |docs| > i + 1 {
      var front := docs[..|docs| - 1];
      assert front[..i + 1] == docs[..i + 1];
      BuildAllSticky(build, front, i);
    } else {
      assert docs[..i + 1] == docs;
    }
  }

  /** The resources are built exactly when each document builds, one
      resource per document, in order. */
  lemma {:induction false} BuildAllOk(build: Yaml -> Result<Resource, PyError>, docs: seq<Yaml>)
    ensures BuildAll(build, docs).Ok? <==> forall i :: 0 <= i < |docs| ==> build(docs[i]).Ok?
    ensures BuildAll(build, docs).Ok? ==>
      |BuildAll(build, docs).value| == |docs| &&
      forall i :: 0 <= i < |docs| ==> Ok(BuildAll(build, docs).value[i]) == build(docs[i])
    decreases |docs|
  {
    if docs != [] {
      var n := |docs|;
      var front := docs[..n - 1];
      BuildAllOk(build, front);
      assert forall i :: 0 <= i < n - 1 ==> front[i] == docs[i];
    }
  }

  /** The MultiClusterServices come first, one per document of that kind, and
      the ServiceTemplates fill the rest. */
  lemma ResourcesOfMultiClusterServices(docs: seq<Yaml>)
    requires ResourcesOf(docs).Ok?
    ensures var ms := FilterKind(docs, MultiClusterServiceKind);
      var rs := ResourcesOf(docs).value;
      && |rs| == |ms| + |FilterKind(docs, ServiceTemplateKind)|
      && forall i :: 0 <= i < |ms| ==> Ok(rs[i]) == MultiClusterServiceOf(ms[i])
  {
    BuildAllOk(MultiClusterServiceOf, FilterKind(docs, MultiClusterServiceKind));
  }

  /** After the MultiClusterServices, one ServiceTemplate per document of that
      kind, in order. */
  lemma ResourcesOfServiceTemplates(docs: seq<Yaml>)
    requires ResourcesOf(docs).Ok?
    ensures var ms := FilterKind(docs, MultiClusterServiceKind);
      var rs := ResourcesOf(docs).value;
      |ms| <= |rs| && rs[|ms|..] == ServiceTemplates(FilterKind(docs, ServiceTemplateKind))
  {
    var built := MultiClusterServices(FilterKind(docs, MultiClusterServiceKind)).value;
    var tail := ServiceTemplates(FilterKind(docs, ServiceTemplateKind));
    assert ResourcesOf(docs).value == built + tail;
    assert (built + tail)[|built|..] == tail;
  }
}
