/**
 * The compose parser: container ports from `ports`/`expose` declarations,
 * `Service` records from a parsed compose document, the default domain, and
 * the merge of `compose.lcp.yaml` override files into services that have no
 * route yet. Reading and YAML-decoding the files is left to the caller: a
 * compose document arrives already parsed, and the override files that exist
 * and parse arrive as a map from their path to their document.
 */
module Parser {
  import opened Wrappers
  import opened Text
  import opened Ordering
  import opened Model
  import opened Labels

  const LcpFileName: string := "compose.lcp.yaml"
  const UnknownProject: string := "unknown"

  /**
   * `extract_container_port`: an integer is taken if it fits a u16; a string is
   * cut at its first `/`, then its last `:`-segment is cut at its first `-`,
   * trimmed and parsed; a mapping resolves through its `target` entry.
   */
  function ExtractContainerPort(v: Yaml): (r: Option<U16>)
    ensures v.YInt? ==> (r.Some? <==> 0 <= v.i <= 65535) && (r.Some? ==> r.value == v.i)
    ensures !(v.YInt? || v.YStr? || v.YMap?) ==> r.None?
    ensures v.YMap? && Lookup(v.entries, YStr("target")).None? ==> r.None?
    ensures v.YMap? && Lookup(v.entries, YStr("target")).Some? ==>
      r == ExtractContainerPort(Lookup(v.entries, YStr("target")).value)
  {
    match v
    case YInt(i) => if 0 <= i <= 65535 then Some(i) else None
    case YStr(s) => StringPort(s)
    case YMap(entries) =>
      (match Lookup(entries, YStr("target"))
       case Some(target) => ExtractContainerPort(target)
       case None => None)
    case _ => None
  }

  /**
   * The string form: everything from the first `/` on is the protocol, the text
   * after the last `:` is the container part, and its text before the first `-`
   * is the port (the start of a range).
   */
  function StringPort(s: string): Option<U16> {
    var beforeProto := BeforeFirst(s, '/');
    var containerPart := AfterLast(beforeProto, ':');
    var portStr := BeforeFirst(containerPart, '-');
    ParseU16(Trim(portStr))
  }

  /** The decimal digits of a port hold none of the separators and no whitespace. */
  lemma DecimalAvoidsSeparators(dec: string)
    requires AllDigits(dec)
    ensures '/' !in dec && ':' !in dec && '-' !in dec
    ensures forall i :: 0 <= i < |dec| ==> !IsWhitespace(dec[i])
  {
  }

  /**
   * The string forms of a port: an optional `[ip:]host:` prefix, the container
   * port, an optional `-end` range and an optional `/proto` suffix all give the
   * container port (the start of the range).
   */
  lemma StringPortForm(prefix: string, port: U16, range: string, proto: string)
    requires '/' !in prefix && (|prefix| == 0 || prefix[|prefix| - 1] == ':')
    requires ':' !in range && '/' !in range && (|range| == 0 || range[0] == '-')
    requires |proto| == 0 || proto[0] == '/'
    ensures ExtractContainerPort(YStr(prefix + ToDecimal(port) + range + proto)) == Some(port)
  {
    var dec := ToDecimal(port);
    DecimalAvoidsSeparators(dec);
    StringPortOf(prefix, dec, range, proto);
    TrimNoWhitespace(dec);
    ParseU16RoundTrip(port);
  }

  lemma StringPortOf(prefix: string, dec: string, range: string, proto: string)
    requires '/' !in prefix && (|prefix| == 0 || prefix[|prefix| - 1] == ':')
    requires ':' !in range && '/' !in range && (|range| == 0 || range[0] == '-')
    requires |proto| == 0 || proto[0] == '/'
    requires '/' !in dec && ':' !in dec && '-' !in dec
    ensures StringPort(prefix + dec + range + proto) == ParseU16(Trim(dec))
  {
    var tail := dec + range;
    NotInConcat(dec, range, ':');
    NotInConcat(dec, range, '/');
    NotInConcat(prefix, tail, '/');
    var head := prefix + tail;
    assert prefix + dec + range + proto == head + proto;
    BeforeFirstOfPrefix(head, proto, '/');
    AfterLastOfSuffix(prefix, tail, ':');
    BeforeFirstOfPrefix(dec, range, '-');
  }

  lemma NotInConcat(a: string, b: string, c: char)
    requires c !in a && c !in b
    ensures c !in a + b
  {
  }

  /** A long-form mapping `{target: N, ...}` gives N. */
  lemma TargetForm(port: U16, rest: seq<(Yaml, Yaml)>)
    ensures ExtractContainerPort(YMap([(YStr("target"), YInt(port))] + rest)) == Some(port)
  {
  }

  function PortLess(a: U16, b: U16): bool { a < b }

  lemma PortLessIsOrder()
    ensures StrictTotalOrder(PortLess)
  {
  }

  /** The ports the declarations `vs` decode to. */
  function PortsOf(vs: seq<Yaml>): (r: set<U16>)
    ensures forall p :: p in r ==> exists v :: v in vs && ExtractContainerPort(v) == Some(p)
    ensures forall v :: v in vs && ExtractContainerPort(v).Some? ==> ExtractContainerPort(v).value in r
  {
    if |vs| == 0 then {}
    else
      var front := vs[..|vs| - 1];
      var last := vs[|vs| - 1];
      assert forall v :: v in vs <==> v in front || v == last;
      var earlier := PortsOf(front);
      var own := match ExtractContainerPort(last) case Some(p) => {p} case None => {};
      assert forall p :: p in earlier + own ==> exists v :: v in vs && ExtractContainerPort(v) == Some(p) by {
        forall p | p in earlier + own ensures exists v :: v in vs && ExtractContainerPort(v) == Some(p) {
          if p in earlier {
            var v :| v in front && ExtractContainerPort(v) == Some(p);
            assert v in vs;
          } else {
            assert last in vs && ExtractContainerPort(last) == Some(p);
          }
        }
      }
      earlier + own
  }

  /** The ports a compose service declares, as `parse_ports` returns them: ascending, no repeats. */
  ghost predicate IsPortList(svc: ComposeService, ports: seq<U16>) {
    && StrictlySorted(ports, PortLess)
    && forall p: U16 :: p in ports <==>
        exists v :: (v in svc.ports || v in svc.expose) && ExtractContainerPort(v) == Some(p)
  }

  /** `parse_ports`: the decodable ports of `ports` and `expose`, in a set, then sorted. */
  method ParsePorts(svc: ComposeService) returns (ports: seq<U16>)
    ensures IsPortList(svc, ports)
  {
    var found := CollectPorts(svc.ports, {});
    found := CollectPorts(svc.expose, found);
    var unordered := SetToSeq(found);
    PortLessIsOrder();
    ports := SortDedup(unordered, PortLess);
    DeclaredPorts(svc, found, ports);
  }

  /** One of the two loops of `parse_ports`: every decodable declaration inserted into the set. */
  method CollectPorts(vs: seq<Yaml>, found: set<U16>) returns (r: set<U16>)
    ensures r == found + PortsOf(vs)
  {
    r := found;
    for i := 0 to |vs|
      invariant r == found + PortsOf(vs[..i])
    {
      assert vs[..i + 1][..i] == vs[..i];
      var port := ExtractContainerPort(vs[i]);
      if port.Some? {
        r := r + {port.value};
      }
    }
    assert vs[..|vs|] == vs;
  }

  lemma DeclaredPorts(svc: ComposeService, found: set<U16>, ports: seq<U16>)
    requires found == PortsOf(svc.ports) + PortsOf(svc.expose)
    requires forall p :: p in ports <==> p in found
    requires StrictlySorted(ports, PortLess)
    ensures IsPortList(svc, ports)
  {
    forall p: U16 ensures p in ports <==>
      exists v :: (v in svc.ports || v in svc.expose) && ExtractContainerPort(v) == Some(p)
    {
      if exists v :: (v in svc.ports || v in svc.expose) && ExtractContainerPort(v) == Some(p) {
        var v :| (v in svc.ports || v in svc.expose) && ExtractContainerPort(v) == Some(p);
        assert p in found;
      }
    }
  }

  /** `default_domain`: `<service>.<project>.localhost`. */
  function DefaultDomain(service: string, project: string): (r: string)
    ensures |r| == |service| + |project| + 11
    ensures r[..|service|] == service && r[|service|] == '.'
    ensures r[|service| + 1..|service| + 1 + |project|] == project
    ensures r[|r| - 10..] == ".localhost"
  {
    service + "." + project + ".localhost"
  }

  /**
   * The project of a compose file: the document's `name`, else the name of the
   * file's directory, else `unknown`.
   */
  function ProjectName(doc: ComposeFile, file: Path): (r: string)
    ensures doc.name.Some? ==> r == doc.name.value
    ensures doc.name.None? && |file| >= 2 ==> r == file[|file| - 2]
    ensures doc.name.None? && |file| < 2 ==> r == UnknownProject
  {
    match doc.name
    case Some(n) => n
    case None =>
      match Parent(file)
      case Some(dir) => FileName(dir).GetOr(UnknownProject)
      case None => UnknownProject
  }

  /** What `extract_services` makes of the compose service `svc` named `s.name`. */
  ghost predicate IsExtracted(s: Service, svc: ComposeService, file: Path, project: string) {
    && s.proxy == ParseCaddyLabels(LabelsAsMap(svc.labels))
    && s.status == NotDeployed
    && s.source == Compose(file, s.name)
    && s.project == project
    && IsPortList(svc, s.availablePorts)
  }

  ghost predicate DistinctNames(services: seq<Service>) {
    forall i, j :: 0 <= i < j < |services| ==> services[i].name != services[j].name
  }

  /** Every service came from the compose service of its name, as `extract_services` builds it. */
  ghost predicate AllExtracted(services: seq<Service>, doc: ComposeFile, file: Path, project: string) {
    forall i :: 0 <= i < |services| ==>
      services[i].name in doc.services
      && IsExtracted(services[i], doc.services[services[i].name], file, project)
  }

  /** The body of the loop in `extract_services`: one compose service turned into a `Service`. */
  method ExtractService(name: string, svc: ComposeService, file: Path, project: string) returns (s: Service)
    ensures s.name == name && IsExtracted(s, svc, file, project)
  {
    var labels := ToMap(svc.labels);
    var proxy := ParseCaddyLabels(labels);
    var ports := ParsePorts(svc);
    s := Service(name, proxy, NotDeployed, Compose(file, name), project, ports);
  }

  /**
   * `extract_services`: exactly one `Service` per compose service, in the (unspecified)
   * iteration order of the service map, all not deployed and sourced from `file`.
   */
  method ExtractServices(doc: ComposeFile, file: Path) returns (project: string, services: seq<Service>)
    ensures project == ProjectName(doc, file)
    ensures DistinctNames(services)
    ensures AllExtracted(services, doc, file, project)
    ensures forall name :: name in doc.services ==>
      exists i :: 0 <= i < |services| && services[i].name == name
  {
    project := ProjectName(doc, file);
    services := [];
    var rest := doc.services.Keys;
    while rest != {}
      invariant rest <= doc.services.Keys
      invariant DistinctNames(services)
      invariant AllExtracted(services, doc, file, project)
      invariant forall i :: 0 <= i < |services| ==> services[i].name !in rest
      invariant forall name :: name in doc.services && name !in rest ==>
        exists i :: 0 <= i < |services| && services[i].name == name
      decreases rest
    {
      var name :| name in rest;
      var s := ExtractService(name, doc.services[name], file, project);
      ExtractedSnoc(services, s, doc, file, project, rest);
      services := services + [s];
      rest := rest - {name};
    }
  }

  /** One loop step of `extract_services` keeps its invariants. */
  lemma ExtractedSnoc(services: seq<Service>, s: Service, doc: ComposeFile, file: Path, project: string, rest: set<string>)
    requires s.name in rest && rest <= doc.services.Keys
    requires IsExtracted(s, doc.services[s.name], file, project)
    requires DistinctNames(services) && AllExtracted(services, doc, file, project)
    requires forall i :: 0 <= i < |services| ==> services[i].name !in rest
    requires forall name :: name in doc.services && name !in rest ==>
      exists i :: 0 <= i < |services| && services[i].name == name
    ensures DistinctNames(services + [s]) && AllExtracted(services + [s], doc, file, project)
    ensures forall i :: 0 <= i < |services + [s]| ==> (services + [s])[i].name !in rest - {s.name}
    ensures forall name :: name in doc.services && name !in rest - {s.name} ==>
      exists i :: 0 <= i < |services + [s]| && (services + [s])[i].name == name
  {
    DistinctSnoc(services, s, rest);
    AllExtractedSnoc(services, s, doc, file, project);
    CoveredSnoc(services, s, doc, rest);
  }

  lemma DistinctSnoc(services: seq<Service>, s: Service, rest: set<string>)
    requires s.name in rest && DistinctNames(services)
    requires forall i :: 0 <= i < |services| ==> services[i].name !in rest
    ensures DistinctNames(services + [s])
    ensures forall i :: 0 <= i < |services + [s]| ==> (services + [s])[i].name !in rest - {s.name}
  {
    var next := services + [s];
    assert forall i :: 0 <= i < |services| ==> next[i] == services[i];
    assert next[|services|] == s;
  }

  lemma AllExtractedSnoc(services: seq<Service>, s: Service, doc: ComposeFile, file: Path, project: string)
    requires s.name in doc.services && IsExtracted(s, doc.services[s.name], file, project)
    requires AllExtracted(services, doc, file, project)
    ensures AllExtracted(services + [s], doc, file, project)
  {
    var next := services + [s];
    assert forall i :: 0 <= i < |services| ==> next[i] == services[i];
    assert next[|services|] == s;
  }

  lemma CoveredSnoc(services: seq<Service>, s: Service, doc: ComposeFile, rest: set<string>)
    requires forall name :: name in doc.services && name !in rest ==>
      exists i :: 0 <= i < |services| && services[i].name == name
    ensures forall name :: name in doc.services && name !in rest - {s.name} ==>
      exists i :: 0 <= i < |services + [s]| && (services + [s])[i].name == name
  {
    var next := services + [s];
    forall name | name in doc.services && name !in rest - {s.name}
      ensures exists i :: 0 <= i < |next| && next[i].name == name
    {
      if name == s.name {
        assert next[|services|].name == name;
      } else {
        var i :| 0 <= i < |services| && services[i].name == name;
        assert next[i].name == name;
      }
    }
  }

  /** The route an override document declares for `name`, if any. */
  function OverrideProxy(doc: ComposeFile, name: string): Option<ProxyConfig> {
    if name in doc.services then ParseCaddyLabels(LabelsAsMap(doc.services[name].labels)) else None
  }

  /** One override document applied to one service: it only fills a missing route. */
  function ApplyOverride(s: Service, doc: ComposeFile): Service {
    if s.proxy.None? && OverrideProxy(doc, s.name).Some? then s.(proxy := OverrideProxy(doc, s.name))
    else s
  }

  /** The override documents applied in order. */
  function ApplyOverrides(s: Service, docs: seq<ComposeFile>): Service {
    if |docs| == 0 then s
    else ApplyOverride(ApplyOverrides(s, docs[..|docs| - 1]), docs[|docs| - 1])
  }

  /**
   * The override documents `merge_lcp_configs` reads, in order: one per distinct
   * directory of the compose files (first appearance), when its `compose.lcp.yaml`
   * exists and parses.
   */
  function OverrideDocs(files: seq<Path>, seen: set<Path>, lcpFiles: map<Path, ComposeFile>): seq<ComposeFile> {
    if |files| == 0 then []
    else
      match Parent(files[0])
      case None => OverrideDocs(files[1..], seen, lcpFiles)
      case Some(dir) =>
        if dir in seen then OverrideDocs(files[1..], seen, lcpFiles)
        else
          var rest := OverrideDocs(files[1..], seen + {dir}, lcpFiles);
          var lcpPath := dir + [LcpFileName];
          if lcpPath in lcpFiles then [lcpFiles[lcpPath]] + rest else rest
  }

  /** An override never replaces a route a service already has. */
  lemma {:induction false} OverridesKeepDeclared(s: Service, docs: seq<ComposeFile>)
    requires s.proxy.Some?
    ensures ApplyOverrides(s, docs) == s
    decreases |docs|
  {
    if |docs| > 0 {
      OverridesKeepDeclared(s, docs[..|docs| - 1]);
    }
  }

  /** Overrides change nothing but the route. */
  lemma {:induction false} OverridesOnlyTouchProxy(s: Service, docs: seq<ComposeFile>)
    ensures ApplyOverrides(s, docs) == s.(proxy := ApplyOverrides(s, docs).proxy)
    decreases |docs|
  {
    if |docs| > 0 {
      OverridesOnlyTouchProxy(s, docs[..|docs| - 1]);
    }
  }

  /** The first present value of `xs`, if any. */
  function FirstSome<T>(xs: seq<Option<T>>): Option<T> {
    if |xs| == 0 then None
    else if xs[0].Some? then xs[0]
    else FirstSome(xs[1..])
  }

  /** `FirstSome` finds a value iff some entry holds one. */
  lemma {:induction false} FirstSomeFound<T>(xs: seq<Option<T>>)
    ensures FirstSome(xs).Some? <==> exists i :: 0 <= i < |xs| && xs[i].Some?
    decreases |xs|
  {
    if |xs| > 0 && xs[0].None? {
      var tail := xs[1..];
      FirstSomeFound(tail);
      if exists i :: 0 <= i < |xs| && xs[i].Some? {
        var i :| 0 <= i < |xs| && xs[i].Some?;
        assert tail[i - 1].Some?;
      }
    }
  }

  /** The value `FirstSome` finds sits at an index with nothing present before it. */
  lemma {:induction false} FirstSomeIsFirst<T>(xs: seq<Option<T>>)
    requires FirstSome(xs).Some?
    ensures exists i :: 0 <= i < |xs| && xs[i] == FirstSome(xs) && forall j :: 0 <= j < i ==> xs[j].None?
    decreases |xs|
  {
    if xs[0].None? {
      var tail := xs[1..];
      FirstSomeIsFirst(tail);
      var i :| 0 <= i < |tail| && tail[i] == FirstSome(tail) && forall j :: 0 <= j < i ==> tail[j].None?;
      assert xs[i + 1] == FirstSome(xs);
      assert forall j :: 1 <= j < i + 1 ==> xs[j] == tail[j - 1];
    }
  }

  /** Appending an entry only matters when no earlier entry holds a value. */
  lemma {:induction false} FirstSomeSnoc<T>(xs: seq<Option<T>>, x: Option<T>)
    ensures FirstSome(xs + [x]) == if FirstSome(xs).Some? then FirstSome(xs) else x
    decreases |xs|
  {
    if |xs| == 0 {
      assert xs + [x] == [x];
      assert [x][1..] == [];
    } else {
      assert (xs + [x])[0] == xs[0];
      assert (xs + [x])[1..] == xs[1..] + [x];
      FirstSomeSnoc(xs[1..], x);
    }
  }

  /** What each override document declares for `name`, in order. */
  function Declared(docs: seq<ComposeFile>, name: string): (r: seq<Option<ProxyConfig>>)
    ensures |r| == |docs|
  {
    if |docs| == 0 then []
    else Declared(docs[..|docs| - 1], name) + [OverrideProxy(docs[|docs| - 1], name)]
  }

  /** Entry `i` of `Declared` is the route the `i`-th document declares. */
  lemma {:induction false} DeclaredAt(docs: seq<ComposeFile>, name: string, i: nat)
    requires i < |docs|
    ensures Declared(docs, name)[i] == OverrideProxy(docs[i], name)
    decreases |docs|
  {
    var n := |docs| - 1;
    var front := docs[..n];
    var a, x := Declared(front, name), OverrideProxy(docs[n], name);
    assert Declared(docs, name) == a + [x];
    if i < n {
      DeclaredAt(front, name, i);
      assert (a + [x])[i] == a[i];
      assert front[i] == docs[i];
    } else {
      assert (a + [x])[n] == x;
    }
  }

  /** A route already set stays; a missing one becomes whatever the document declares. */
  lemma ApplyOverrideProxy(t: Service, d: ComposeFile)
    ensures ApplyOverride(t, d).proxy == if t.proxy.Some? then t.proxy else OverrideProxy(d, t.name)
  {
  }

  /**
   * For a service without a route, the merged route is the one of the first
   * override document that declares one for its name.
   */
  lemma {:induction false} OverridesFirstWins(s: Service, docs: seq<ComposeFile>)
    requires s.proxy.None?
    ensures ApplyOverrides(s, docs).proxy == FirstSome(Declared(docs, s.name))
    decreases |docs|
  {
    if |docs| > 0 {
      var n := |docs| - 1;
      var front, d := docs[..n], docs[n];
      var t := ApplyOverrides(s, front);
      var xs, x := Declared(front, s.name), OverrideProxy(d, s.name);
      assert t.proxy == FirstSome(xs) && t.name == s.name by {
        OverridesFirstWins(s, front);
        OverridesOnlyTouchProxy(s, front);
      }
      assert ApplyOverrides(s, docs).proxy == if t.proxy.Some? then t.proxy else x by {
        assert ApplyOverrides(s, docs) == ApplyOverride(t, d);
        ApplyOverrideProxy(t, d);
      }
      assert FirstSome(Declared(docs, s.name)) == if FirstSome(xs).Some? then FirstSome(xs) else x by {
        assert Declared(docs, s.name) == xs + [x];
        FirstSomeSnoc(xs, x);
      }
    }
  }

  /** A service after `FillRoute`: the route is set when the name matches and none was set. */
  function Filled(s: Service, name: string, proxy: ProxyConfig): Service {
    if s.name == name && s.proxy.None? then s.(proxy := Some(proxy)) else s
  }

  /** The inner loop of `merge_lcp_configs`: the route goes to every same-named service without one. */
  method FillRoute(services: array<Service>, name: string, proxy: ProxyConfig)
    modifies services
    ensures forall i :: 0 <= i < services.Length ==>
      services[i] == Filled(old(services[i]), name, proxy)
  {
    for j := 0 to services.Length
      invariant forall i :: 0 <= i < j ==> services[i] == Filled(old(services[i]), name, proxy)
      invariant forall i :: j <= i < services.Length ==> services[i] == old(services[i])
    {
      if services[j].name == name && services[j].proxy.None? {
        services[j] := services[j].(proxy := Some(proxy));
      }
    }
  }

  /** `ApplyOverride` restricted to the override's entries named in `done`. */
  function ApplyOverrideOn(s: Service, doc: ComposeFile, done: set<string>): Service {
    if s.name in done then ApplyOverride(s, doc) else s
  }

  /** Visiting one more entry of the override fills that entry's route, if it declares one. */
  lemma OverrideOnStep(s: Service, doc: ComposeFile, done: set<string>, name: string)
    requires name in doc.services && name !in done
    ensures ApplyOverrideOn(s, doc, done + {name}) ==
      var t := ApplyOverrideOn(s, doc, done);
      if OverrideProxy(doc, name).Some? then Filled(t, name, OverrideProxy(doc, name).value) else t
  {
  }

  /** One override document merged into every service: its entries visited in map order. */
  method MergeOverrideDoc(services: array<Service>, doc: ComposeFile)
    modifies services
    ensures forall i :: 0 <= i < services.Length ==> services[i] == ApplyOverride(old(services[i]), doc)
  {
    ghost var done: set<string> := {};
    var rest := doc.services.Keys;
    while rest != {}
      invariant rest !! done && rest + done == doc.services.Keys
      invariant forall i :: 0 <= i < services.Length ==> services[i] == ApplyOverrideOn(old(services[i]), doc, done)
      decreases rest
    {
      var name :| name in rest;
      var labels := ToMap(doc.services[name].labels);
      var proxy := ParseCaddyLabels(labels);
      assert proxy == OverrideProxy(doc, name);
      ghost var prev := services[..];
      if proxy.Some? {
        FillRoute(services, name, proxy.value);
      }
      forall i | 0 <= i < services.Length
        ensures services[i] == ApplyOverrideOn(old(services[i]), doc, done + {name})
      {
        OverrideOnStep(old(services[i]), doc, done, name);
      }
      done := done + {name};
      rest := rest - {name};
    }
  }

  /**
   * `merge_lcp_configs`: every distinct directory's override file, in order of first
   * appearance, fills the routes that are still missing; the list keeps its length
   * and every field other than `proxy`.
   */
  method MergeLcpConfigs(services: array<Service>, composeFiles: seq<Path>, lcpFiles: map<Path, ComposeFile>)
    modifies services
    ensures forall i :: 0 <= i < services.Length ==>
      services[i] == ApplyOverrides(old(services[i]), OverrideDocs(composeFiles, {}, lcpFiles))
  {
    var dirsSeen: set<Path> := {};
    ghost var docs: seq<ComposeFile> := [];
    assert composeFiles[0..] == composeFiles;
    for f := 0 to |composeFiles|
      invariant docs + OverrideDocs(composeFiles[f..], dirsSeen, lcpFiles) == OverrideDocs(composeFiles, {}, lcpFiles)
      invariant forall i :: 0 <= i < services.Length ==> services[i] == ApplyOverrides(old(services[i]), docs)
    {
      assert composeFiles[f..][1..] == composeFiles[f + 1..];
      var parent := Parent(composeFiles[f]);
      if parent.Some? {
        var dir := parent.value;
        if dir !in dirsSeen {
          dirsSeen := dirsSeen + {dir};
          var lcpPath := dir + [LcpFileName];
          if lcpPath in lcpFiles {
            var doc := lcpFiles[lcpPath];
            MergeOverrideDoc(services, doc);
            assert (docs + [doc])[..|docs|] == docs;
            docs := docs + [doc];
          }
        }
      }
    }
    assert composeFiles[|composeFiles|..] == [];
    assert docs + [] == docs;
  }
}
