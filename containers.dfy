/**
 * Runtime reconciliation: the container engine's listing (names, labels,
 * state, private ports) is an input, already fetched, or the error the
 * listing call failed with. From it come the proxy container's status, the
 * runtime-only services that carry `caddy` labels, and the status of
 * compose-declared services. The label decoder is the one in `Labels`: the
 * copy of `parse_caddy_labels`/`parse_port_from_reverse_proxy` in this source
 * file has the same statements as the parser's; only comments, visibility and
 * the `HashMap` path differ.
 */
module Containers {
  import opened Wrappers
  import opened Text
  import opened Ordering
  import opened Model
  import opened Labels

  /** The container states the engine reports. */
  datatype ContainerState =
    | EmptyState | CreatedState | RunningState | PausedState
    | RestartingState | RemovingState | ExitedState | DeadState

  /** One entry of the engine's container listing; every field may be missing. */
  datatype Container = Container(
    names: Option<seq<string>>,
    labels: Option<map<string, string>>,
    state: Option<ContainerState>,
    privatePorts: Option<seq<U16>>)

  const ProxyContainerName: string := "caddy-proxy"
  const ComposeServiceLabel: string := "com.docker.compose.service"
  const ComposeProjectLabel: string := "com.docker.compose.project"
  const RuntimeProject: string := "runtime"
  const UnknownName: string := "unknown"

  /** `state_to_container_status`. */
  function StateToStatus(state: Option<ContainerState>): (r: ContainerStatus)
    ensures r == Running <==> state == Some(RunningState)
    ensures r == NotDeployed <==> state == None || state == Some(EmptyState)
    ensures r == Stopped <==> state.Some? && state.value != RunningState && state.value != EmptyState
  {
    match state
    case Some(RunningState) => Running
    case Some(ExitedState) | Some(CreatedState) => Stopped
    case None | Some(EmptyState) => NotDeployed
    case _ => Stopped
  }

  /** `trim_start_matches('/')`. */
  function StripLeadingSlashes(s: string): (r: string)
    ensures |r| <= |s| && r == s[|s| - |r|..]
    ensures forall i :: 0 <= i < |s| - |r| ==> s[i] == '/'
    ensures |r| > 0 ==> r[0] != '/'
  {
    if |s| > 0 && s[0] == '/' then StripLeadingSlashes(s[1..]) else s
  }

  /** A container name that designates the proxy container, once its leading slashes are gone. */
  predicate IsProxyName(name: string) {
    var n := StripLeadingSlashes(name);
    n == ProxyContainerName || EndsWith(n, "_caddy-proxy") || EndsWith(n, "-caddy-proxy")
  }

  /** The test in `get_caddy_proxy_status`: a proxy-like name, or the compose service label `caddy-proxy`. */
  predicate IsProxyContainer(c: Container) {
    var names := c.names.GetOr([]);
    var labels := c.labels.GetOr(map[]);
    (exists i :: 0 <= i < |names| && IsProxyName(names[i]))
    || (ComposeServiceLabel in labels && labels[ComposeServiceLabel] == ProxyContainerName)
  }

  /** The status the proxy container's state stands for: running is up, anything else down. */
  function ProxyStatusOf(c: Container): (r: CaddyProxyStatus)
    ensures r != Unknown
    ensures r == Up <==> c.state == Some(RunningState)
  {
    if c.state == Some(RunningState) then Up else Down
  }

  /**
   * `get_caddy_proxy_status`: the first container that looks like the proxy
   * decides, `Unknown` when none does; a failed listing is an error.
   */
  method GetCaddyProxyStatus(listing: Result<seq<Container>>) returns (r: Result<CaddyProxyStatus>)
    ensures listing.Err? ==> r.Err?
    ensures listing.Ok? ==> r.Ok?
    ensures listing.Ok? ==>
      (r.value == Unknown <==> forall i :: 0 <= i < |listing.value| ==> !IsProxyContainer(listing.value[i]))
    ensures listing.Ok? && r.value != Unknown ==>
      exists i :: 0 <= i < |listing.value| && IsProxyContainer(listing.value[i])
        && (forall j :: 0 <= j < i ==> !IsProxyContainer(listing.value[j]))
        && r.value == ProxyStatusOf(listing.value[i])
  {
    if listing.Err? {
      return Err(listing.error);
    }
    var containers := listing.value;
    for i := 0 to |containers|
      invariant forall j :: 0 <= j < i ==> !IsProxyContainer(containers[j])
    {
      if IsProxyContainer(containers[i]) {
        return Ok(ProxyStatusOf(containers[i]));
      }
    }
    return Ok(Unknown);
  }

  /** The filter of `list_caddy_services`: a label key `caddy` or one starting with `caddy.`. */
  predicate HasCaddyLabel(labels: map<string, string>) {
    exists k :: k in labels && (k == CaddyKey || StartsWith(k, "caddy."))
  }

  /** The name a runtime service gets: its first container name without leading slashes, else `unknown`. */
  function RuntimeName(c: Container): (r: string)
    ensures c.names.Some? && |c.names.value| > 0 ==> r == StripLeadingSlashes(c.names.value[0])
    ensures c.names.None? || |c.names.value| == 0 ==> r == UnknownName
  {
    if c.names.Some? && |c.names.value| > 0 then StripLeadingSlashes(c.names.value[0]) else UnknownName
  }

  /** The project a runtime service gets: the compose project label, else `runtime`. */
  function RuntimeProjectOf(labels: map<string, string>): (r: string)
    ensures ComposeProjectLabel in labels ==> r == labels[ComposeProjectLabel]
    ensures ComposeProjectLabel !in labels ==> r == RuntimeProject
  {
    if ComposeProjectLabel in labels then labels[ComposeProjectLabel] else RuntimeProject
  }

  /** What `list_caddy_services` makes of an included container. */
  ghost predicate IsRuntimeService(s: Service, c: Container) {
    var labels := c.labels.GetOr(map[]);
    && s.name == RuntimeName(c)
    && s.proxy == ParseCaddyLabels(labels)
    && s.status == StateToStatus(c.state)
    && s.source == Runtime
    && s.project == RuntimeProjectOf(labels)
    && Distinct(s.availablePorts)
    && forall p :: p in s.availablePorts <==> p in c.privatePorts.GetOr([])
  }

  /** The containers `list_caddy_services` keeps, in listing order. */
  function Included(cs: seq<Container>): (r: seq<Container>)
    ensures |r| <= |cs|
    ensures forall c :: c in r ==> c in cs && HasCaddyLabel(c.labels.GetOr(map[]))
  {
    if |cs| == 0 then []
    else
      var front := Included(cs[..|cs| - 1]);
      var last := cs[|cs| - 1];
      if HasCaddyLabel(last.labels.GetOr(map[])) then front + [last] else front
  }

  /** A container is kept iff it has a `caddy` label. */
  lemma {:induction false} IncludedExactly(cs: seq<Container>, c: Container)
    ensures c in Included(cs) <==> c in cs && HasCaddyLabel(c.labels.GetOr(map[]))
    decreases |cs|
  {
    if |cs| > 0 {
      var front := cs[..|cs| - 1];
      IncludedExactly(front, c);
      assert cs == front + [cs[|cs| - 1]];
    }
  }

  /** The loop body of `list_caddy_services` for a container that passed the filter. */
  method RuntimeService(c: Container) returns (s: Service)
    ensures IsRuntimeService(s, c)
  {
    var labels := c.labels.GetOr(map[]);
    var proxy := ParseCaddyLabels(labels);
    var ports := c.privatePorts.GetOr([]);
    var available := SetToSeq(set p | p in ports);
    s := Service(RuntimeName(c), proxy, StateToStatus(c.state), Runtime, RuntimeProjectOf(labels), available);
  }

  /**
   * `list_caddy_services`: one runtime service per container with a `caddy` label,
   * in listing order; a failed listing is an error.
   */
  method ListCaddyServices(listing: Result<seq<Container>>) returns (r: Result<seq<Service>>)
    ensures listing.Err? <==> r.Err?
    ensures listing.Ok? ==>
      |r.value| == |Included(listing.value)|
      && forall k :: 0 <= k < |r.value| ==> IsRuntimeService(r.value[k], Included(listing.value)[k])
  {
    if listing.Err? {
      return Err(listing.error);
    }
    var containers := listing.value;
    var services: seq<Service> := [];
    for i := 0 to |containers|
      invariant BuiltFrom(services, Included(containers[..i]))
    {
      IncludedStep(containers, i);
      var c := containers[i];
      if HasCaddyLabel(c.labels.GetOr(map[])) {
        var s := RuntimeService(c);
        BuiltFromSnoc(services, Included(containers[..i]), s, c);
        services := services + [s];
      }
    }
    assert containers[..|containers|] == containers;
    return Ok(services);
  }

  /** Entry by entry, the services are the runtime services of the containers. */
  ghost predicate BuiltFrom(services: seq<Service>, cs: seq<Container>) {
    |services| == |cs| && forall k :: 0 <= k < |services| ==> IsRuntimeService(services[k], cs[k])
  }

  lemma BuiltFromSnoc(services: seq<Service>, cs: seq<Container>, s: Service, c: Container)
    requires BuiltFrom(services, cs) && IsRuntimeService(s, c)
    ensures BuiltFrom(services + [s], cs + [c])
  {
    assert forall k :: 0 <= k < |services| ==> (services + [s])[k] == services[k] && (cs + [c])[k] == cs[k];
  }

  /** One more container of the listing: it is appended iff it has a `caddy` label. */
  lemma IncludedStep(cs: seq<Container>, i: nat)
    requires i < |cs|
    ensures Included(cs[..i + 1]) ==
      if HasCaddyLabel(cs[i].labels.GetOr(map[])) then Included(cs[..i]) + [cs[i]] else Included(cs[..i])
  {
    assert cs[..i + 1][..i] == cs[..i];
  }

  /** The lookup key of a container name: leading slashes stripped, lower-cased. */
  function NameKey(name: string): string {
    AsciiLower(StripLeadingSlashes(name))
  }

  /** The keys of a list of container names. */
  function NameKeys(names: seq<string>): set<string> {
    if |names| == 0 then {}
    else NameKeys(names[..|names| - 1]) + {NameKey(names[|names| - 1])}
  }

  /** A key comes from the names iff one of them, stripped and lower-cased, is that key. */
  lemma {:induction false} NameKeysExactly(names: seq<string>, k: string)
    ensures k in NameKeys(names) <==> exists n :: n in names && NameKey(n) == k
    decreases |names|
  {
    if |names| > 0 {
      var front := names[..|names| - 1];
      NameKeysExactly(front, k);
      assert forall n :: n in names <==> n in front || n == names[|names| - 1];
    }
  }

  /** The keys one container puts into the status lookup. */
  function ContainerKeys(c: Container): set<string> {
    var labels := c.labels.GetOr(map[]);
    NameKeys(c.names.GetOr([]))
    + (if ComposeServiceLabel in labels then {AsciiLower(labels[ComposeServiceLabel])} else {})
  }

  /** Every key of `keys` mapped to `v`. */
  function Uniform(keys: set<string>, v: ContainerStatus): (r: map<string, ContainerStatus>)
    ensures r.Keys == keys
    ensures forall k :: k in r ==> r[k] == v
  {
    map k | k in keys :: v
  }

  /** The entries one container contributes: each of its keys mapped to its status. */
  function ContainerEntries(c: Container): map<string, ContainerStatus> {
    Uniform(ContainerKeys(c), StateToStatus(c.state))
  }

  /** The lookup `merge_runtime_status` builds: containers in listing order, later ones overwriting. */
  function StatusLookup(cs: seq<Container>): map<string, ContainerStatus> {
    if |cs| == 0 then map[]
    else StatusLookup(cs[..|cs| - 1]) + ContainerEntries(cs[|cs| - 1])
  }

  lemma LookupSnoc(cs: seq<Container>)
    requires |cs| > 0
    ensures StatusLookup(cs) == StatusLookup(cs[..|cs| - 1]) + ContainerEntries(cs[|cs| - 1])
  {
  }

  lemma EntriesKeys(m: map<string, ContainerStatus>, c: Container, k: string)
    ensures k in m + ContainerEntries(c) <==> k in m || k in ContainerKeys(c)
  {
  }

  predicate HasKeyAt(cs: seq<Container>, k: string, i: int) {
    0 <= i < |cs| && k in ContainerKeys(cs[i])
  }

  /** A key is in the lookup iff some container has it. */
  lemma {:induction false} StatusLookupKeys(cs: seq<Container>, k: string)
    ensures k in StatusLookup(cs) <==> exists i :: HasKeyAt(cs, k, i)
    decreases |cs|
  {
    if |cs| > 0 {
      var n := |cs| - 1;
      var front := cs[..n];
      StatusLookupKeys(front, k);
      LookupSnoc(cs);
      EntriesKeys(StatusLookup(front), cs[n], k);
      if exists i :: HasKeyAt(cs, k, i) {
        var i :| HasKeyAt(cs, k, i);
        if i < n {
          assert front[i] == cs[i];
          assert HasKeyAt(front, k, i);
        }
      }
      if exists i :: HasKeyAt(front, k, i) {
        var i :| HasKeyAt(front, k, i);
        assert front[i] == cs[i];
        assert HasKeyAt(cs, k, i);
      }
      if k in ContainerKeys(cs[n]) {
        assert HasKeyAt(cs, k, n);
      }
    }
  }

  /** On a key shared by several containers, the last one in the listing decides. */
  lemma {:induction false} StatusLookupLastWins(cs: seq<Container>, i: nat, k: string)
    requires i < |cs| && k in ContainerKeys(cs[i])
    requires forall j :: i < j < |cs| ==> k !in ContainerKeys(cs[j])
    ensures k in StatusLookup(cs) && StatusLookup(cs)[k] == StateToStatus(cs[i].state)
    decreases |cs|
  {
    var n := |cs| - 1;
    if i < n {
      var front := cs[..n];
      assert front[i] == cs[i];
      StatusLookupLastWins(front, i, k);
    }
  }

  /** Inserting one more key with the same value. */
  lemma InsertUniform(m: map<string, ContainerStatus>, keys: set<string>, x: string, v: ContainerStatus)
    ensures m + Uniform(keys + {x}, v) == (m + Uniform(keys, v))[x := v]
  {
  }

  /** The loop over one container's names in `merge_runtime_status`. */
  method InsertNames(m: map<string, ContainerStatus>, names: seq<string>, st: ContainerStatus)
    returns (r: map<string, ContainerStatus>)
    ensures r == m + Uniform(NameKeys(names), st)
  {
    r := m;
    for j := 0 to |names|
      invariant r == m + Uniform(NameKeys(names[..j]), st)
    {
      assert names[..j + 1][..j] == names[..j];
      InsertUniform(m, NameKeys(names[..j]), NameKey(names[j]), st);
      r := r[NameKey(names[j]) := st];
    }
    assert names[..|names|] == names;
  }

  /** One container's names, then its compose service label, inserted into the lookup. */
  method InsertContainer(m: map<string, ContainerStatus>, c: Container) returns (r: map<string, ContainerStatus>)
    ensures r == m + ContainerEntries(c)
  {
    var st := StateToStatus(c.state);
    var names := c.names.GetOr([]);
    r := InsertNames(m, names, st);
    var labels := c.labels.GetOr(map[]);
    if ComposeServiceLabel in labels {
      var key := AsciiLower(labels[ComposeServiceLabel]);
      InsertUniform(m, NameKeys(names), key, st);
      r := r[key := st];
    } else {
      assert ContainerKeys(c) == NameKeys(names) + {};
    }
  }

  /** The lookup-building loop of `merge_runtime_status`. */
  method BuildStatusLookup(cs: seq<Container>) returns (m: map<string, ContainerStatus>)
    ensures m == StatusLookup(cs)
  {
    m := map[];
    for i := 0 to |cs|
      invariant m == StatusLookup(cs[..i])
    {
      assert cs[..i + 1][..i] == cs[..i];
      m := InsertContainer(m, cs[i]);
    }
    assert cs[..|cs|] == cs;
  }

  /** A service after the merge: the looked-up status under its lower-cased name, else unchanged. */
  function Reconciled(s: Service, lookup: map<string, ContainerStatus>): (r: Service)
    ensures r == s.(status := r.status)
    ensures AsciiLower(s.name) in lookup ==> r.status == lookup[AsciiLower(s.name)]
    ensures AsciiLower(s.name) !in lookup ==> r == s
  {
    var key := AsciiLower(s.name);
    if key in lookup then s.(status := lookup[key]) else s
  }

  /**
   * `merge_runtime_status`: every service whose lower-cased name is a key of the
   * lookup takes that status; nothing else changes. A failed listing changes nothing.
   */
  method MergeRuntimeStatus(listing: Result<seq<Container>>, services: array<Service>) returns (r: Result<()>)
    modifies services
    ensures listing.Err? <==> r.Err?
    ensures listing.Err? ==> services[..] == old(services[..])
    ensures listing.Ok? ==> forall i :: 0 <= i < services.Length ==>
      services[i] == Reconciled(old(services[i]), StatusLookup(listing.value))
  {
    if listing.Err? {
      return Err(listing.error);
    }
    var lookup := BuildStatusLookup(listing.value);
    ReconcileAll(services, lookup);
    return Ok(());
  }

  /** The loop of `merge_runtime_status` over the services, given the built lookup. */
  method ReconcileAll(services: array<Service>, lookup: map<string, ContainerStatus>)
    modifies services
    ensures forall i :: 0 <= i < services.Length ==> services[i] == Reconciled(old(services[i]), lookup)
  {
    for i := 0 to services.Length
      invariant forall j :: 0 <= j < i ==> services[j] == Reconciled(old(services[j]), lookup)
      invariant forall j :: i <= j < services.Length ==> services[j] == old(services[j])
    {
      var key := AsciiLower(services[i].name);
      if key in lookup {
        services[i] := services[i].(status := lookup[key]);
      }
    }
  }
}
