/**
 * The data model of the proxy manager: reconciled services, the proxy route
 * they carry, the dashboard's view/modal/form state, and the compose document
 * as the YAML deserialiser hands it over. `ComposeLabels.to_map` is the one
 * conversion from the two label encodings to a key/value map.
 */
module Model {
  import opened Wrappers
  import opened Text

  datatype ContainerStatus = Running | Stopped | NotDeployed

  /**
   * A filesystem path, as the list of its normal components below the root
   * (every path the manager handles is absolute); `[]` is the root itself.
   */
  type Path = seq<string>

  /** `Path::parent`: the root has none. */
  function Parent(p: Path): (r: Option<Path>)
    ensures r.None? <==> |p| == 0
    ensures r.Some? ==> |p| > 0 && r.value + [p[|p| - 1]] == p
  {
    if |p| == 0 then None else Some(p[..|p| - 1])
  }

  /** `Path::file_name`: the last component; the root has none. */
  function FileName(p: Path): (r: Option<string>)
    ensures r.None? <==> |p| == 0
    ensures r.Some? ==> r.value == p[|p| - 1]
    ensures r.Some? ==> Parent(p).Some? && Parent(p).value + [r.value] == p
  {
    if |p| == 0 then None else Some(p[|p| - 1])
  }

  datatype ServiceSource = Compose(file: Path, serviceName: string) | Runtime

  /** One reverse-proxy route: public hostname, backend port, TLS policy tag. */
  datatype ProxyConfig = ProxyConfig(domain: string, port: U16, tls: string)

  datatype Service = Service(
    name: string,
    proxy: Option<ProxyConfig>,
    status: ContainerStatus,
    source: ServiceSource,
    project: string,
    availablePorts: seq<U16>)

  datatype CaddyProxyStatus = Up | Down | Unknown

  datatype View = Project | Global

  datatype ActiveModal = NoModal | AddProxyModal | EditProxyModal | CaddyMenuModal | HelpModal

  datatype FormState = FormState(
    focusedField: nat,
    domain: string,
    port: string,
    tls: string,
    serviceIndex: nat)

  const DefaultTls: string := "internal"

  /** `FormState::default`: the first field focused, empty domain and port, TLS `internal`. */
  function DefaultForm(): (f: FormState)
    ensures f.focusedField == 0 && f.serviceIndex == 0
    ensures f.domain == "" && f.port == "" && f.tls == DefaultTls
  {
    FormState(0, "", "", DefaultTls, 0)
  }

  /** A YAML value (`serde_yaml_ng::Value`); a mapping keeps its entries in insertion order. */
  datatype Yaml =
    | YNull
    | YBool(b: bool)
    | YInt(i: int)
    | YFloat(f: real)
    | YStr(s: string)
    | YSeq(items: seq<Yaml>)
    | YMap(entries: seq<(Yaml, Yaml)>)

  /** The two wire encodings of a service's labels, or none at all. */
  datatype ComposeLabels = NoLabels | LabelMap(m: map<string, string>) | LabelList(items: seq<string>)

  datatype ComposeNetwork = ComposeNetwork(external: Option<bool>, name: Option<string>)

  datatype ComposeService = ComposeService(
    labels: ComposeLabels,
    ports: seq<Yaml>,
    expose: seq<Yaml>,
    networks: Option<Yaml>,
    extra: map<string, Yaml>)

  datatype ComposeFile = ComposeFile(
    name: Option<string>,
    services: map<string, ComposeService>,
    networks: map<string, Option<ComposeNetwork>>)

  /** The key/value pair a `k=v` list item stands for: split at its first `=`. */
  function LabelItem(item: string): Option<(string, string)> {
    SplitOnce(item, '=')
  }

  /** The list encoding folded left to right, each item inserted over the earlier ones. */
  function ListLabels(items: seq<string>): map<string, string> {
    if |items| == 0 then map[]
    else
      var m := ListLabels(items[..|items| - 1]);
      match LabelItem(items[|items| - 1])
      case Some((k, v)) => m[k := v]
      case None => m
  }

  /** The canonical map of a label set. */
  function LabelsAsMap(labels: ComposeLabels): map<string, string> {
    match labels
    case NoLabels => map[]
    case LabelMap(m) => m
    case LabelList(items) => ListLabels(items)
  }

  /** `ComposeLabels::to_map`. */
  method ToMap(labels: ComposeLabels) returns (m: map<string, string>)
    ensures labels.NoLabels? ==> m == map[]
    ensures labels.LabelMap? ==> m == labels.m
    ensures m == LabelsAsMap(labels)
  {
    match labels {
      case NoLabels =>
        m := map[];
      case LabelMap(lm) =>
        m := lm;
      case LabelList(items) =>
        m := map[];
        for i := 0 to |items|
          invariant m == ListLabels(items[..i])
        {
          assert items[..i + 1][..i] == items[..i];
          match LabelItem(items[i]) {
            case Some((k, v)) => m := m[k := v];
            case None =>
          }
        }
        assert items[..|items|] == items;
    }
  }

  /** An item `k=v` whose key has no `=` stands for exactly `k` ↦ `v`; `v` may hold more `=`. */
  lemma LabelItemSplitsAtFirst(k: string, v: string)
    requires '=' !in k
    ensures LabelItem(k + "=" + v) == Some((k, v))
  {
    BeforeFirstOfPrefix(k, "=" + v, '=');
    assert k + "=" + v == k + ("=" + v);
  }

  predicate HasKey(item: string, k: string) {
    LabelItem(item).Some? && LabelItem(item).value.0 == k
  }

  /** In the list encoding a key is present iff some item carries it; items without `=` are dropped. */
  lemma ListLabelsKeys(items: seq<string>, k: string)
    ensures k in ListLabels(items) <==> exists i :: 0 <= i < |items| && HasKey(items[i], k)
  {
    if k in ListLabels(items) {
      var i := ListedKeyFrom(items, k);
    }
    if exists i :: 0 <= i < |items| && HasKey(items[i], k) {
      var i :| 0 <= i < |items| && HasKey(items[i], k);
      KeyOfItemListed(items, i, k);
    }
  }

  /** A key of the folded map comes from some item (a ghost witness search). */
  lemma {:induction false} ListedKeyFrom(items: seq<string>, k: string) returns (i: nat)
    requires k in ListLabels(items)
    ensures i < |items| && HasKey(items[i], k)
    decreases |items|
  {
    var n := |items| - 1;
    ListLabelsSnoc(items, k);
    if HasKey(items[n], k) {
      i := n;
    } else {
      i := ListedKeyFrom(items[..n], k);
      assert items[..n][i] == items[i];
    }
  }

  /** The key of any item is a key of the folded map. */
  lemma {:induction false} KeyOfItemListed(items: seq<string>, i: nat, k: string)
    requires i < |items| && HasKey(items[i], k)
    ensures k in ListLabels(items)
    decreases |items|
  {
    var n := |items| - 1;
    ListLabelsSnoc(items, k);
    if i < n {
      assert items[..n][i] == items[i];
      KeyOfItemListed(items[..n], i, k);
    }
  }

  /** One more item adds its key, if it has one, and keeps every earlier key. */
  lemma ListLabelsSnoc(items: seq<string>, k: string)
    requires |items| > 0
    ensures k in ListLabels(items) <==> k in ListLabels(items[..|items| - 1]) || HasKey(items[|items| - 1], k)
  {
  }

  /** In the list encoding a repeated key takes the value of its LAST item. */
  lemma {:induction false} ListLabelsLastWins(items: seq<string>, i: nat, k: string, v: string)
    requires i < |items| && LabelItem(items[i]) == Some((k, v))
    requires forall j :: i < j < |items| ==> !HasKey(items[j], k)
    ensures k in ListLabels(items) && ListLabels(items)[k] == v
    decreases |items|
  {
    var n := |items| - 1;
    if i < n {
      var front := items[..n];
      assert front[i] == items[i];
      assert !HasKey(items[n], k);
      ListLabelsLastWins(front, i, k, v);
    }
  }
}
