/**
 * The override-file writer: `write_lcp_file` edits the top-level mapping of a
 * `compose.lcp.yaml` document so that it routes one service, and
 * `generate_preview` renders the same route as text. Reading, YAML parsing,
 * serialising and writing the file are inputs and outcomes: the existing file
 * arrives as absent, unreadable, or read (and then parsed or not), and whether
 * the final write succeeds is a parameter.
 */
module Writer {
  import opened Wrappers
  import opened Text
  import opened Model
  import opened Labels

  /** The top-level mapping of the document, keyed by string. */
  type Doc = map<string, Yaml>

  const ServicesKey: string := "services"
  const NetworksKey: string := "networks"
  const CaddyNetwork: string := "caddy"

  /**
   * `Mapping::insert`: a key already present keeps its position and takes the
   * new value; a new key is appended.
   */
  function MapInsert(entries: seq<(Yaml, Yaml)>, key: Yaml, value: Yaml): (r: seq<(Yaml, Yaml)>)
    ensures |r| == |entries| || |r| == |entries| + 1
  {
    if |entries| == 0 then [(key, value)]
    else if entries[0].0 == key then [(key, value)] + entries[1..]
    else [entries[0]] + MapInsert(entries[1..], key, value)
  }

  /** After the insertion the key holds the new value, and every other key its old one. */
  lemma {:induction false} MapInsertGet(entries: seq<(Yaml, Yaml)>, key: Yaml, value: Yaml, k: Yaml)
    ensures Lookup(MapInsert(entries, key, value), k) == if k == key then Some(value) else Lookup(entries, k)
    decreases |entries|
  {
    if |entries| > 0 {
      var r := MapInsert(entries, key, value);
      assert r[1..] == if entries[0].0 == key then entries[1..] else MapInsert(entries[1..], key, value);
      if entries[0].0 != key {
        MapInsertGet(entries[1..], key, value, k);
      }
    }
  }

  /** Inserting the same key/value pair twice is inserting it once. */
  lemma {:induction false} MapInsertIdempotent(entries: seq<(Yaml, Yaml)>, key: Yaml, value: Yaml)
    ensures MapInsert(MapInsert(entries, key, value), key, value) == MapInsert(entries, key, value)
    decreases |entries|
  {
    if |entries| > 0 && entries[0].0 != key {
      var rest := MapInsert(entries[1..], key, value);
      MapInsertIdempotent(entries[1..], key, value);
      assert ([entries[0]] + rest)[1..] == rest;
    }
  }

  /** Inserting a key that is not there yet appends it. */
  lemma {:induction false} MapInsertNew(entries: seq<(Yaml, Yaml)>, key: Yaml, value: Yaml)
    requires forall i :: 0 <= i < |entries| ==> entries[i].0 != key
    ensures MapInsert(entries, key, value) == entries + [(key, value)]
    decreases |entries|
  {
    if |entries| > 0 {
      MapInsertNew(entries[1..], key, value);
      assert entries == [entries[0]] + entries[1..];
    }
  }

  /** The label mapping written for a route: domain, `{{upstreams PORT}}`, TLS tag. */
  function LabelEntries(config: ProxyConfig): seq<(Yaml, Yaml)> {
    var labels := MapInsert([], YStr(CaddyKey), YStr(config.domain));
    var labels := MapInsert(labels, YStr(ReverseProxyKey), YStr(UpstreamsValue(config.port)));
    MapInsert(labels, YStr(TlsKey), YStr(config.tls))
  }

  /** The service entry written for a route: its labels and the `caddy` network. */
  function ServiceEntry(config: ProxyConfig): Yaml {
    var entry := MapInsert([], YStr("labels"), YMap(LabelEntries(config)));
    YMap(MapInsert(entry, YStr(NetworksKey), YSeq([YStr(CaddyNetwork)])))
  }

  /** The top-level `networks` value: the external `caddy` network only. */
  function CaddyNetworks(): Yaml {
    YMap([(YStr(CaddyNetwork), YMap([(YStr("external"), YBool(true))]))])
  }

  /**
   * The document after the edit: `services` (created empty when missing) gets the
   * entry for `name` when it is a mapping, and `networks` is replaced.
   */
  function EditDoc(doc: Doc, name: string, config: ProxyConfig): Doc {
    var services := if ServicesKey in doc then doc[ServicesKey] else YMap([]);
    var services := if services.YMap? then YMap(MapInsert(services.entries, YStr(name), ServiceEntry(config))) else services;
    doc[ServicesKey := services][NetworksKey := CaddyNetworks()]
  }

  /** The file as the writer finds it. */
  datatype ExistingFile = Absent | Unreadable(reason: string) | Present(parsed: Option<Doc>)

  /** The document the edit starts from: a file that does not parse counts as empty. */
  function StartDoc(existing: ExistingFile): (r: Doc)
    requires !existing.Unreadable?
    ensures existing.Absent? ==> r == map[]
    ensures existing.Present? && existing.parsed.None? ==> r == map[]
    ensures existing.Present? && existing.parsed.Some? ==> r == existing.parsed.value
  {
    if existing.Present? then existing.parsed.GetOr(map[]) else map[]
  }

  /**
   * `write_lcp_file`: an unreadable existing file or a failed write is an error;
   * otherwise the document written is the edit of the existing one.
   */
  method WriteLcpFile(existing: ExistingFile, name: string, config: ProxyConfig, writeSucceeds: bool)
    returns (r: Result<Doc>)
    ensures existing.Unreadable? ==> r.Err?
    ensures !existing.Unreadable? && !writeSucceeds ==> r.Err?
    ensures !existing.Unreadable? && writeSucceeds ==> r == Ok(EditDoc(StartDoc(existing), name, config))
  {
    var doc: Doc;
    match existing {
      case Absent => doc := map[];
      case Unreadable(reason) => return Err("failed to read compose.lcp.yaml: " + reason);
      case Present(parsed) => doc := parsed.GetOr(map[]);
    }
    ghost var start := doc;
    var entry := ServiceEntry(config);
    if ServicesKey !in doc {
      doc := doc[ServicesKey := YMap([])];
    }
    var services := doc[ServicesKey];
    if services.YMap? {
      doc := doc[ServicesKey := YMap(MapInsert(services.entries, YStr(name), entry))];
    }
    doc := doc[NetworksKey := CaddyNetworks()];
    assert doc == EditDoc(start, name, config);
    if !writeSucceeds {
      return Err("failed to write compose.lcp.yaml");
    }
    return Ok(doc);
  }

  /** After the edit, `services[name]` is exactly the new entry whenever `services` is (or becomes) a mapping. */
  lemma EntryWritten(doc: Doc, name: string, config: ProxyConfig)
    requires ServicesKey !in doc || doc[ServicesKey].YMap?
    ensures ServicesKey in EditDoc(doc, name, config)
    ensures EditDoc(doc, name, config)[ServicesKey].YMap?
    ensures Lookup(EditDoc(doc, name, config)[ServicesKey].entries, YStr(name)) == Some(ServiceEntry(config))
  {
    var entries := if ServicesKey in doc then doc[ServicesKey].entries else [];
    MapInsertGet(entries, YStr(name), ServiceEntry(config), YStr(name));
  }

  /** Every other service entry is kept as it was. */
  lemma OtherServicesKept(doc: Doc, name: string, config: ProxyConfig, other: Yaml)
    requires ServicesKey in doc && doc[ServicesKey].YMap?
    requires other != YStr(name)
    ensures Lookup(EditDoc(doc, name, config)[ServicesKey].entries, other) == Lookup(doc[ServicesKey].entries, other)
  {
    MapInsertGet(doc[ServicesKey].entries, YStr(name), ServiceEntry(config), other);
  }

  /** A `services` value that is not a mapping is left untouched: no entry is written. */
  lemma NonMappingServicesUntouched(doc: Doc, name: string, config: ProxyConfig)
    requires ServicesKey in doc && !doc[ServicesKey].YMap?
    ensures EditDoc(doc, name, config)[ServicesKey] == doc[ServicesKey]
  {
  }

  /** `networks` is replaced wholesale; every other top-level key is kept. */
  lemma TopLevelKeys(doc: Doc, name: string, config: ProxyConfig)
    ensures EditDoc(doc, name, config)[NetworksKey] == CaddyNetworks()
    ensures forall k :: k != ServicesKey && k != NetworksKey ==>
      (k in EditDoc(doc, name, config) <==> k in doc)
      && (k in doc ==> EditDoc(doc, name, config)[k] == doc[k])
  {
  }

  /** Writing the same route twice gives the document that writing it once gives. */
  lemma EditIdempotent(doc: Doc, name: string, config: ProxyConfig)
    ensures EditDoc(EditDoc(doc, name, config), name, config) == EditDoc(doc, name, config)
  {
    if ServicesKey in doc && doc[ServicesKey].YMap? {
      MapInsertIdempotent(doc[ServicesKey].entries, YStr(name), ServiceEntry(config));
    } else if ServicesKey !in doc {
      MapInsertIdempotent([], YStr(name), ServiceEntry(config));
    }
  }

  /**
   * A label mapping as the compose loader reads it into the map encoding: every
   * key and value must be a string; a repeated key keeps its last value.
   */
  function StringMap(entries: seq<(Yaml, Yaml)>): Option<map<string, string>> {
    if |entries| == 0 then Some(map[])
    else
      match StringMap(entries[..|entries| - 1])
      case None => None
      case Some(m) =>
        var (k, v) := entries[|entries| - 1];
        if k.YStr? && v.YStr? then Some(m[k.s := v.s]) else None
  }

  /**
   * Round trip: the labels the writer stores, read back as a label map and
   * decoded, give exactly the route that was written, for every port.
   */
  lemma LabelsRoundTrip(config: ProxyConfig)
    ensures StringMap(LabelEntries(config)).Some?
    ensures ParseCaddyLabels(StringMap(LabelEntries(config)).value) == Some(config)
  {
    LabelMapWritten(config);
    LabelKeysDiffer();
    var m := StringMap(LabelEntries(config)).value;
    assert CaddyKey in m && m[CaddyKey] == config.domain;
    assert ReverseProxyKey in m && m[ReverseProxyKey] == UpstreamsValue(config.port);
    assert TlsKey in m && m[TlsKey] == config.tls;
    UpstreamsRoundTrip(config.port);
  }

  /** The written labels are the three pairs, in this order. */
  lemma LabelEntriesInOrder(config: ProxyConfig)
    ensures LabelEntries(config) == [
      (YStr(CaddyKey), YStr(config.domain)),
      (YStr(ReverseProxyKey), YStr(UpstreamsValue(config.port))),
      (YStr(TlsKey), YStr(config.tls))]
  {
    LabelKeysDiffer();
    var e1 := MapInsert([], YStr(CaddyKey), YStr(config.domain));
    var e2 := MapInsert(e1, YStr(ReverseProxyKey), YStr(UpstreamsValue(config.port)));
    assert e1 == [(YStr(CaddyKey), YStr(config.domain))];
    MapInsertNew(e1, YStr(ReverseProxyKey), YStr(UpstreamsValue(config.port)));
    MapInsertNew(e2, YStr(TlsKey), YStr(config.tls));
  }

  /** The written labels, read as a map: exactly the three keys. */
  lemma LabelMapWritten(config: ProxyConfig)
    ensures StringMap(LabelEntries(config))
      == Some(map[CaddyKey := config.domain][ReverseProxyKey := UpstreamsValue(config.port)][TlsKey := config.tls])
  {
    LabelEntriesInOrder(config);
    var e3 := LabelEntries(config);
    var e2 := e3[..2];
    var e1 := e3[..1];
    assert e2[..1] == e1 && e1[..0] == [];
    var m1 := map[CaddyKey := config.domain];
    assert StringMap(e1) == Some(m1);
    var m2 := m1[ReverseProxyKey := UpstreamsValue(config.port)];
    assert StringMap(e2) == Some(m2);
  }

  /** The written service entry carries those labels under `labels`. */
  lemma EntryHoldsLabels(config: ProxyConfig)
    ensures ServiceEntry(config).YMap?
    ensures Lookup(ServiceEntry(config).entries, YStr("labels")) == Some(YMap(LabelEntries(config)))
    ensures Lookup(ServiceEntry(config).entries, YStr(NetworksKey)) == Some(YSeq([YStr(CaddyNetwork)]))
  {
    var e1 := MapInsert([], YStr("labels"), YMap(LabelEntries(config)));
    assert e1 == [(YStr("labels"), YMap(LabelEntries(config)))];
    assert YStr("labels") != YStr(NetworksKey) by {
      assert |"labels"| != |NetworksKey|;
    }
    MapInsertNew(e1, YStr(NetworksKey), YSeq([YStr(CaddyNetwork)]));
  }

  const PreviewHead: string := "# compose.lcp.yaml\nservices:\n  "
  const PreviewDomain: string := ":\n    labels:\n      caddy: "
  const PreviewProxy: string := "\n      caddy.reverse_proxy: \""
  const PreviewTls: string := "\"\n      caddy.tls: "
  const PreviewTail: string := "\n    networks:\n      - caddy\n\nnetworks:\n  caddy:\n    external: true"

  /** The part of the preview before the reverse-proxy line. */
  function PreviewUpToDomain(name: string, domain: string): (r: string)
    ensures StartsWith(r, PreviewHead + name)
    ensures EndsWith(r, PreviewDomain + domain)
  {
    var head := PreviewHead + name;
    assert head[..|head|] == head;
    PrefixOfConcat(head, PreviewDomain + domain, head);
    EndsWithItself(PreviewDomain + domain);
    SuffixOfConcat(head, PreviewDomain + domain, PreviewDomain + domain);
    head + (PreviewDomain + domain)
  }

  /** The part of the preview from the reverse-proxy line on. */
  function PreviewFromProxy(port: U16, tls: string): (r: string)
    ensures EndsWith(r, PreviewTail)
  {
    var body := PreviewProxy + UpstreamsValue(port) + PreviewTls + tls;
    EndsWithItself(PreviewTail);
    SuffixOfConcat(body, PreviewTail, PreviewTail);
    body + PreviewTail
  }

  /**
   * `generate_preview`: the fixed template filled with the service name, the
   * domain, `{{upstreams PORT}}` and the TLS tag.
   */
  function GeneratePreview(name: string, config: ProxyConfig): (r: string)
    ensures StartsWith(r, PreviewHead + name)
    ensures EndsWith(r, PreviewTail)
    ensures r == PreviewHead + name + PreviewDomain + config.domain + PreviewProxy + UpstreamsValue(config.port)
      + PreviewTls + config.tls + PreviewTail
  {
    var front := PreviewUpToDomain(name, config.domain);
    var back := PreviewFromProxy(config.port, config.tls);
    PrefixOfConcat(front, back, PreviewHead + name);
    SuffixOfConcat(front, back, PreviewTail);
    FillRegroups(PreviewHead, name, PreviewDomain, config.domain,
      PreviewProxy, UpstreamsValue(config.port), PreviewTls, config.tls, PreviewTail);
    front + back
  }

  /** The two halves of the preview, joined, are the template filled in order. */
  lemma FillRegroups(a: string, b: string, c: string, d: string, e: string, f: string, g: string, h: string, i: string)
    ensures (a + b) + (c + d) + (e + f + g + h + i) == a + b + c + d + e + f + g + h + i
  {
  }

  /** The preview shows the very domain, reverse-proxy value and TLS tag the writer stores. */
  lemma PreviewShowsStoredValues(name: string, config: ProxyConfig)
    ensures Contains(GeneratePreview(name, config), PreviewDomain + config.domain)
    ensures Lookup(LabelEntries(config), YStr(CaddyKey)) == Some(YStr(config.domain))
    ensures Contains(GeneratePreview(name, config), PreviewFromProxy(config.port, config.tls))
    ensures Lookup(LabelEntries(config), YStr(ReverseProxyKey)) == Some(YStr(UpstreamsValue(config.port)))
    ensures Lookup(LabelEntries(config), YStr(TlsKey)) == Some(YStr(config.tls))
  {
    var front := PreviewUpToDomain(name, config.domain);
    var back := PreviewFromProxy(config.port, config.tls);
    assert GeneratePreview(name, config) == front + back + "";
    ContainsInfix(front, back, "");
    assert GeneratePreview(name, config) == (PreviewHead + name) + (PreviewDomain + config.domain) + back;
    ContainsInfix(PreviewHead + name, PreviewDomain + config.domain, back);
    LabelKeysDiffer();
    var e1 := MapInsert([], YStr(CaddyKey), YStr(config.domain));
    var e2 := MapInsert(e1, YStr(ReverseProxyKey), YStr(UpstreamsValue(config.port)));
    MapInsertGet(e2, YStr(TlsKey), YStr(config.tls), YStr(TlsKey));
    MapInsertGet(e2, YStr(TlsKey), YStr(config.tls), YStr(ReverseProxyKey));
    MapInsertGet(e1, YStr(ReverseProxyKey), YStr(UpstreamsValue(config.port)), YStr(ReverseProxyKey));
    MapInsertGet(e2, YStr(TlsKey), YStr(config.tls), YStr(CaddyKey));
    MapInsertGet(e1, YStr(ReverseProxyKey), YStr(UpstreamsValue(config.port)), YStr(CaddyKey));
    MapInsertGet([], YStr(CaddyKey), YStr(config.domain), YStr(CaddyKey));
  }

  lemma LabelKeysDiffer()
    ensures CaddyKey != ReverseProxyKey && CaddyKey != TlsKey && ReverseProxyKey != TlsKey
  {
    assert |CaddyKey| == 5 && |TlsKey| == 9 && |ReverseProxyKey| == 19;
  }
}
