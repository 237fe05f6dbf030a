# local-caddy-proxy-manager, modelled in Dafny

The proxy manager is a terminal dashboard. It lists the services of a Docker
Compose project, and of the running containers, that a Caddy reverse proxy
(`caddy-proxy`, configured through `caddy.*` container labels) routes. It lets
the user add or edit a route. A route (`ProxyConfig`) is a public domain, a
backend port and a TLS policy. Routes are written to a `compose.lcp.yaml`
override file next to the compose file.

This project models the logic of that program. The I/O results it depends on
are inputs: parsed YAML and JSON trees, container listings, glob matches,
whether a file could be read or written, and the HTTP outcome.

The modules follow the source files:

- `Labels`: the reverse-proxy label decoder. The source has this code twice,
  in `compose/parser.rs` and in `docker/containers.rs`. The two copies are the
  same code: their statements agree, and only comments, `pub` and the
  `HashMap` path differ. One model serves both copies, so both sites decode every
  label map identically.
- `Model`: the records of `model.rs` and `ComposeLabels::to_map`.
- `Parser`: port extraction, service extraction and the override merge of
  `compose/parser.rs`.
- `Containers`: the container-state mapping, caddy-proxy detection, runtime
  service listing and status reconciliation of `docker/containers.rs`.
- `Writer`: the override-file edit and the preview of `compose/writer.rs`.
- `Admin`: the host scan of `caddy/admin.rs`.
- `Discovery`: the compose-file search of `compose/discovery.rs`.
- `App`: the key map and state machine of `app.rs`.

The support modules are:

- `Wrappers`: Option and Result.
- `Ordering`: lexicographic orders and sorted-set insertion. These stand for
  `HashSet` plus `sort`, `BTreeSet`, and `sort` plus `dedup`.
- `Text`: the parts of Rust's `str` and `u16` that the program uses.

The code is followed wherever it and its own comments differ. Port 0 is accepted
everywhere: `str::parse::<u16>` and `u16::try_from` let it through, and there is
no 1..65535 check.

## Model

| member | source | states |
|---|---|---|
| `Text.SplitOnce` | src/model.rs:125 | `split_once('=')`: None iff there is no `=`; otherwise the key has no `=` and key, `=`, value rebuild the item |
| `Text.AfterLast` | src/compose/parser.rs:146 | `rsplit(':').next()`: a suffix free of `:`, preceded by `:` unless it is the whole string |
| `Text.BeforeFirst` | src/compose/parser.rs:93 | `split('/').next()`: a prefix free of `/`, followed by `/` unless it is the whole string |
| `Text.TrimStart` | src/compose/parser.rs:133 | `trim` (leading half): only White_Space characters are removed, and the result starts with a non-space |
| `Text.TrimEnd` | src/compose/parser.rs:133 | `trim` (trailing half): only White_Space characters are removed, and the result ends with a non-space |
| `Text.DigitsOf` | src/compose/parser.rs:138 | the ASCII digits of a string, in order; DigitsOfAppend shows it distributes over concatenation |
| `Text.DigitsOfAppend` | src/compose/parser.rs:138 | filtering the digits of a concatenation concatenates the filtered parts |
| `Text.ToDecimal` | src/compose/writer.rs:27 | `Display` of an integer: nonempty ASCII digits with no leading zero |
| `Text.DecimalRoundTrip` | src/compose/writer.rs:27 | reading back the decimal text of n gives n |
| `Text.Unsigned` | src/compose/parser.rs:100 | the text `parse::<u16>` reads digits from: one leading `+` dropped, nothing else |
| `Text.ParseU16` | src/compose/parser.rs:100 | `parse::<u16>`: after one optional `+`, Some exactly for a nonempty ASCII-digit text whose decimal value is at most 65535, and then that value; so a leading `-` is refused, leading zeros are accepted and an overflow is None |
| `Text.ParseU16RoundTrip` | src/compose/parser.rs:140 | parsing the printed form of any u16 gives it back |
| `Text.AsciiLower` | src/docker/containers.rs:169 | lowercasing keeps the length and lowercases each ASCII letter in place |
| `Ordering.InsertSorted` | src/compose/discovery.rs:36 | `BTreeSet::insert`: the result stays strictly ascending, and its elements are the old ones plus x |
| `Ordering.SortDedup` | src/caddy/admin.rs:29-30 | `sort` then `dedup`: the result is strictly ascending with exactly the input's elements |
| `Ordering.SetToSeq` | src/compose/parser.rs:80 | collecting a set into a vector: no repeats, and the same elements |
| `Ordering.PathLessIsOrder` | src/compose/discovery.rs:22 | the component-wise order on paths is a strict total order |
| `Ordering.SortedUnique` | src/compose/discovery.rs:42-43 | two strictly sorted lists with the same elements are equal, so the final `sort` of the collected set changes nothing |
| `Model.Parent` | src/compose/parser.rs:30 | `Path::parent`: None exactly for the root; otherwise the path minus its last component |
| `Model.FileName` | src/compose/discovery.rs:29-31 | `Path::file_name`: None exactly for the root, otherwise the last component, which with `Parent` rebuilds the path |
| `Model.DefaultForm` | src/model.rs:72-82 | focus 0, service index 0, empty domain and port, TLS `internal` |
| `Wrappers.Lookup` | src/compose/parser.rs:104 | `Mapping::get` (and `Map::get` on a JSON object): a hit is a stored entry, and a miss means no entry has the key |
| `Model.ToMap` | src/model.rs:117-133 | None gives the empty map, a map is returned unchanged, and a list gives the left-to-right fold of its `k=v` items |
| `Model.LabelItemSplitsAtFirst` | src/model.rs:125-126 | an item `k=v` with no `=` in k gives exactly k and v, even when v holds more `=` |
| `Model.ListLabelsKeys` | src/model.rs:122-130 | in list form a key is present iff some item splits to it; items without `=` contribute nothing |
| `Model.ListLabelsLastWins` | src/model.rs:124-127 | in list form a repeated key takes the value of its last item |
| `Labels.ParsePortFromReverseProxy` | src/compose/parser.rs:132-151 | on the trimmed value: with `upstreams`, Some exactly when its ASCII digits are nonempty and spell a number at most 65535, and then that number; without it, the same rule for the trimmed text after the last `:` (one `+` allowed) |
| `Labels.UpstreamsPort` | src/compose/parser.rs:136-143 | the `upstreams` arm: all the ASCII digits read as one number, None when there are none or the number exceeds 65535 |
| `Labels.ColonPort` | src/compose/parser.rs:145-148 | the colon arm: the trimmed text after the last `:` parsed as u16, with the value it reads |
| `Labels.UpstreamsOverflow` | src/compose/parser.rs:136-141 | `{{upstreams N}}` with digits N above 65535 decodes to None |
| `Labels.UpstreamsRoundTrip` | src/compose/parser.rs:136-141 | `{{upstreams N}}` decodes to N for every u16 N |
| `Labels.UpstreamsWithoutDigits` | src/docker/containers.rs:206-211 | `{{upstreams}}` decodes to None |
| `Labels.HostPortForm` | src/compose/parser.rs:145-148 | `host:N` decodes to N for every u16 N and every host free of spaces that does not mention `upstreams` |
| `Labels.TrailingColonForm` | src/docker/containers.rs:214-216 | `host:` decodes to None |
| `Labels.ParseCaddyLabels` | src/compose/parser.rs:112-129 | Some iff both `caddy` and `caddy.reverse_proxy` are present and the port decodes; then the domain is the `caddy` value verbatim, the port is the decoded one, and TLS is `caddy.tls` or `internal` |
| `Parser.ExtractContainerPort` | src/compose/parser.rs:88-109 | an integer is accepted iff it lies in 0..65535, and then it is the port; a mapping resolves through its `target` value, wherever that entry sits and whatever its kind, and without `target` is None; any kind other than number, string or mapping is None |
| `Parser.StringPortForm` | src/compose/parser.rs:91-101 | `[host:][published:]N[-M][/proto]` gives N for every u16 N, for example `3000:3000`, `0.0.0.0:8080:3000`, `3000-3001` and `3000/tcp` |
| `Parser.StringPortOf` | src/compose/parser.rs:93-100 | the string arm cuts at the first `/`, the last `:` and the first `-`, then trims and parses what is left |
| `Parser.TargetForm` | src/compose/parser.rs:102-106 | a mapping whose first entry is `target: N` gives N |
| `Parser.PortsOf` | src/compose/parser.rs:68-77 | the set of ports extracted from a list, in both directions: each port comes from some element, and each extractable element contributes its port |
| `Parser.CollectPorts` | src/compose/parser.rs:68-78 | the insertion loops add exactly the extracted ports to the set |
| `Parser.ParsePorts` | src/compose/parser.rs:65-83 | the result is strictly ascending, and a port is in it iff some `ports` or `expose` entry extracts to it |
| `Parser.DeclaredPorts` | src/compose/parser.rs:80-82 | a sorted, duplicate-free listing of the collected set is the port list |
| `Parser.DefaultDomain` | src/compose/parser.rs:59-62 | the service name, a dot, the project name, then `.localhost` |
| `Parser.ProjectName` | src/compose/parser.rs:25-34 | the document's name; else the parent directory's name; else `unknown` |
| `Parser.ExtractService` | src/compose/parser.rs:39-53 | route decoded from the labels, status NotDeployed, source the file and service name, the project, and the port list |
| `Parser.ExtractServices` | src/compose/parser.rs:21-57 | one service per compose service with distinct names, covering every compose service, each built as ExtractService states, with the project of ProjectName |
| `Parser.FirstSomeFound` | src/compose/parser.rs:159-163 | the first declared route exists iff some directory declares one |
| `Parser.FirstSomeIsFirst` | src/compose/parser.rs:171 | the route taken is that of the earliest declaring directory, and no earlier directory declares one |
| `Parser.FirstSomeSnoc` | src/compose/parser.rs:159-176 | a later directory only matters while no route is set |
| `Parser.DeclaredAt` | src/compose/parser.rs:166-168 | entry `i` of the declared list is the route the `i`-th directory's override declares for the service |
| `Parser.ApplyOverrideProxy` | src/compose/parser.rs:171-172 | one override sets the route only when the service has none |
| `Parser.OverridesKeepDeclared` | src/compose/parser.rs:171 | a service that already has a route keeps it through every override |
| `Parser.OverridesOnlyTouchProxy` | src/compose/parser.rs:170-174 | the overrides change no field except `proxy` |
| `Parser.OverridesFirstWins` | src/compose/parser.rs:156-180 | for a service without a route, the result is the route of the first override (in compose-file order, each directory once) that declares one |
| `Parser.FillRoute` | src/compose/parser.rs:170-174 | every service named `name` that has no route gets `proxy`; every other element is unchanged |
| `Parser.MergeOverrideDoc` | src/compose/parser.rs:166-176 | each element becomes itself with one override applied |
| `Parser.MergeLcpConfigs` | src/compose/parser.rs:156-180 | in place: the array keeps its length, and each element becomes itself with every directory's override applied, directories in first-seen order and each read once |
| `Containers.StateToStatus` | src/docker/containers.rs:221-230 | Running iff RUNNING; NotDeployed iff the state is absent or EMPTY; Stopped iff any other state |
| `Containers.StripLeadingSlashes` | src/docker/containers.rs:34 | `trim_start_matches('/')`: removes a prefix made only of `/`, and the rest does not start with `/` |
| `Containers.ProxyStatusOf` | src/docker/containers.rs:83-86 | never Unknown; Up iff the state is RUNNING |
| `Containers.GetCaddyProxyStatus` | src/docker/containers.rs:67-91 | a listing error propagates; otherwise Unknown iff no container matches, and a known status is that of the first matching container |
| `Containers.RuntimeName` | src/docker/containers.rs:30-35 | the first name stripped of leading `/`; `unknown` when there is none |
| `Containers.RuntimeProjectOf` | src/docker/containers.rs:39-42 | the compose-project label, else `runtime` |
| `Containers.Included` | src/docker/containers.rs:20-27 | no longer than the listing; every container in it comes from the listing and carries a `caddy` or `caddy.*` label |
| `Containers.IncludedExactly` | src/docker/containers.rs:24-26 | a container is included iff it has a `caddy` or `caddy.*` label |
| `Containers.RuntimeService` | src/docker/containers.rs:29-60 | route decoded from the labels, which may be None; name, status, source Runtime and project; ports duplicate-free with the same elements as the private ports |
| `Containers.ListCaddyServices` | src/docker/containers.rs:16-64 | Err iff the listing failed; otherwise one service per included container, in listing order |
| `Containers.BuiltFromSnoc` | src/docker/containers.rs:28-61 | appending one container's runtime service keeps the list matched entry by entry with the included containers |
| `Containers.IncludedStep` | src/docker/containers.rs:19-26 | one more listed container is included iff it has a `caddy` label |
| `Containers.NameKeysExactly` | src/docker/containers.rs:167-171 | the name keys are the lowercased, slash-stripped names |
| `Containers.StatusLookupKeys` | src/docker/containers.rs:164-178 | a key is in the lookup iff some container has it as a name key or a lowercased compose-service label |
| `Containers.StatusLookupLastWins` | src/docker/containers.rs:164-178 | when keys collide, the last container with the key decides its status |
| `Containers.InsertNames` | src/docker/containers.rs:168-171 | the name loop inserts the status under every name key |
| `Containers.InsertContainer` | src/docker/containers.rs:166-177 | one container's inserts: its status under all its keys, over earlier entries |
| `Containers.BuildStatusLookup` | src/docker/containers.rs:163-178 | the loop builds exactly the specified lookup |
| `Containers.Reconciled` | src/docker/containers.rs:180-185 | only `status` changes; a lookup hit on the lowercased name sets it, and a miss leaves the service as it was |
| `Containers.MergeRuntimeStatus` | src/docker/containers.rs:160-188 | Err iff the listing failed, and then nothing changes; otherwise every service is reconciled in place |
| `Containers.ReconcileAll` | src/docker/containers.rs:180-185 | every service of the array becomes itself reconciled against the lookup, in place |
| `Writer.MapInsert` | src/compose/writer.rs:50-53 | `Mapping::insert` grows the mapping by at most one entry |
| `Writer.MapInsertGet` | src/compose/writer.rs:50-53 | after inserting, the key maps to the new value and every other key to its old one |
| `Writer.MapInsertIdempotent` | src/compose/writer.rs:50-53 | inserting the same pair twice is the same as inserting it once |
| `Writer.MapInsertNew` | src/compose/writer.rs:20-32 | a new key is appended at the end, so the labels keep the order they were inserted in |
| `Writer.StartDoc` | src/compose/writer.rs:11-17 | a missing file, or one that does not parse, gives the empty document; a parsed file gives its mapping |
| `Writer.WriteLcpFile` | src/compose/writer.rs:9-75 | a read failure or a write failure is an error; otherwise the written document is the edit of the starting document |
| `Writer.EntryWritten` | src/compose/writer.rs:34-54 | when `services` is absent or a mapping, `services[name]` afterwards is exactly the new entry, replacing any previous one |
| `Writer.OtherServicesKept` | src/compose/writer.rs:45-54 | other entries under `services` keep their values |
| `Writer.NonMappingServicesUntouched` | src/compose/writer.rs:49-54 | a `services` value that is not a mapping is left as it was, and no entry is written |
| `Writer.TopLevelKeys` | src/compose/writer.rs:56-67 | `networks` becomes `{caddy: {external: true}}` wholesale; every other top-level key keeps its value |
| `Writer.EditIdempotent` | src/compose/writer.rs:45-67 | writing the same route twice gives the same document as writing it once |
| `Writer.LabelsRoundTrip` | src/compose/writer.rs:20-32 | the written labels, decoded, give back exactly the route, for every u16 port |
| `Writer.LabelEntriesInOrder` | src/compose/writer.rs:20-32 | the labels are `caddy`, `caddy.reverse_proxy` = `{{upstreams PORT}}`, then `caddy.tls`, in that order |
| `Writer.LabelMapWritten` | src/compose/writer.rs:20-32 | as a string map, the labels hold the domain, the upstreams value and the TLS policy |
| `Writer.EntryHoldsLabels` | src/compose/writer.rs:34-42 | the service entry holds those labels and `networks: [caddy]` |
| `Writer.LabelKeysDiffer` | src/compose/writer.rs:22-30 | the three label keys are distinct, so no insert overwrites another |
| `Writer.PreviewUpToDomain` | src/compose/writer.rs:78-84 | the part of the preview up to the domain starts with the fixed header and the service name and ends with the `caddy:` line's domain |
| `Writer.PreviewFromProxy` | src/compose/writer.rs:85-92 | the part of the preview from the upstreams line to the end ends with the fixed networks block |
| `Writer.GeneratePreview` | src/compose/writer.rs:78-95 | the template filled in order with the service name, the domain, `{{upstreams PORT}}` and the TLS tag; so it starts with the header and name and ends with the networks block |
| `Writer.PreviewShowsStoredValues` | src/compose/writer.rs:78-95 | the preview shows the same domain, upstreams value and TLS policy that the written labels hold |
| `Admin.Strings` | src/caddy/admin.rs:56-60 | a string is kept iff it is a string element of the array; other elements are skipped |
| `Admin.Child` | src/caddy/admin.rs:62-69 | the values of an object and the elements of an array are strictly smaller trees |
| `Admin.HostsExactly` | src/caddy/admin.rs:52-73 | a string is collected iff some object at any depth has it in its `host` array |
| `Admin.ChildHostsExactly` | src/caddy/admin.rs:62-70 | the recursion over children collects a string iff some child's subtree lists it |
| `Admin.ExtractHosts` | src/caddy/admin.rs:51-73 | appends to `out` exactly the hosts of the tree, in visiting order (own `host` array first, then each child's), and changes nothing already there |
| `Admin.AppendOwnHosts` | src/caddy/admin.rs:53-60 | appends the string elements of the object's own `host` array, and nothing for any other value |
| `Admin.AppendStrings` | src/caddy/admin.rs:55-59 | pushes the string elements of the array, in order, skipping the others |
| `Admin.GetActiveDomains` | src/caddy/admin.rs:8-32 | only a client build failure is an error; an unreachable endpoint or an undecodable body gives `[]`; otherwise the result is strictly ascending and holds exactly the strings listed in some `host` array |
| `Discovery.Stored` | src/compose/discovery.rs:36 | the canonical path when canonicalisation succeeded, else the path as matched |
| `Discovery.FindComposeFiles` | src/compose/discovery.rs:8-45 | Err iff some pattern or entry failed; otherwise strictly ascending, and a path is in the result iff it is the stored path of a matched regular file whose file name is not excluded |
| `Discovery.ProductionContainsProd` | src/compose/discovery.rs:20 | a name containing `production` contains `prod` |
| `Discovery.DominatedByTwo` | src/compose/discovery.rs:20-34 | so the exclusion is exactly "contains `prod` or `staging`"; `production` adds nothing |
| `App.HandleKey` | src/app.rs:170-218 | Esc quits with no modal and closes any modal; no modal never gives a form, menu or close action; in a form every character is typed into it (even `q`) and only form actions, close or nothing result; the help modal only closes; in the caddy menu `j`/Down selects the next item modulo 3, `k`/Up the previous one stopping at 0, and Enter gives Start, Stop or Restart for selection 0, 1 or any other, and each of these commands arises only from that selection |
| `App.Listed` | src/app.rs:532-537 | `all_services`: the global list in the global view, else the project list |
| `App.Typed` | src/app.rs:295-300 | typing appends the character to the focused field only; focus and service index are unchanged |
| `App.Pop` | src/app.rs:301-312 | `String::pop`: removes the last character; an empty string stays empty |
| `App.Erased` | src/app.rs:301-312 | backspace pops the focused field only |
| `App.AddForm` | src/app.rs:472-496 | with an index in the list: focus 0, the index, TLS `internal`, default domain, the first available port (else 80) as text, add modal, and nothing else changes; with any other index nothing changes |
| `App.EditForm` | src/app.rs:498-530 | with an index in the list: focus 0, the index, edit modal, and nothing else changes; a routed service's domain, port text and TLS, or without a route the default domain, `80` and `internal`; with any other index nothing changes |
| `App.AtCursor` | src/app.rs:553-555 | `current_selected_service`: the entry under the cursor iff the cursor is inside the list |
| `App.Step` | src/app.rs:220-331 | no action changes the service lists or `has_project`; the cursor actions change only the cursor; the form actions change only the form |
| `App.StepKeepsValid` | src/app.rs:220-331 | every modelled action keeps the cursor inside the list (or at 0), the form focus below 3 and the menu selection below 3 |
| `App.PressKeepsValid` | src/app.rs:170-331 | so does every key press, each mapped by `handle_key` and then performed |
| `App.CursorBounds` | src/app.rs:232-249 | MoveDown moves by at most one and stays inside a nonempty list; MoveUp stops at 0; JumpBottom goes to the last entry |
| `App.FocusCycles` | src/app.rs:286-288 | three Tabs bring the form focus back to where it was |
| `App.BackFocusSaturates` | src/app.rs:289-291 | Shift-Tab decrements the focus and stops at 0 without wrapping |
| `App.TypeThenErase` | src/app.rs:295-312 | typing a character and then erasing one restores the form |
| `App.EraseEmpty` | src/app.rs:301-312 | backspace on an empty focused field changes nothing |
| `App.SwitchViewTwice` | src/app.rs:223-231 | with a project, two switches return to the same view with the cursor at 0; without one, switching changes nothing |
| `App.MenuCycles` | src/app.rs:198-203 | in the caddy menu, three `j` presses come back to the same item |
| `App.MenuEnter` | src/app.rs:204-208 | Enter in the caddy menu closes it, whichever command runs |
| `App.SavedConfig` | src/app.rs:375-380 | `save_proxy` reads the domain and TLS verbatim, and the port text as a u16, else 80 |
| `App.AddFormSavesDefaults` | src/app.rs:472-496 | confirming an untouched add form saves the default domain, the first available port (else 80) and `internal` |
| `App.EditFormSavesSameRoute` | src/app.rs:498-530 | confirming an untouched edit form saves exactly the route the service already had |
| `App.SaveTarget` | src/app.rs:383-398 | a file and name to save to exist iff the form's index is in the current list and the service comes from a compose file; a runtime service saves nothing |
| `App.Proxied` | src/app.rs:539-544 | exactly the entries that have a route |
| `App.Unproxied` | src/app.rs:546-551 | exactly the entries without a route |
| `App.ProxiedPartition` | src/app.rs:539-551 | the two filters split the list: their multisets add up to the list's, and so do their lengths |
| `App.ProxiedKeepsOrder` | src/app.rs:539-544 | filtering a concatenation concatenates the filtered parts, so list order is kept |
| `App.UnproxiedKeepsOrder` | src/app.rs:546-551 | the same for the entries without a route |
| `App.App.constructor` | src/app.rs:104-125 | the project view iff compose files were found; cursor and menu at 0; no modal; the default form; the invariant holds |
| `App.App.AllServices` | src/app.rs:532-537 | the list of the current view |
| `App.App.OpenAddForm` | src/app.rs:472-496 | the fields become AddForm of the old fields |
| `App.App.OpenEditForm` | src/app.rs:498-530 | the fields become EditForm of the old fields |
| `App.App.CloseModal` | src/app.rs:557-559 | only the modal changes, to none |
| `App.App.Execute` | src/app.rs:220-331 | the result says to quit iff the action is Quit; the fields become Step of the old fields |

## Left out

- I/O is not modelled: Docker's API, reading and writing files, globbing,
  `is_file`, `canonicalize`, HTTP and the clock. Their outcomes are parameters.
  - A container listing is a `Result<seq<Container>>`.
  - A glob is a function from pattern to outcome, with the directory already
    joined in.
  - An existing override file is absent, unreadable, or read and then parsed
    or not.
  - The override documents of `merge_lcp_configs` are a map from directory to
    parsed document. A directory missing from the map stands for a file that
    could not be read or parsed.
- YAML and JSON text parsing and serialisation are not modelled. Documents are
  value trees. A mapping keeps its insertion order, since `Mapping::insert`
  keeps an existing key in place.
- `parse_compose_file` is not modelled; it is file reading plus serde.
- The serialisation failure in `write_lcp_file` is not modelled separately. It
  folds into the same outcome as the write failure.
- `HashMap` iteration order is not pinned down:
  - `extract_services` visits the compose services in an arbitrary order, so
    only the set of produced services is stated, not their order.
  - The runtime `available_ports` come from a `HashSet`, so only "no repeats,
    same elements" is stated.
- Text.AsciiLower: Rust's `to_lowercase` also lowercases non-ASCII letters.
  The model lowercases only `A`-`Z`, in both the status lookup and the
  discovery filter.
- App.Execute: the `Refresh` and `FormConfirm` arms are outside its
  precondition. They reload everything from Docker and the compose files, and
  only `save_proxy`'s port default and its Runtime early return are modelled
  (SavedConfig, SaveTarget).
  - `OpenBrowser` changes no modelled field, since the browser call is I/O.
  - The caddy start, stop and restart commands are not modelled. Only the menu
    closing that follows them is.
- Fields that only I/O fills are not modelled: `caddy_status`,
  `caddy_control`, `compose_files`, `docker_client`, `active_domains` and
  `status_message`.
- App.App.constructor models only the end of `App::new`, which assembles the
  state. The connection, discovery, parsing and queries before it are not
  modelled.
- `save_proxy` calls `writer::add_caddy_labels` and
  `writer::write_compose_file`, which `compose/writer.rs` does not define.
  They are not part of this model; `write_lcp_file` is modelled instead.
- Error messages are not modelled. An `Err` carries an unspecified string,
  and the contracts state only when an error occurs.
- Not modelled at all:
  - The terminal UI under `ui/`.
  - `docker/client.rs`, `docker/compose.rs`, and the systemd and container
    control functions in `docker/containers.rs`.
  - `main.rs`.
  - `is_reachable` in `caddy/admin.rs`.
- Rust's `Path` ordering is modelled as lexicographic order on components,
  with each component compared as a string of characters. A path is its list of
  components.
- Admin.Child: a JSON object is its entries in iteration order, without
  duplicate keys, and `map.values()` visits them in that order.
