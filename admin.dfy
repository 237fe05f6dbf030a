/**
 * The host scan over the proxy's admin configuration: every string listed in a
 * `host` array anywhere in the JSON tree, then sorted with repeats removed. The
 * HTTP request and JSON decoding are outcomes given as input.
 */
module Admin {
  import opened Wrappers
  import opened Ordering

  /**
   * A JSON value. An object is its entries in iteration order (without
   * duplicate keys, the JSON map being keyed).
   */
  datatype Json =
    | JNull
    | JBool(b: bool)
    | JNum(n: real)
    | JStr(s: string)
    | JArr(items: seq<Json>)
    | JObj(entries: seq<(string, Json)>)

  const HostKey: string := "host"

  /** The string elements of an array, in order; other elements are skipped. */
  function Strings(items: seq<Json>): (r: seq<string>)
    ensures forall s :: s in r <==> JStr(s) in items
  {
    if |items| == 0 then []
    else
      var front := items[..|items| - 1];
      var last := items[|items| - 1];
      assert forall x :: x in items <==> x in front || x == last;
      Strings(front) + (if last.JStr? then [last.s] else [])
  }

  /** The strings of the node's own `host` array, if it is an object with one. */
  function OwnHosts(v: Json): seq<string> {
    if v.JObj? then
      match Lookup<string, Json>(v.entries, HostKey)
      case Some(JArr(arr)) => Strings(arr)
      case _ => []
    else []
  }

  function Width(v: Json): nat {
    match v
    case JObj(entries) => |entries|
    case JArr(items) => |items|
    case _ => 0
  }

  /** The child of an object or array at position `i`. */
  function Child(v: Json, i: nat): (c: Json)
    requires i < Width(v)
    ensures c < v
  {
    if v.JObj? then v.entries[i].1 else v.items[i]
  }

  /** The hosts `extract_hosts` appends for `v`, in the order it appends them. */
  function Hosts(v: Json): seq<string>
    decreases v, Width(v) + 1
  {
    OwnHosts(v) + ChildHosts(v, Width(v))
  }

  /** The hosts of the first `n` children of `v`, in order. */
  function ChildHosts(v: Json, n: nat): seq<string>
    requires n <= Width(v)
    decreases v, n
  {
    if n == 0 then [] else ChildHosts(v, n - 1) + Hosts(Child(v, n - 1))
  }

  /**
   * Reference reading: `s` is listed in the `host` array of `v` itself or of
   * some node below it.
   */
  ghost predicate ListedIn(v: Json, s: string)
    decreases v, 1
  {
    s in OwnHosts(v) || exists i :: ListedBelow(v, i, s)
  }

  /** `s` is listed at or below the child `i` of `v`. */
  ghost predicate ListedBelow(v: Json, i: int, s: string)
    decreases v, 0
  {
    0 <= i < Width(v) && ListedIn(Child(v, i), s)
  }

  /** A string is collected iff it is listed at some node of the tree. */
  lemma {:induction false} HostsExactly(v: Json, s: string)
    ensures s in Hosts(v) <==> ListedIn(v, s)
    decreases v, Width(v) + 1
  {
    ChildHostsExactly(v, Width(v), s);
    assert Hosts(v) == OwnHosts(v) + ChildHosts(v, Width(v));
    assert ListedIn(v, s) <==> s in OwnHosts(v) || exists i :: ListedBelow(v, i, s);
    if s in ChildHosts(v, Width(v)) {
      var i :| 0 <= i < Width(v) && ListedBelow(v, i, s);
      assert ListedIn(v, s);
    }
    if ListedIn(v, s) && s !in OwnHosts(v) {
      var i :| ListedBelow(v, i, s);
      assert 0 <= i < Width(v) && ListedIn(Child(v, i), s);
      assert exists j :: 0 <= j < Width(v) && ListedBelow(v, j, s);
    }
  }

  lemma {:induction false} ChildHostsExactly(v: Json, n: nat, s: string)
    requires n <= Width(v)
    ensures s in ChildHosts(v, n) <==> exists i :: 0 <= i < n && ListedBelow(v, i, s)
    decreases v, n
  {
    if n > 0 {
      var c := Child(v, n - 1);
      ChildHostsExactly(v, n - 1, s);
      HostsExactly(c, s);
      assert ChildHosts(v, n) == ChildHosts(v, n - 1) + Hosts(c);
      if s in ChildHosts(v, n) {
        if s in Hosts(c) {
          assert ListedBelow(v, n - 1, s);
        } else {
          var i :| 0 <= i < n - 1 && ListedBelow(v, i, s);
          assert 0 <= i < n && ListedBelow(v, i, s);
        }
        assert exists j :: 0 <= j < n && ListedBelow(v, j, s);
      }
      if exists i :: 0 <= i < n && ListedBelow(v, i, s) {
        var i :| 0 <= i < n && ListedBelow(v, i, s);
        if i < n - 1 {
          assert exists j :: 0 <= j < n - 1 && ListedBelow(v, j, s);
        } else {
          assert ListedIn(Child(v, i), s);
          assert s in Hosts(c);
        }
        assert s in ChildHosts(v, n);
      }
    }
  }

  /**
   * `extract_hosts`: `out` grows by the hosts of `v` and by nothing else, so what
   * it held before stays a prefix.
   */
  method ExtractHosts(v: Json, out: seq<string>) returns (out': seq<string>)
    ensures out' == out + Hosts(v)
    decreases v
  {
    out' := AppendOwnHosts(v, out);
    ghost var before := out';
    for j := 0 to Width(v)
      invariant out' == before + ChildHosts(v, j)
    {
      var c := Child(v, j);
      ghost var prev := out';
      out' := ExtractHosts(c, out');
      ChildHostsStep(v, j, before, prev, out');
    }
  }

  lemma ChildHostsStep(v: Json, j: nat, before: seq<string>, prev: seq<string>, next: seq<string>)
    requires j < Width(v)
    requires prev == before + ChildHosts(v, j)
    requires next == prev + Hosts(Child(v, j))
    ensures next == before + ChildHosts(v, j + 1)
  {
    assert ChildHosts(v, j + 1) == ChildHosts(v, j) + Hosts(Child(v, j));
  }

  /** The first half of `extract_hosts`: the strings of the node's own `host` array. */
  method AppendOwnHosts(v: Json, out: seq<string>) returns (out': seq<string>)
    ensures out' == out + OwnHosts(v)
  {
    out' := out;
    if v.JObj? {
      var own := Lookup(v.entries, HostKey);
      if own.Some? && own.value.JArr? {
        out' := AppendStrings(own.value.items, out');
      }
    }
  }

  /** The loop over one `host` array: its string elements pushed in order. */
  method AppendStrings(arr: seq<Json>, out: seq<string>) returns (out': seq<string>)
    ensures out' == out + Strings(arr)
  {
    out' := out;
    for j := 0 to |arr|
      invariant out' == out + Strings(arr[..j])
    {
      assert arr[..j + 1][..j] == arr[..j];
      if arr[j].JStr? {
        out' := out' + [arr[j].s];
      }
    }
    assert arr[..|arr|] == arr;
  }

  /** What the admin endpoint gave: a client that could not be built, no reply, a reply that is not JSON, or a JSON body. */
  datatype AdminReply = ClientUnavailable(reason: string) | RequestFailed | NotJson | Body(json: Json)

  /**
   * `get_active_domains`: the hosts of the body, ascending without repeats. An
   * unreachable endpoint or an undecodable body gives the empty list, not an
   * error; only a client that cannot be built is an error.
   */
  method GetActiveDomains(reply: AdminReply) returns (r: Result<seq<string>>)
    ensures r.Err? <==> reply.ClientUnavailable?
    ensures reply.RequestFailed? || reply.NotJson? ==> r == Ok([])
    ensures reply.Body? ==> r.Ok? && StrictlySorted(r.value, StrLess)
    ensures reply.Body? ==> forall s :: s in r.value <==> ListedIn(reply.json, s)
  {
    match reply {
      case ClientUnavailable(reason) => return Err(reason);
      case RequestFailed => return Ok([]);
      case NotJson => return Ok([]);
      case Body(json) =>
        var domains := ExtractHosts(json, []);
        StrLessIsOrder();
        domains := SortDedup(domains, StrLess);
        forall s ensures s in domains <==> ListedIn(json, s) {
          HostsExactly(json, s);
        }
        return Ok(domains);
    }
  }
}
