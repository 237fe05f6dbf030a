/**
 * The reverse-proxy label decoder: from a canonical label map to an optional
 * route. `src/compose/parser.rs` and `src/docker/containers.rs` each carry a
 * copy of `parse_caddy_labels` and `parse_port_from_reverse_proxy`; the two
 * copies are the same code (their statements agree; only comments, visibility
 * and the `HashMap` path differ), so this module defines them once for both callers.
 */
module Labels {
  import opened Wrappers
  import opened Text
  import opened Model
  import opened UpstreamsText

  const CaddyKey: string := "caddy"
  const ReverseProxyKey: string := "caddy.reverse_proxy"
  const TlsKey: string := "caddy.tls"

  /**
   * `parse_port_from_reverse_proxy`. A value mentioning `upstreams` gives the
   * number spelled by all its ASCII digits; any other value gives the number
   * after its last `:`. Port 0 is accepted: there is no 1..65535 check.
   */
  function ParsePortFromReverseProxy(value: string): (r: Option<U16>)
    ensures Contains(Trim(value), "upstreams") && DigitsOf(Trim(value)) == "" ==> r.None?
    ensures !Contains(Trim(value), "upstreams") && r.Some? ==> |AfterLast(Trim(value), ':')| > 0
    // With `upstreams`: all the digits, read as one number, refused above 65535.
    ensures Contains(Trim(value), "upstreams") ==>
      (r.Some? <==> |DigitsOf(Trim(value))| > 0 && DecimalValue(DigitsOf(Trim(value))) <= 65535)
    ensures Contains(Trim(value), "upstreams") && r.Some? ==> r.value == DecimalValue(DigitsOf(Trim(value)))
    // Without it: the trimmed text after the last colon, less one leading `+`.
    ensures !Contains(Trim(value), "upstreams") ==>
      (r.Some? <==> PortText(value) != "" && AllDigits(PortText(value)) && DecimalValue(PortText(value)) <= 65535)
    ensures !Contains(Trim(value), "upstreams") && r.Some? ==> r.value == DecimalValue(PortText(value))
  {
    var trimmed := Trim(value);
    if Contains(trimmed, "upstreams") then UpstreamsPort(trimmed) else ColonPort(trimmed)
  }

  /** The `upstreams` arm, on the trimmed value. */
  function UpstreamsPort(t: string): (r: Option<U16>)
    ensures r.Some? <==> |DigitsOf(t)| > 0 && DecimalValue(DigitsOf(t)) <= 65535
    ensures r.Some? ==> r.value == DecimalValue(DigitsOf(t))
  {
    var digits := DigitsOf(t);
    if |digits| > 0 then UnsignedDigits(digits); ParseU16(digits) else None
  }

  /** The colon arm, on the trimmed value. */
  function ColonPort(t: string): (r: Option<U16>)
    ensures r.Some? ==> |AfterLast(t, ':')| > 0
    ensures r.Some? <==> AfterColon(t) != "" && AllDigits(AfterColon(t)) && DecimalValue(AfterColon(t)) <= 65535
    ensures r.Some? ==> r.value == DecimalValue(AfterColon(t))
  {
    ParseU16(Trim(AfterLast(t, ':')))
  }

  /** The trimmed text after the last colon, less one leading `+`. */
  function AfterColon(t: string): (r: string)
    ensures |r| <= |t|
  {
    Unsigned(Trim(AfterLast(t, ':')))
  }

  /** The digits a value without `upstreams` is read from. */
  function PortText(value: string): (r: string)
    ensures |r| <= |value|
  {
    AfterColon(Trim(value))
  }

  /** `{{upstreams N}}` with a digit string N above 65535 decodes to no port. */
  lemma UpstreamsOverflow(dec: string)
    requires |dec| > 0 && AllDigits(dec) && DecimalValue(dec) > 65535
    ensures ParsePortFromReverseProxy(UpstreamsOpen + dec + UpstreamsClose) == None
  {
    UpstreamsTrimmed(dec);
    UpstreamsMentioned(dec);
    UpstreamsDigits(dec);
  }

  /** The value the override writer stores under `caddy.reverse_proxy`. */
  function UpstreamsValue(port: U16): string {
    "{{upstreams " + ToDecimal(port) + "}}"
  }

  /** `{{upstreams N}}` decodes to N, for every u16 N. */
  lemma UpstreamsRoundTrip(port: U16)
    ensures ParsePortFromReverseProxy(UpstreamsValue(port)) == Some(port)
  {
    var dec := ToDecimal(port);
    assert UpstreamsValue(port) == UpstreamsOpen + dec + UpstreamsClose;
    UpstreamsTrimmed(dec);
    UpstreamsMentioned(dec);
    UpstreamsDigits(dec);
    ParseU16RoundTrip(port);
  }

  /** `{{upstreams}}` (no digits at all) decodes to no port. */
  lemma UpstreamsWithoutDigits()
    ensures ParsePortFromReverseProxy(UpstreamsBare) == None
  {
    BareTrimmed();
    BareMentioned();
    BareHasNoDigits();
  }

  /** Proof step: a trimmed value without `upstreams` takes the colon arm. */
  lemma ColonForm(v: string)
    requires Trim(v) == v && !Contains(v, "upstreams")
    ensures ParsePortFromReverseProxy(v) == ParseU16(Trim(AfterLast(v, ':')))
  {
  }

  /** `host:N` and `:N` decode to N: the text after the last colon. */
  lemma HostPortForm(host: string, port: U16)
    requires forall i :: 0 <= i < |host| ==> !IsWhitespace(host[i])
    requires !Contains(host + ":" + ToDecimal(port), "upstreams")
    ensures ParsePortFromReverseProxy(host + ":" + ToDecimal(port)) == Some(port)
  {
    var dec := ToDecimal(port);
    HostPortTrimmed(host, dec);
    ColonForm(host + ":" + dec);
    DigitsHaveNoColon(dec);
    AfterLastOfSuffix(host + ":", dec, ':');
    DigitsTrimmed(dec);
    ParseU16RoundTrip(port);
  }

  lemma HostPortTrimmed(host: string, dec: string)
    requires forall i :: 0 <= i < |host| ==> !IsWhitespace(host[i])
    requires |dec| > 0 && AllDigits(dec)
    ensures Trim(host + ":" + dec) == host + ":" + dec
  {
    var v := host + ":" + dec;
    assert v[0] == (if |host| > 0 then host[0] else ':');
    assert v[|v| - 1] == dec[|dec| - 1];
    TrimEnds(v);
  }

  lemma DigitsHaveNoColon(dec: string)
    requires AllDigits(dec)
    ensures ':' !in dec
  {
  }

  lemma DigitsTrimmed(dec: string)
    requires |dec| > 0 && AllDigits(dec)
    ensures Trim(dec) == dec
  {
    assert IsAsciiDigit(dec[0]) && IsAsciiDigit(dec[|dec| - 1]);
    TrimEnds(dec);
  }

  /** A value ending in a colon (`host:`) decodes to no port. */
  lemma TrailingColonForm(host: string)
    requires forall i :: 0 <= i < |host| ==> !IsWhitespace(host[i])
    requires !Contains(host + ":", "upstreams")
    ensures ParsePortFromReverseProxy(host + ":") == None
  {
    ColonTrimmed(host);
    ColonForm(host + ":");
    NothingAfterColon(host);
  }

  lemma ColonTrimmed(host: string)
    requires forall i :: 0 <= i < |host| ==> !IsWhitespace(host[i])
    ensures Trim(host + ":") == host + ":"
  {
    var v := host + ":";
    assert v[0] == (if |host| > 0 then host[0] else ':');
    assert v[|v| - 1] == ':';
    TrimEnds(v);
  }

  lemma NothingAfterColon(host: string)
    ensures ParseU16(Trim(AfterLast(host + ":", ':'))) == None
  {
    var v := host + ":";
    assert v[|v| - 1] == ':';
    assert AfterLast(v, ':') == "";
    assert Trim("") == "";
  }

  /**
   * `parse_caddy_labels`: a route exists iff both `caddy` (the domain, taken
   * verbatim) and `caddy.reverse_proxy` are present and its port decodes; the
   * TLS tag is `caddy.tls`, or `internal` without it.
   */
  function ParseCaddyLabels(labels: map<string, string>): (r: Option<ProxyConfig>)
    ensures r.Some? <==>
      CaddyKey in labels && ReverseProxyKey in labels
      && ParsePortFromReverseProxy(labels[ReverseProxyKey]).Some?
    ensures r.Some? ==>
      && r.value.domain == labels[CaddyKey]
      && r.value.port == ParsePortFromReverseProxy(labels[ReverseProxyKey]).value
      && r.value.tls == (if TlsKey in labels then labels[TlsKey] else DefaultTls)
  {
    if CaddyKey !in labels || ReverseProxyKey !in labels then None
    else
      var port := ParsePortFromReverseProxy(labels[ReverseProxyKey]);
      if port.None? then None
      else
        var tls := if TlsKey in labels then labels[TlsKey] else DefaultTls;
        Some(ProxyConfig(labels[CaddyKey], port.value, tls))
  }
}
