/**
 * Facts about the fixed text around the port in the reverse-proxy value
 * `{{upstreams N}}`: it has no surrounding whitespace, it mentions `upstreams`
 * and it holds no digit of its own.
 */
module UpstreamsText {
  import opened Text

  const UpstreamsOpen: string := "{{upstreams "
  const UpstreamsClose: string := "}}"

  lemma UpstreamsTrimmed(dec: string)
    ensures Trim(UpstreamsOpen + dec + UpstreamsClose) == UpstreamsOpen + dec + UpstreamsClose
  {
    var v := UpstreamsOpen + dec + UpstreamsClose;
    assert v[0] == '{' && v[|v| - 1] == '}';
    TrimEnds(v);
  }

  lemma UpstreamsMentioned(dec: string)
    ensures Contains(UpstreamsOpen + dec + UpstreamsClose, "upstreams")
  {
    assert UpstreamsOpen + dec + UpstreamsClose == "{{" + "upstreams" + (" " + dec + UpstreamsClose);
    ContainsInfix("{{", "upstreams", " " + dec + UpstreamsClose);
  }

  lemma OpenHasNoDigits()
    ensures DigitsOf(UpstreamsOpen) == ""
  {
    DigitsOfNoDigits(UpstreamsOpen);
  }

  lemma CloseHasNoDigits()
    ensures DigitsOf(UpstreamsClose) == ""
  {
    DigitsOfNoDigits(UpstreamsClose);
  }

  lemma UpstreamsDigits(dec: string)
    requires AllDigits(dec)
    ensures DigitsOf(UpstreamsOpen + dec + UpstreamsClose) == dec
  {
    DigitsOfAppend(UpstreamsOpen + dec, UpstreamsClose);
    DigitsOfAppend(UpstreamsOpen, dec);
    OpenHasNoDigits();
    CloseHasNoDigits();
    DigitsOfAllDigits(dec);
  }

  const UpstreamsBare: string := "{{upstreams}}"

  lemma BareTrimmed()
    ensures Trim(UpstreamsBare) == UpstreamsBare
  {
    assert UpstreamsBare[0] == '{' && UpstreamsBare[|UpstreamsBare| - 1] == '}';
    TrimEnds(UpstreamsBare);
  }

  lemma BareMentioned()
    ensures Contains(UpstreamsBare, "upstreams")
  {
    assert UpstreamsBare == "{{" + "upstreams" + UpstreamsClose;
    ContainsInfix("{{", "upstreams", UpstreamsClose);
  }

  lemma BareHasNoDigits()
    ensures DigitsOf(UpstreamsBare) == ""
  {
    DigitsOfNoDigits(UpstreamsBare);
  }
}
