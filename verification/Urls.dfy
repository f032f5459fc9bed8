/** Endpoints of requests and the origins that connections are made to. */
module Urls {
  import opened Wrappers

  /** A parsed URL; host is everything of the authority but the port. */
  datatype Url = Url(scheme: string, host: string, port: Option<string>, target: string)

  datatype UrlError = ProtocolNotSupported

  datatype Origin = Origin(scheme: string, host: string, port: Option<string>)

  function OriginOf(u: Url): Origin {
    Origin(u.scheme, u.host, u.port)
  }

  function FromOrigin(o: Origin): Url {
    Url(o.scheme, o.host, o.port, "")
  }

  function DefaultPort(scheme: string): string {
    if scheme == "https" then "443" else "80"
  }

  function MakeHttpHttpsUrl(u: Url): Result<Url, UrlError> {
    if u.scheme != "https" && u.scheme != "http" then Err(ProtocolNotSupported)
    else if u.port.None? then Ok(u.(port := Some(DefaultPort(u.scheme))))
    else Ok(u)
  }

  /** An endpoint as the client keeps it: it went through MakeHttpHttpsUrl. */
  predicate IsNormal(u: Url) {
    (u.scheme == "https" || u.scheme == "http") && u.port.Some?
  }

  /** Normal URLs are exactly the results, and exactly what the function leaves alone. */
  lemma NormalExactly(u: Url)
    ensures MakeHttpHttpsUrl(u).Ok? ==> IsNormal(MakeHttpHttpsUrl(u).value)
    ensures MakeHttpHttpsUrl(u) == Ok(u) <==> IsNormal(u)
  {
  }

  /** Connecting to the origin of an endpoint normalises to the same origin and scheme. */
  lemma OriginStable(u: Url)
    requires IsNormal(u)
    ensures var c := MakeHttpHttpsUrl(FromOrigin(OriginOf(u)));
            c.Ok? && IsNormal(c.value) && OriginOf(c.value) == OriginOf(u) && c.value.scheme == u.scheme
  {
  }

  /** The port that a URL means, whether it names one or not. */
  function EffectivePort(u: Url): string {
    match u.port
    case Some(p) => p
    case None => DefaultPort(u.scheme)
  }

  /** A default port that is left out and one that is written out give the same origin. */
  lemma SameOriginExactly(u: Url, v: Url)
    requires MakeHttpHttpsUrl(u).Ok? && MakeHttpHttpsUrl(v).Ok?
    ensures OriginOf(MakeHttpHttpsUrl(u).value) == OriginOf(MakeHttpHttpsUrl(v).value) <==>
            u.scheme == v.scheme && u.host == v.host && EffectivePort(u) == EffectivePort(v)
  {
  }

  /** What becomes of a URL: http and https only; a port that is named stays, one that is not is 80
      or 443; everything else stays. */
  lemma NormalisedExactly(u: Url)
    ensures MakeHttpHttpsUrl(u).Ok? <==> u.scheme == "http" || u.scheme == "https"
    ensures var port := if u.port.Some? then u.port.value else if u.scheme == "https" then "443" else "80";
            MakeHttpHttpsUrl(u).Ok? ==> MakeHttpHttpsUrl(u) == Ok(Url(u.scheme, u.host, Some(port), u.target))
  {
  }
}
