/** Resolution of the port and security option that a Connect call leaves
    open, and the URI that describes the resulting connection. */
module ConnectDefaults {
  import Text

  /** How the transport is secured: not at all, by TLS on connect, or by a
      STARTTLS upgrade that is mandatory or opportunistic; Auto picks one. */
  datatype SecureSocketOptions = None | Auto | SslOnConnect | StartTlsWhenAvailable | StartTls

  const SubmissionPort: nat := 25
  const SecurePort: nat := 465

  /** The resolved connection parameters. `pathAndQuery` is the URI's path
      and query, `/` or `/?starttls=...`. */
  datatype DefaultValues = DefaultValues(
    port: nat, options: SecureSocketOptions, scheme: string, pathAndQuery: string, starttls: bool)

  function ResolveOptions(port: nat, options: SecureSocketOptions): SecureSocketOptions {
    if options == Auto then (if port == SecurePort then SslOnConnect else StartTlsWhenAvailable)
    else options
  }

  function PathAndQuery(options: SecureSocketOptions): string {
    match options
    case StartTls => "/?starttls=always"
    case StartTlsWhenAvailable => "/?starttls=when-available"
    case _ => "/"
  }

  /** Fills in the default port and the concrete security option. */
  function ComputeDefaultValues(port: nat, options: SecureSocketOptions): (r: DefaultValues)
    ensures r.options != Auto
    ensures options != Auto ==> r.options == options
    ensures options == Auto ==> (r.options == SslOnConnect <==> port == SecurePort)
    ensures options == Auto && port != SecurePort ==> r.options == StartTlsWhenAvailable
    ensures port != 0 ==> r.port == port
    ensures port == 0 && r.options == SslOnConnect ==> r.port == SecurePort
    ensures port == 0 && r.options != SslOnConnect ==> r.port == SubmissionPort
    ensures r.scheme == "smtps" <==> r.options == SslOnConnect
    ensures r.scheme == "smtp" <==> r.options != SslOnConnect
    ensures r.starttls <==> r.options == StartTls || r.options == StartTlsWhenAvailable
    ensures r.starttls ==> r.scheme == "smtp"
  {
    var resolved := ResolveOptions(port, options);
    var p := if port != 0 then port else if resolved == SslOnConnect then SecurePort else SubmissionPort;
    DefaultValues(
      p, resolved,
      if resolved == SslOnConnect then "smtps" else "smtp",
      PathAndQuery(resolved),
      resolved == StartTls || resolved == StartTlsWhenAvailable)
  }

  /** The connection URI, `scheme://host:port/` followed by the query. */
  function Uri(host: string, r: DefaultValues): string {
    r.scheme + "://" + host + ":" + Text.NatToString(r.port) + r.pathAndQuery
  }

  /** Reads the security option back from a URI's scheme and query, in the
      order the client's URI-based Connect applies them. */
  function OptionsFromUri(scheme: string, pathAndQuery: string): SecureSocketOptions {
    if pathAndQuery == "/?starttls=when-available" then StartTlsWhenAvailable
    else if pathAndQuery == "/?starttls=always" then StartTls
    else if scheme == "smtps" then SslOnConnect
    else None
  }

  /** The URI describes the resolved option exactly: reading the option back
      from it gives what was resolved, for every port and option. */
  lemma UriDeterminesOptions(port: nat, options: SecureSocketOptions)
    ensures var r := ComputeDefaultValues(port, options);
      OptionsFromUri(r.scheme, r.pathAndQuery) == r.options
  {
  }

  /** Resolving already-resolved values changes nothing. */
  lemma ResolutionIsIdempotent(port: nat, options: SecureSocketOptions)
    ensures var r := ComputeDefaultValues(port, options);
      ComputeDefaultValues(r.port, r.options) == r
  {
  }

  /** The fifteen rows of the client's table of defaults, three ports per
      option: resolved port, option, scheme, path and query, STARTTLS flag. */
  lemma DefaultValuesTable()
    ensures ComputeDefaultValues(0, None) == DefaultValues(25, None, "smtp", "/", false)
    ensures ComputeDefaultValues(25, None) == DefaultValues(25, None, "smtp", "/", false)
    ensures ComputeDefaultValues(465, None) == DefaultValues(465, None, "smtp", "/", false)
    ensures ComputeDefaultValues(0, SslOnConnect) == DefaultValues(465, SslOnConnect, "smtps", "/", false)
    ensures ComputeDefaultValues(25, SslOnConnect) == DefaultValues(25, SslOnConnect, "smtps", "/", false)
    ensures ComputeDefaultValues(465, SslOnConnect) == DefaultValues(465, SslOnConnect, "smtps", "/", false)
    ensures ComputeDefaultValues(0, StartTls) == DefaultValues(25, StartTls, "smtp", "/?starttls=always", true)
    ensures ComputeDefaultValues(25, StartTls) == DefaultValues(25, StartTls, "smtp", "/?starttls=always", true)
    ensures ComputeDefaultValues(465, StartTls) == DefaultValues(465, StartTls, "smtp", "/?starttls=always", true)
    ensures ComputeDefaultValues(0, StartTlsWhenAvailable)
      == DefaultValues(25, StartTlsWhenAvailable, "smtp", "/?starttls=when-available", true)
    ensures ComputeDefaultValues(25, StartTlsWhenAvailable)
      == DefaultValues(25, StartTlsWhenAvailable, "smtp", "/?starttls=when-available", true)
    ensures ComputeDefaultValues(465, StartTlsWhenAvailable)
      == DefaultValues(465, StartTlsWhenAvailable, "smtp", "/?starttls=when-available", true)
    ensures ComputeDefaultValues(0, Auto)
      == DefaultValues(25, StartTlsWhenAvailable, "smtp", "/?starttls=when-available", true)
    ensures ComputeDefaultValues(25, Auto)
      == DefaultValues(25, StartTlsWhenAvailable, "smtp", "/?starttls=when-available", true)
    ensures ComputeDefaultValues(465, Auto) == DefaultValues(465, SslOnConnect, "smtps", "/", false)
  {
  }

  /** The implicit-TLS port as it appears in a URI. */
  lemma SecurePortText()
    ensures Text.NatToString(SecurePort) == "465"
  {
    assert Text.NatToString(4) == "4";
    assert Text.NatToString(46) == "46";
  }

  /** One row of the table written out as its URI. */
  lemma SecureDefaultUri()
    ensures Uri("smtp.skyfall.net", ComputeDefaultValues(0, SslOnConnect)) == "smtps://smtp.skyfall.net:465/"
  {
    var r := ComputeDefaultValues(0, SslOnConnect);
    assert r.port == 465;
    SecurePortText();
    assert r.scheme == "smtps" && r.pathAndQuery == "/";
    assert "smtps" + "://" == "smtps://";
    assert "smtps://" + "smtp.skyfall.net" == "smtps://smtp.skyfall.net";
    assert "smtps://smtp.skyfall.net" + ":" == "smtps://smtp.skyfall.net:";
    assert "smtps://smtp.skyfall.net:" + "465" == "smtps://smtp.skyfall.net:465";
    assert "smtps://smtp.skyfall.net:465" + "/" == "smtps://smtp.skyfall.net:465/";
  }
}
