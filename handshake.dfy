/** Opening a session: the greeting, EHLO (or HELO for an older server),
    and the STARTTLS upgrade with the second EHLO it calls for. What an
    EHLO reply advertises is given as an EhloInfo, since reading it out of
    the reply text is not part of this model. */
module Handshake {
  import opened SmtpTypes
  import opened Text
  import opened ConnectDefaults
  import opened Commands
  import opened Replay

  /** What one EHLO reply advertises: the extensions, the SASL mechanisms
      named by AUTH, and the SIZE limit (0 when there is none). */
  datatype EhloInfo = EhloInfo(capabilities: set<Capability>, mechanisms: set<string>, maxSize: nat)

  const NoExtensions := EhloInfo({}, {}, 0)

  /** What a successful handshake negotiated, and whether the channel is
      secured. */
  datatype Session = Session(info: EhloInfo, secure: bool)

  /** How the handshake ended, with the stream as it was left. */
  datatype Opened = Opened(result: Result<Session>, wire: Wire)

  /** A name made only of digits and dots, such as an IPv4 address. */
  predicate IsAddressLiteral(s: string) {
    |s| > 0 && forall i :: 0 <= i < |s| ==> IsDigit(s[i]) || s[i] == '.'
  }

  /** The name the client introduces itself by: the configured local domain,
      bracketed when it is an address (section 4.1.3 of RFC 5321), or the
      bracketed local address when no domain, or an empty one, is
      configured. */
  function HelloDomain(localDomain: Option<string>, localAddress: string): (d: string)
    ensures localDomain.Some? && localDomain.value != "" && !IsAddressLiteral(localDomain.value)
      ==> d == localDomain.value
    ensures localDomain.Some? && IsAddressLiteral(localDomain.value) ==> d == "[" + localDomain.value + "]"
    ensures localDomain.None? || localDomain.value == "" ==> d == "[" + localAddress + "]"
    ensures d != ""
  {
    match localDomain
    case Some(name) =>
      if name == "" then "[" + localAddress + "]"
      else if IsAddressLiteral(name) then "[" + name + "]"
      else name
    case None => "[" + localAddress + "]"
  }

  function EhloCommand(domain: string): string { "EHLO " + domain + CRLF }

  function HeloCommand(domain: string): string { "HELO " + domain + CRLF }

  /** The greeting is what the server says before the client writes
      anything; the script's first entry expects the empty write. */
  const GreetingWrite: string := ""

  /** EHLO, and HELO when EHLO is refused; HELO negotiates no extension. */
  function Hello(w: Wire, domain: string, advertised: EhloInfo): (h: Opened)
    ensures h.result.Ok? ==> !h.result.value.secure
    ensures h.result.Ok? ==> h.result.value.info == advertised || h.result.value.info == NoExtensions
  {
    match AfterExchange(w, EhloCommand(domain))
    case Faulted(w1) => Opened(Err(ProtocolFault), w1)
    case Answered(reply, w1) =>
      if reply.code == ActionOk then Opened(Ok(Session(advertised, false)), w1)
      else
        match AfterExchange(w1, HeloCommand(domain))
        case Faulted(w2) => Opened(Err(ProtocolFault), w2)
        case Answered(helo, w2) =>
          if helo.code == ActionOk then Opened(Ok(Session(NoExtensions, false)), w2)
          else Opened(Err(Command(UnexpectedStatusCode, helo.code)), w2)
  }

  /** STARTTLS, answered 220, then EHLO again: the extensions offered over
      the secured channel replace those offered before it. */
  function Upgrade(w: Wire, domain: string, afterTls: EhloInfo): (h: Opened)
    ensures h.result.Ok? ==> h.result.value.secure
  {
    match AfterExchange(w, StartTlsCommand)
    case Faulted(w1) => Opened(Err(ProtocolFault), w1)
    case Answered(reply, w1) =>
      if reply.code != ServiceReady then Opened(Err(Command(UnexpectedStatusCode, reply.code)), w1)
      else
        var h := Hello(w1, domain, afterTls);
        match h.result
        case Err(_) => h
        case Ok(session) => Opened(Ok(Session(session.info, true)), h.wire)
  }

  /** The whole handshake for resolved connection parameters. */
  function Open(w: Wire, domain: string, resolved: DefaultValues, advertised: EhloInfo, afterTls: EhloInfo)
    : Opened
  {
    match AfterExchange(w, GreetingWrite)
    case Faulted(w1) => Opened(Err(ProtocolFault), w1)
    case Answered(greeting, w1) =>
      if greeting.code != ServiceReady then Opened(Err(Command(UnexpectedStatusCode, greeting.code)), w1)
      else
        var h := Hello(w1, domain, advertised);
        match h.result
        case Err(_) => h
        case Ok(session) =>
          if resolved.starttls && StartTLS in session.info.capabilities then Upgrade(h.wire, domain, afterTls)
          else if resolved.options == StartTls then Opened(Err(NotSupported), h.wire)
          else Opened(Ok(Session(session.info, resolved.options == SslOnConnect)), h.wire)
  }

  // ---- The handshake on the stream ----

  method SayHello(stream: ReplayStream, domain: string, advertised: EhloInfo) returns (r: Result<Session>)
    modifies stream
    ensures Opened(r, stream.State()) == Hello(old(stream.State()), domain, advertised)
  {
    var reply := stream.Exchange(EhloCommand(domain));
    if reply.None? {
      return Err(ProtocolFault);
    }
    if reply.value.code == ActionOk {
      return Ok(Session(advertised, false));
    }
    var helo := stream.Exchange(HeloCommand(domain));
    if helo.None? {
      return Err(ProtocolFault);
    }
    if helo.value.code == ActionOk {
      return Ok(Session(NoExtensions, false));
    }
    r := Err(Command(UnexpectedStatusCode, helo.value.code));
  }

  method UpgradeSession(stream: ReplayStream, domain: string, afterTls: EhloInfo) returns (r: Result<Session>)
    modifies stream
    ensures Opened(r, stream.State()) == Upgrade(old(stream.State()), domain, afterTls)
  {
    var reply := stream.Exchange(StartTlsCommand);
    if reply.None? {
      return Err(ProtocolFault);
    }
    if reply.value.code != ServiceReady {
      return Err(Command(UnexpectedStatusCode, reply.value.code));
    }
    r := SayHello(stream, domain, afterTls);
    if r.Ok? {
      r := Ok(Session(r.value.info, true));
    }
  }

  method OpenSession(stream: ReplayStream, domain: string, resolved: DefaultValues, advertised: EhloInfo,
                     afterTls: EhloInfo) returns (r: Result<Session>)
    modifies stream
    ensures Opened(r, stream.State()) == Open(old(stream.State()), domain, resolved, advertised, afterTls)
  {
    var greeting := stream.Exchange(GreetingWrite);
    if greeting.None? {
      return Err(ProtocolFault);
    }
    if greeting.value.code != ServiceReady {
      return Err(Command(UnexpectedStatusCode, greeting.value.code));
    }
    r := SayHello(stream, domain, advertised);
    if r.Err? {
      return;
    }
    if resolved.starttls && StartTLS in r.value.info.capabilities {
      r := UpgradeSession(stream, domain, afterTls);
    } else if resolved.options == SecureSocketOptions.StartTls {
      r := Err(NotSupported);
    } else {
      r := Ok(Session(r.value.info, resolved.options == SslOnConnect));
    }
  }

  // ---- Properties of the handshake ----

  /** A session opened with STARTTLS required is always secured: either the
      upgrade succeeded or the connection was refused as unsupported. */
  lemma RequiredTlsIsHonoured(w: Wire, domain: string, port: nat, advertised: EhloInfo, afterTls: EhloInfo)
    ensures var resolved := ComputeDefaultValues(port, SecureSocketOptions.StartTls);
      var h := Open(w, domain, resolved, advertised, afterTls);
      h.result.Ok? ==> h.result.value.secure
  {
  }

  /** Without STARTTLS the session negotiates what the first EHLO offered
      (or nothing, after HELO), and is secured only by TLS on connect. */
  lemma NoUpgradeKeepsFirstOffer(w: Wire, domain: string, resolved: DefaultValues, advertised: EhloInfo,
                                 afterTls: EhloInfo)
    requires !resolved.starttls
    ensures var h := Open(w, domain, resolved, advertised, afterTls);
      h.result.Ok? ==>
        (h.result.value.info == advertised || h.result.value.info == NoExtensions)
        && (h.result.value.secure <==> resolved.options == SslOnConnect)
  {
  }

  /** The replayed connection of the client's tests: greeting 220 and EHLO
      250 establish a plain session with what EHLO offered, after exactly
      two writes. */
  lemma GreetingAndEhlo(w: Wire, domain: string, advertised: EhloInfo, afterTls: EhloInfo)
    requires w.pending == [] && ScriptedLines(w, [GreetingWrite, EhloCommand(domain)])
    requires var rs := RepliesAt(w, 2); rs[0].code == ServiceReady && rs[1].code == ActionOk
    ensures Open(w, domain, ComputeDefaultValues(25, SecureSocketOptions.None), advertised, afterTls)
      == Opened(Ok(Session(advertised, false)), Played(w, [GreetingWrite, EhloCommand(domain)]))
  {
    SplitScript(w, [GreetingWrite], [EhloCommand(domain)]);
    PlayOne(w, GreetingWrite);
    PlayOne(Played(w, [GreetingWrite]), EhloCommand(domain));
    PlayedTwice(w, [GreetingWrite], [EhloCommand(domain)]);
  }

  /** An older server refuses EHLO and accepts HELO: the session is open,
      with no extension at all. */
  lemma HeloFallback(w: Wire, domain: string, advertised: EhloInfo, afterTls: EhloInfo)
    requires w.pending == []
    requires ScriptedLines(w, [GreetingWrite, EhloCommand(domain), HeloCommand(domain)])
    requires var rs := RepliesAt(w, 3);
      rs[0].code == ServiceReady && rs[1].code != ActionOk && rs[2].code == ActionOk
    ensures var lines := [GreetingWrite, EhloCommand(domain), HeloCommand(domain)];
      Open(w, domain, ComputeDefaultValues(25, SecureSocketOptions.None), advertised, afterTls)
      == Opened(Ok(Session(NoExtensions, false)), Played(w, lines))
  {
    var w1 := Played(w, [GreetingWrite]);
    var w2 := Played(w1, [EhloCommand(domain)]);
    SplitScript(w, [GreetingWrite], [EhloCommand(domain), HeloCommand(domain)]);
    SplitScript(w1, [EhloCommand(domain)], [HeloCommand(domain)]);
    PlayOne(w, GreetingWrite);
    PlayOne(w1, EhloCommand(domain));
    PlayOne(w2, HeloCommand(domain));
    PlayedTwice(w1, [EhloCommand(domain)], [HeloCommand(domain)]);
    PlayedTwice(w, [GreetingWrite], [EhloCommand(domain), HeloCommand(domain)]);
  }

  /** STARTTLS offered and wanted: after the upgrade the second EHLO's
      offer replaces the first, and the session is secured. */
  lemma UpgradeReplacesOffer(w: Wire, domain: string, port: nat, advertised: EhloInfo, afterTls: EhloInfo)
    requires StartTLS in advertised.capabilities && w.pending == []
    requires ScriptedLines(w, [GreetingWrite, EhloCommand(domain), StartTlsCommand, EhloCommand(domain)])
    requires var rs := RepliesAt(w, 4);
      rs[0].code == ServiceReady && rs[1].code == ActionOk && rs[2].code == ServiceReady && rs[3].code == ActionOk
    ensures var lines := [GreetingWrite, EhloCommand(domain), StartTlsCommand, EhloCommand(domain)];
      Open(w, domain, ComputeDefaultValues(port, StartTlsWhenAvailable), advertised, afterTls)
      == Opened(Ok(Session(afterTls, true)), Played(w, lines))
  {
    var ehlo := EhloCommand(domain);
    var w1 := Played(w, [GreetingWrite]);
    var w2 := Played(w1, [ehlo]);
    var w3 := Played(w2, [StartTlsCommand]);
    SplitScript(w, [GreetingWrite], [ehlo, StartTlsCommand, ehlo]);
    SplitScript(w1, [ehlo], [StartTlsCommand, ehlo]);
    SplitScript(w2, [StartTlsCommand], [ehlo]);
    PlayOne(w, GreetingWrite);
    PlayOne(w1, ehlo);
    PlayOne(w2, StartTlsCommand);
    PlayOne(w3, ehlo);
    PlayedTwice(w2, [StartTlsCommand], [ehlo]);
    PlayedTwice(w1, [ehlo], [StartTlsCommand, ehlo]);
    PlayedTwice(w, [GreetingWrite], [ehlo, StartTlsCommand, ehlo]);
  }

  /** STARTTLS required but not offered: the connection is refused as
      unsupported right after EHLO, before anything is sent in the clear. */
  lemma RequiredTlsNotOffered(w: Wire, domain: string, port: nat, advertised: EhloInfo, afterTls: EhloInfo)
    requires StartTLS !in advertised.capabilities && w.pending == []
    requires ScriptedLines(w, [GreetingWrite, EhloCommand(domain)])
    requires var rs := RepliesAt(w, 2); rs[0].code == ServiceReady && rs[1].code == ActionOk
    ensures Open(w, domain, ComputeDefaultValues(port, SecureSocketOptions.StartTls), advertised, afterTls)
      == Opened(Err(NotSupported), Played(w, [GreetingWrite, EhloCommand(domain)]))
  {
    SplitScript(w, [GreetingWrite], [EhloCommand(domain)]);
    PlayOne(w, GreetingWrite);
    PlayOne(Played(w, [GreetingWrite]), EhloCommand(domain));
    PlayedTwice(w, [GreetingWrite], [EhloCommand(domain)]);
  }
}
