/** The SMTP client object: the session it holds, the checks every public
    operation makes before it touches the stream, and the operations
    themselves, each run on the replay stream the session was opened on.
    The client's exceptions are Err values; an Err(ProtocolFault) drops the
    session, as a broken connection does. */
module Client {
  import opened SmtpTypes
  import opened Text
  import ConnectDefaults
  import opened Commands
  import opened Replay
  import opened Transaction
  import opened Handshake
  import opened Authentication

  /** The I/O timeout of a new client, in milliseconds. */
  const DefaultTimeout: int := 100000

  /** The highest TCP port number. */
  const MaxPort: int := 65535

  /** A message as the client reads it: the Sender and From headers, the
      To, Cc and Bcc addresses, the Message-Id, the body's transfer
      encoding, and the serialised content. */
  datatype Message = Message(
    sender: Option<string>, from: seq<string>, to: seq<string>, cc: seq<string>, bcc: seq<string>,
    messageId: Option<string>, body: BodyType, data: Octets)

  /** The envelope sender: Sender, or else the first From address. */
  function MessageSender(m: Message): Option<string> {
    if m.sender.Some? then m.sender else if |m.from| > 0 then Some(m.from[0]) else None
  }

  /** The position where an address first appears. */
  function FirstIndex(s: seq<string>, x: string): (k: nat)
    requires x in s
    ensures k < |s| && s[k] == x
    ensures forall j :: 0 <= j < k ==> s[j] != x
  {
    if s[0] == x then 0 else 1 + FirstIndex(s[1..], x)
  }

  /** An address's first position is the same in any prefix holding it. */
  lemma {:induction false} FirstIndexInPrefix(s: seq<string>, n: nat, x: string)
    requires n <= |s| && x in s[..n]
    ensures FirstIndex(s, x) == FirstIndex(s[..n], x)
  {
    var k := FirstIndex(s[..n], x);
    assert s[k] == x;
    assert forall j :: 0 <= j < k ==> s[j] == s[..n][j];
  }

  /** The addresses in the order they first appear, each once. */
  function Distinct(s: seq<string>): (r: seq<string>)
    ensures forall x :: x in r <==> x in s
    ensures forall i, j :: 0 <= i < j < |r| ==> r[i] != r[j]
    ensures forall i, j :: 0 <= i < j < |r| ==> FirstIndex(s, r[i]) < FirstIndex(s, r[j])
    ensures |r| <= |s|
  {
    if |s| == 0 then []
    else
      var prefix := s[..|s| - 1];
      var rest := Distinct(prefix);
      assert forall x :: x in rest ==> FirstIndex(s, x) == FirstIndex(prefix, x) by {
        forall x | x in rest { FirstIndexInPrefix(s, |s| - 1, x); }
      }
      if s[|s| - 1] in rest then rest
      else
        assert FirstIndex(s, s[|s| - 1]) == |s| - 1;
        rest + [s[|s| - 1]]
  }

  /** The envelope recipients: every To, Cc and Bcc address, once each. */
  function MessageRecipients(m: Message): seq<string> {
    Distinct(m.to + m.cc + m.bcc)
  }

  // ---- The session's observable state ----

  /** The session properties a caller can observe. `negotiated` is what the
      last EHLO offered; `capabilities` is what the client will use. */
  datatype Status = Status(
    connected: bool, secure: bool, authenticated: bool,
    capabilities: set<Capability>, negotiated: set<Capability>,
    mechanisms: set<string>, maxSize: nat)

  /** The state of a new client, and of every client after Disconnect. */
  const Disconnected := Status(false, false, false, {}, {}, {}, 0)

  /** The session invariant: the capabilities in use were negotiated, and a
      client that is not connected holds nothing from a previous session. */
  predicate Coherent(s: Status) {
    s.capabilities <= s.negotiated && (!s.connected ==> s == Disconnected)
  }

  /** The state once a handshake succeeded: everything the last EHLO
      offered is in use, and nobody is authenticated yet. */
  function Established(session: Session): Status {
    var info := session.info;
    Status(true, session.secure, false, info.capabilities, info.capabilities, info.mechanisms, info.maxSize)
  }

  /** After an operation: a fault drops the session, anything else leaves
      it as it is. */
  function Settled(s: Status, fault: bool): Status {
    if fault then Disconnected else s
  }

  /** After an exchange: authenticated on success. */
  function AfterAuthentication(s: Status, r: Result<()>): Status {
    if r.Ok? then s.(authenticated := true) else Settled(s, r.error == ProtocolFault)
  }

  /** Setting the capabilities in use: only to what was negotiated. */
  function Narrowed(s: Status, caps: set<Capability>): (r: Result<Status>)
    ensures r.Ok? <==> caps <= s.negotiated
    ensures r.Err? ==> r.error == Argument
    ensures Coherent(s) && r.Ok? ==> Coherent(r.value) && r.value.capabilities == caps
    ensures r.Ok? ==> r.value.(capabilities := s.capabilities) == s
  {
    if caps <= s.negotiated then Ok(s.(capabilities := caps)) else Err(Argument)
  }

  // ---- What each operation checks before any I/O ----

  function ConnectGate(host: Option<string>, port: int, hasTransport: bool, s: Status): Option<Error> {
    if !hasTransport then Some(ArgumentNull)
    else if host.None? then Some(ArgumentNull)
    else if host.value == "" then Some(Argument)
    else if port < 0 || port > MaxPort then Some(ArgumentOutOfRange)
    else if s.connected then Some(InvalidOperation)
    else None
  }

  function SendGate(message: Option<Message>, s: Status): Option<Error> {
    if message.None? then Some(ArgumentNull)
    else if MessageSender(message.value).None? || |MessageRecipients(message.value)| == 0 then Some(InvalidOperation)
    else if !s.connected then Some(ServiceNotConnected)
    else None
  }

  function SendToGate(message: Option<Message>, sender: Option<string>, recipients: Option<seq<string>>, s: Status)
    : Option<Error>
  {
    if message.None? || sender.None? || recipients.None? then Some(ArgumentNull)
    else if |recipients.value| == 0 then Some(InvalidOperation)
    else if !s.connected then Some(ServiceNotConnected)
    else None
  }

  function AuthenticateGate(s: Status): Option<Error> {
    if !s.connected then Some(ServiceNotConnected)
    else if s.authenticated then Some(InvalidOperation)
    else if Authentication !in s.capabilities then Some(NotSupported)
    else None
  }

  function QueryGate(argument: Option<string>, s: Status): Option<Error> {
    var checked := CheckArgument(argument);
    if checked.Err? then Some(checked.error)
    else if !s.connected then Some(ServiceNotConnected)
    else None
  }

  function NoOpGate(s: Status): Option<Error> {
    if !s.connected then Some(ServiceNotConnected) else None
  }

  // ---- Properties of the session state ----

  /** Every transition keeps the session invariant. */
  lemma TransitionsKeepCoherence(s: Status, session: Session, fault: bool, r: Result<()>)
    ensures Coherent(Disconnected) && Coherent(Established(session))
    ensures Coherent(s) ==> Coherent(Settled(s, fault))
    ensures Coherent(s) && s.connected ==> Coherent(AfterAuthentication(s, r))
  {
  }

  /** Clearing capabilities always succeeds; enabling one the server did
      not offer always fails, and leaves the session as it was. */
  lemma NarrowOnly(s: Status, cleared: set<Capability>, extra: Capability)
    requires Coherent(s)
    ensures Narrowed(s, s.capabilities - cleared).Ok?
    ensures extra !in s.negotiated ==> Narrowed(s, s.capabilities + {extra}) == Err(Argument)
  {
  }

  /** A client that is not connected refuses every operation but Connect
      and Disconnect, with ArgumentNull, Argument or InvalidOperation for a
      bad argument and ServiceNotConnected otherwise. */
  lemma DisconnectedRefusesAll(
    message: Option<Message>, sender: Option<string>, recipients: Option<seq<string>>, argument: Option<string>)
    ensures SendGate(message, Disconnected).Some?
    ensures SendToGate(message, sender, recipients, Disconnected).Some?
    ensures AuthenticateGate(Disconnected) == Some(ServiceNotConnected)
    ensures QueryGate(argument, Disconnected).Some?
    ensures NoOpGate(Disconnected) == Some(ServiceNotConnected)
    ensures CheckArgument(argument).Ok? ==> QueryGate(argument, Disconnected) == Some(ServiceNotConnected)
    ensures message.Some? && MessageSender(message.value).Some? && |MessageRecipients(message.value)| > 0 ==>
      SendGate(message, Disconnected) == Some(ServiceNotConnected)
  {
  }

  /** Connect while connected, and Authenticate while authenticated, are
      refused as invalid in that state. */
  lemma NoSecondConnectOrAuthentication(host: string, port: int, s: Status)
    requires host != "" && 0 <= port <= MaxPort
    ensures s.connected ==> ConnectGate(Some(host), port, true, s) == Some(InvalidOperation)
    ensures s.connected && s.authenticated ==> AuthenticateGate(s) == Some(InvalidOperation)
  {
  }

  /** A message without any sender address, or without any recipient, is
      refused before anything is sent. */
  lemma IncompleteMessageRefused(m: Message, s: Status)
    ensures m.sender.None? && |m.from| == 0 ==> SendGate(Some(m), s) == Some(InvalidOperation)
    ensures m.to == [] && m.cc == [] && m.bcc == [] ==> SendGate(Some(m), s) == Some(InvalidOperation)
  {
    if m.to == [] && m.cc == [] && m.bcc == [] {
      assert m.to + m.cc + m.bcc == [];
    }
  }

  /** The result of VRFY, EXPN or NOOP: the reply text of a 250 reply. */
  datatype Queried = Queried(result: Result<string>, wire: Wire)

  function Query(w: Wire, line: string): Queried {
    match AfterExchange(w, line)
    case Faulted(w1) => Queried(Err(ProtocolFault), w1)
    case Answered(reply, w1) =>
      if reply.code == ActionOk then Queried(Ok(reply.text), w1)
      else Queried(Err(Command(UnexpectedStatusCode, reply.code)), w1)
  }

  /** Any command line answered by one reply, the next the script holds:
      exactly that line is written, a 250 reply gives its text and any
      other code is an unexpected status, and since neither is a fault
      the session is kept. */
  lemma QueryAnswered(w: Wire, line: string, s: Status)
    requires w.pending == [] && ScriptedLines(w, [line])
    ensures var reply := Ahead(w)[0].replies[0]; var q := Query(w, line);
      q.wire == Played(w, [line])
      && (reply.code == ActionOk <==> q.result.Ok?)
      && (reply.code == ActionOk ==> q.result == Ok(reply.text))
      && (reply.code != ActionOk ==> q.result == Err(Command(UnexpectedStatusCode, reply.code)))
      && Settled(s, q.result == Err(ProtocolFault)) == s
  {
    PlayOne(w, line);
  }

  /** The notifications hook, read for one message. */
  function NotifyHook(hook: (Message, string) -> Option<set<DeliveryStatusNotification>>, m: Message)
    : string -> Option<set<DeliveryStatusNotification>>
  {
    r => hook(m, r)
  }

  /** The envelope of one Send call, as the client's state and hooks make
      it. */
  function ClientPlan(
    caps: set<Capability>, m: Message, sender: string, recipients: seq<string>,
    envelopeId: Message -> Option<string>, notifications: (Message, string) -> Option<set<DeliveryStatusNotification>>)
    : Plan
  {
    PlanTransaction(caps, sender, recipients, m.body, envelopeId(m), NotifyHook(notifications, m))
  }

  /** The hooks of a client that asks for every notification and uses the
      Message-Id as the envelope id, against a server offering DSN and
      8BITMIME: MAIL carries BODY= and ENVID=, RCPT carries NOTIFY= with
      the three keywords in order. Without DSN the same hooks add nothing. */
  lemma DsnParameters(caps: set<Capability>, m: Message, sender: string, recipient: string, id: string)
    requires EightBitMime in caps && m.body == EightBit && m.messageId == Some(id)
    ensures var plan := ClientPlan(caps, m, sender, [recipient], (msg: Message) => msg.messageId,
                                   (msg: Message, r: string) => Some({Success, Failure, Delay}));
      (Dsn in caps ==>
        plan.mailFrom == "MAIL FROM:<" + sender + ">" + " BODY=8BITMIME" + " ENVID=" + id + CRLF
        && plan.rcptTo == ["RCPT TO:<" + recipient + ">" + " NOTIFY=SUCCESS,FAILURE,DELAY" + CRLF])
      && (Dsn !in caps ==>
        plan.mailFrom == "MAIL FROM:<" + sender + ">" + " BODY=8BITMIME" + CRLF
        && plan.rcptTo == ["RCPT TO:<" + recipient + ">" + CRLF])
  {
    NotifyAll();
    var plan := ClientPlan(caps, m, sender, [recipient], (msg: Message) => msg.messageId,
                           (msg: Message, r: string) => Some({Success, Failure, Delay}));
    assert TransferEncoding(m.body, caps) == EightBit;
    assert |plan.rcptTo| == 1;
    if Dsn !in caps {
      assert plan.rcptTo[0] == "RCPT TO:<" + recipient + ">" + "" + CRLF;
      assert "RCPT TO:<" + recipient + ">" + "" == "RCPT TO:<" + recipient + ">";
    }
  }

  class SmtpClient {
    var connected: bool
    var secure: bool
    var authenticated: bool
    var capabilities: set<Capability>
    var negotiated: set<Capability>
    var authMechanisms: set<string>
    var maxSize: nat
    var timeout: int
    var localDomain: Option<string>
    var stream: ReplayStream?
    /** The hooks a subclass overrides to ask for delivery status
        notifications (RFC 3461): the envelope id of a message, and what to
        notify for each recipient; the plain client asks for nothing. */
    const envelopeId: Message -> Option<string>
    const notifications: (Message, string) -> Option<set<DeliveryStatusNotification>>

    function Observed(): Status
      reads this
    {
      Status(connected, secure, authenticated, capabilities, negotiated, authMechanisms, maxSize)
    }

    predicate Valid()
      reads this
    {
      Coherent(Observed()) && (connected <==> stream != null)
    }

    constructor()
      ensures Valid() && Observed() == Disconnected
      ensures timeout == DefaultTimeout && localDomain == None
      ensures forall m :: envelopeId(m) == None
      ensures forall m, r :: notifications(m, r) == None
    {
      connected, secure, authenticated := false, false, false;
      capabilities, negotiated, authMechanisms, maxSize := {}, {}, {}, 0;
      timeout := DefaultTimeout;
      localDomain := None;
      stream := null;
      envelopeId := m => None;
      notifications := (m, r) => None;
    }

    constructor WithHooks(
      envelopeId: Message -> Option<string>,
      notifications: (Message, string) -> Option<set<DeliveryStatusNotification>>)
      ensures Valid() && Observed() == Disconnected
      ensures timeout == DefaultTimeout && localDomain == None
      ensures this.envelopeId == envelopeId && this.notifications == notifications
    {
      connected, secure, authenticated := false, false, false;
      capabilities, negotiated, authMechanisms, maxSize := {}, {}, {}, 0;
      timeout := DefaultTimeout;
      localDomain := None;
      stream := null;
      this.envelopeId := envelopeId;
      this.notifications := notifications;
    }

    /** Forgets the session. */
    method Reset()
      modifies this
      ensures Valid() && Observed() == Disconnected
      ensures timeout == old(timeout) && localDomain == old(localDomain)
    {
      connected, secure, authenticated := false, false, false;
      capabilities, negotiated, authMechanisms, maxSize := {}, {}, {}, 0;
      stream := null;
    }

    /** Drops the session after a fault; keeps it otherwise. */
    method Settle(fault: bool)
      requires Valid()
      modifies this
      ensures Valid() && Observed() == Settled(old(Observed()), fault)
      ensures timeout == old(timeout) && localDomain == old(localDomain)
      ensures !fault ==> stream == old(stream)
    {
      if fault {
        Reset();
      }
    }

    /** Opens a session on `transport`: the greeting, EHLO or HELO, and
        STARTTLS as `options` asks. What the server's EHLO replies offer,
        before and after STARTTLS, is given. */
    method Connect(
      host: Option<string>, port: int, options: ConnectDefaults.SecureSocketOptions, transport: ReplayStream?,
      localAddress: string, advertised: EhloInfo, afterTls: EhloInfo) returns (r: Result<()>)
      requires Valid()
      modifies this, transport
      ensures Valid() && timeout == old(timeout) && localDomain == old(localDomain)
      ensures var gate := ConnectGate(host, port, transport != null, old(Observed()));
        gate.Some? ==> (r == Err(gate.value) && Observed() == old(Observed()) && stream == old(stream)
          && (transport != null ==> transport.State() == old(transport.State())))
      ensures ConnectGate(host, port, transport != null, old(Observed())).None? ==>
        var h := Open(old(transport.State()), HelloDomain(localDomain, localAddress),
                      ConnectDefaults.ComputeDefaultValues(port, options), advertised, afterTls);
        transport.State() == h.wire
        && (r.Ok? <==> h.result.Ok?)
        && (h.result.Ok? ==> Observed() == Established(h.result.value) && stream == transport)
        && (h.result.Err? ==> r == Err(h.result.error) && Observed() == Disconnected)
    {
      var gate := ConnectGate(host, port, transport != null, Observed());
      if gate.Some? {
        return Err(gate.value);
      }
      r := Establish(transport, HelloDomain(localDomain, localAddress),
                     ConnectDefaults.ComputeDefaultValues(port, options), advertised, afterTls);
    }

    /** The handshake on a stream that passed Connect's checks; the
        session's state is what it negotiated. */
    method Establish(
      transport: ReplayStream, domain: string, resolved: ConnectDefaults.DefaultValues,
      advertised: EhloInfo, afterTls: EhloInfo) returns (r: Result<()>)
      requires Valid() && !connected
      modifies this, transport
      ensures Valid() && timeout == old(timeout) && localDomain == old(localDomain)
      ensures var h := Open(old(transport.State()), domain, resolved, advertised, afterTls);
        transport.State() == h.wire
        && (r.Ok? <==> h.result.Ok?)
        && (h.result.Ok? ==> Observed() == Established(h.result.value) && stream == transport)
        && (h.result.Err? ==> r == Err(h.result.error) && Observed() == Disconnected)
    {
      var outcome := OpenSession(transport, domain, resolved, advertised, afterTls);
      r := Adopt(transport, outcome);
    }

    /** Takes over the stream and the negotiated state after a handshake,
        or stays disconnected after a failed one. */
    method Adopt(transport: ReplayStream, outcome: Result<Session>) returns (r: Result<()>)
      requires Valid() && !connected
      modifies this
      ensures Valid() && timeout == old(timeout) && localDomain == old(localDomain)
      ensures r.Ok? <==> outcome.Ok?
      ensures outcome.Ok? ==> Observed() == Established(outcome.value) && stream == transport
      ensures outcome.Err? ==> r == Err(outcome.error) && Observed() == Disconnected
    {
      match outcome {
        case Err(e) =>
          r := Err(e);
        case Ok(session) =>
          var info := session.info;
          connected, secure, authenticated := true, session.secure, false;
          capabilities, negotiated, authMechanisms, maxSize := info.capabilities, info.capabilities, info.mechanisms, info.maxSize;
          stream := transport;
          r := Ok(());
      }
    }

    /** Sets the capabilities in use: the negotiated ones may be turned off
        and on again, anything else is refused. */
    method SetCapabilities(caps: set<Capability>) returns (r: Result<()>)
      requires Valid()
      modifies this
      ensures Valid() && timeout == old(timeout) && localDomain == old(localDomain) && stream == old(stream)
      ensures var n := Narrowed(old(Observed()), caps);
        (r.Ok? <==> n.Ok?) && (n.Ok? ==> Observed() == n.value)
        && (n.Err? ==> r == Err(n.error) && Observed() == old(Observed()))
    {
      var n := Narrowed(Observed(), caps);
      if n.Err? {
        return Err(n.error);
      }
      capabilities := caps;
      r := Ok(());
    }

    /** Stops offering a mechanism to the credential-based Authenticate. */
    method RemoveAuthenticationMechanism(name: string) returns (removed: bool)
      requires Valid()
      modifies this
      ensures Valid() && timeout == old(timeout) && localDomain == old(localDomain) && stream == old(stream)
      ensures removed <==> name in old(authMechanisms)
      ensures Observed() == old(Observed()).(mechanisms := old(authMechanisms) - {name})
    {
      removed := name in authMechanisms;
      authMechanisms := authMechanisms - {name};
    }

    /** Authenticates with the given mechanism. */
    method Authenticate(mechanism: Option<SaslMechanism>) returns (r: Result<()>)
      requires Valid()
      modifies this, stream
      ensures Valid() && timeout == old(timeout) && localDomain == old(localDomain)
      ensures mechanism.None? ==> r == Err(ArgumentNull)
      ensures var gate := AuthenticateGate(old(Observed()));
        mechanism.None? || gate.Some? ==>
          (mechanism.Some? ==> r == Err(gate.value))
          && Observed() == old(Observed()) && stream == old(stream)
          && (stream != null ==> stream.State() == old(stream.State()))
      ensures mechanism.Some? && AuthenticateGate(old(Observed())).None? ==>
        var a := SaslExchange(mechanism.value, old(stream.State()));
        r == a.result && old(stream).State() == a.wire
        && Observed() == AfterAuthentication(old(Observed()), r)
    {
      if mechanism.None? {
        return Err(ArgumentNull);
      }
      var gate := AuthenticateGate(Observed());
      if gate.Some? {
        return Err(gate.value);
      }
      r := Exchange(mechanism.value);
    }

    /** Authenticates with a user name and password: `candidates` are the
        mechanisms that can carry them, most preferred first, and the first
        one the server still advertises is used. */
    method AuthenticateWith(user: Option<string>, password: Option<string>, candidates: seq<SaslMechanism>)
      returns (r: Result<()>)
      requires Valid()
      modifies this, stream
      ensures Valid() && timeout == old(timeout) && localDomain == old(localDomain)
      ensures var gate := AuthenticateGate(old(Observed()));
        var chosen := Preferred(candidates, old(authMechanisms));
        user.None? || password.None? || gate.Some? || chosen.None? ==>
          r == (if user.None? || password.None? then Err(ArgumentNull)
                else if gate.Some? then Err(gate.value) else Err(NotSupported))
          && Observed() == old(Observed()) && stream == old(stream)
          && (stream != null ==> stream.State() == old(stream.State()))
      ensures var chosen := Preferred(candidates, old(authMechanisms));
        user.Some? && password.Some? && AuthenticateGate(old(Observed())).None? && chosen.Some? ==>
          var a := SaslExchange(chosen.value, old(stream.State()));
          r == a.result && old(stream).State() == a.wire
          && Observed() == AfterAuthentication(old(Observed()), r)
    {
      if user.None? || password.None? {
        return Err(ArgumentNull);
      }
      var gate := AuthenticateGate(Observed());
      if gate.Some? {
        return Err(gate.value);
      }
      var chosen := ChooseMechanism(candidates, authMechanisms);
      if chosen.None? {
        return Err(NotSupported);
      }
      r := Exchange(chosen.value);
    }

    /** Runs one SASL exchange on the open session. */
    method Exchange(m: SaslMechanism) returns (r: Result<()>)
      requires Valid() && connected
      modifies this, stream
      ensures Valid() && timeout == old(timeout) && localDomain == old(localDomain)
      ensures var a := SaslExchange(m, old(stream.State()));
        r == a.result && old(stream).State() == a.wire
        && Observed() == AfterAuthentication(old(Observed()), r)
    {
      r := Authentication.Authenticate(stream, m);
      if r.Ok? {
        authenticated := true;
      } else {
        Settle(r.error == ProtocolFault);
      }
    }

    /** VRFY: asks the server to confirm a mailbox. */
    method Verify(argument: Option<string>) returns (r: Result<string>)
      requires Valid()
      modifies this, stream
      ensures Valid() && timeout == old(timeout) && localDomain == old(localDomain)
      ensures var gate := QueryGate(argument, old(Observed()));
        gate.Some? ==> (r == Err(gate.value) && Observed() == old(Observed()) && stream == old(stream)
          && (stream != null ==> stream.State() == old(stream.State())))
      ensures QueryGate(argument, old(Observed())).None? ==>
        var q := Query(old(stream.State()), VrfyCommand(argument.value));
        r == q.result && old(stream).State() == q.wire
        && Observed() == Settled(old(Observed()), r == Err(ProtocolFault))
    {
      var gate := QueryGate(argument, Observed());
      if gate.Some? {
        return Err(gate.value);
      }
      r := Ask(VrfyCommand(argument.value));
    }

    /** EXPN: asks the server to expand a mailing list. */
    method Expand(argument: Option<string>) returns (r: Result<string>)
      requires Valid()
      modifies this, stream
      ensures Valid() && timeout == old(timeout) && localDomain == old(localDomain)
      ensures var gate := QueryGate(argument, old(Observed()));
        gate.Some? ==> (r == Err(gate.value) && Observed() == old(Observed()) && stream == old(stream)
          && (stream != null ==> stream.State() == old(stream.State())))
      ensures QueryGate(argument, old(Observed())).None? ==>
        var q := Query(old(stream.State()), ExpnCommand(argument.value));
        r == q.result && old(stream).State() == q.wire
        && Observed() == Settled(old(Observed()), r == Err(ProtocolFault))
    {
      var gate := QueryGate(argument, Observed());
      if gate.Some? {
        return Err(gate.value);
      }
      r := Ask(ExpnCommand(argument.value));
    }

    /** NOOP: a 250 reply, or an error. */
    method NoOp() returns (r: Result<()>)
      requires Valid()
      modifies this, stream
      ensures Valid() && timeout == old(timeout) && localDomain == old(localDomain)
      ensures var gate := NoOpGate(old(Observed()));
        gate.Some? ==> r == Err(gate.value) && Observed() == old(Observed()) && stream == old(stream)
      ensures NoOpGate(old(Observed())).None? ==>
        var q := Query(old(stream.State()), NoopCommand);
        (r.Ok? <==> q.result.Ok?) && (r.Err? ==> r.error == q.result.error)
        && old(stream).State() == q.wire
        && Observed() == Settled(old(Observed()), r == Err(ProtocolFault))
    {
      var gate := NoOpGate(Observed());
      if gate.Some? {
        return Err(gate.value);
      }
      var answer := Ask(NoopCommand);
      r := if answer.Ok? then Ok(()) else Err(answer.error);
    }

    /** One command line and its reply, on the open session. */
    method Ask(line: string) returns (r: Result<string>)
      requires Valid() && connected
      modifies this, stream
      ensures Valid() && timeout == old(timeout) && localDomain == old(localDomain)
      ensures var q := Query(old(stream.State()), line);
        r == q.result && old(stream).State() == q.wire
        && Observed() == Settled(old(Observed()), r == Err(ProtocolFault))
    {
      var reply := stream.Exchange(line);
      if reply.None? {
        r := Err(ProtocolFault);
      } else if reply.value.code == ActionOk {
        r := Ok(reply.value.text);
      } else {
        r := Err(Command(UnexpectedStatusCode, reply.value.code));
      }
      Settle(r == Err(ProtocolFault));
    }

    /** Sends a message to the recipients its headers name. */
    method Send(message: Option<Message>) returns (r: SendResult)
      requires Valid()
      modifies this, stream
      ensures Valid() && timeout == old(timeout) && localDomain == old(localDomain)
      ensures var gate := SendGate(message, old(Observed()));
        gate.Some? ==> (r == Failed(gate.value) && Observed() == old(Observed()) && stream == old(stream)
          && (stream != null ==> stream.State() == old(stream.State())))
      ensures SendGate(message, old(Observed())).None? ==>
        var m := message.value;
        var plan := ClientPlan(old(capabilities), m, MessageSender(m).value, MessageRecipients(m),
                               envelopeId, notifications);
        Outcome(r, old(stream).State()) == SendSpec(plan, m.data, Pipelining in old(capabilities), old(stream.State()))
        && Observed() == Settled(old(Observed()), r == Failed(ProtocolFault))
    {
      var gate := SendGate(message, Observed());
      if gate.Some? {
        return Failed(gate.value);
      }
      var m := message.value;
      r := Deliver(m, MessageSender(m).value, MessageRecipients(m));
    }

    /** Sends a message to an explicit envelope. */
    method SendTo(message: Option<Message>, sender: Option<string>, recipients: Option<seq<string>>)
      returns (r: SendResult)
      requires Valid()
      modifies this, stream
      ensures Valid() && timeout == old(timeout) && localDomain == old(localDomain)
      ensures var gate := SendToGate(message, sender, recipients, old(Observed()));
        gate.Some? ==> (r == Failed(gate.value) && Observed() == old(Observed()) && stream == old(stream)
          && (stream != null ==> stream.State() == old(stream.State())))
      ensures SendToGate(message, sender, recipients, old(Observed())).None? ==>
        var m := message.value;
        var plan := ClientPlan(old(capabilities), m, sender.value, recipients.value, envelopeId, notifications);
        Outcome(r, old(stream).State()) == SendSpec(plan, m.data, Pipelining in old(capabilities), old(stream.State()))
        && Observed() == Settled(old(Observed()), r == Failed(ProtocolFault))
    {
      var gate := SendToGate(message, sender, recipients, Observed());
      if gate.Some? {
        return Failed(gate.value);
      }
      r := Deliver(message.value, sender.value, recipients.value);
    }

    /** One transaction on the open session, with the capabilities in use
        choosing BODY=, DSN parameters, pipelining and BDAT. */
    method Deliver(m: Message, sender: string, recipients: seq<string>) returns (r: SendResult)
      requires Valid() && connected
      modifies this, stream
      ensures Valid() && timeout == old(timeout) && localDomain == old(localDomain)
      ensures var plan := ClientPlan(old(capabilities), m, sender, recipients, envelopeId, notifications);
        Outcome(r, old(stream).State()) == SendSpec(plan, m.data, Pipelining in old(capabilities), old(stream.State()))
        && Observed() == Settled(old(Observed()), r == Failed(ProtocolFault))
    {
      var plan := ClientPlan(capabilities, m, sender, recipients, envelopeId, notifications);
      r := SendTransaction(stream, plan, m.data, Pipelining in capabilities);
      Settle(r == Failed(ProtocolFault));
    }

    /** Ends the session, with QUIT when asked and still connected; the
        reply to QUIT, and any fault, are ignored. */
    method Disconnect(quit: bool)
      requires Valid()
      modifies this, stream
      ensures Valid() && Observed() == Disconnected && stream == null
      ensures timeout == old(timeout) && localDomain == old(localDomain)
      ensures old(connected) && quit ==> old(stream).State() == AfterExchange(old(stream.State()), QuitCommand).wire
      ensures !(old(connected) && quit) && old(stream) != null ==> old(stream).State() == old(stream.State())
    {
      if connected && quit {
        var _ := stream.Exchange(QuitCommand);
      }
      Reset();
    }
  }
}
