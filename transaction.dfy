/** One mail transaction: the envelope (MAIL FROM, then one RCPT TO per
    recipient, sent one by one or as a single pipelined batch), the content
    (DATA and the end-of-data line, or one BDAT chunk), and the RSET that
    resynchronises the session after a command is refused. The functions
    are the specification; the methods run the same steps on a
    ReplayStream and are proved to agree with them. */
module Transaction {
  import opened SmtpTypes
  import opened Text
  import opened Commands
  import opened Replay

  datatype SendResult = Sent(bytesTransferred: nat) | Failed(error: Error)

  /** The result of a transaction and the stream after it. */
  datatype Outcome = Outcome(result: SendResult, wire: Wire)

  /** The recipients' verdicts so far: how many were accepted and the code
      of the last refusal, or the error that ends the envelope. */
  datatype Tally = Counting(accepted: nat, lastRejected: nat) | Aborted(error: Error)

  /** Where the envelope ended: the verdicts and the stream. */
  datatype Progress = Progress(tally: Tally, wire: Wire)

  // ---- Reply classification ----

  /** The error a MAIL FROM reply means, None when the sender is accepted. */
  function MailFromError(code: nat): Option<Error> {
    if code == ActionOk then None
    else if code == AuthenticationRequired then Some(ServiceNotAuthenticated(code))
    else if code == MailboxUnavailable || code == MailboxNameNotAllowed then Some(Command(SenderNotAccepted, code))
    else Some(Command(UnexpectedStatusCode, code))
  }

  predicate AcceptsRecipient(code: nat) {
    code == ActionOk || code == UserNotLocalWillForward
  }

  predicate RefusesRecipient(code: nat) {
    code == MailboxBusy || code == MailboxUnavailable || code == UserNotLocalTryAlternatePath
    || code == MailboxNameNotAllowed
  }

  /** Adds one RCPT TO reply to the tally. A refused recipient is counted
      and the envelope goes on; any other unexpected reply ends it. */
  function Record(t: Tally, code: nat): (r: Tally)
    ensures t.Aborted? ==> r == t
    ensures t.Counting? && AcceptsRecipient(code) ==> r == Counting(t.accepted + 1, t.lastRejected)
    ensures t.Counting? && RefusesRecipient(code) ==> r == Counting(t.accepted, code)
    ensures t.Counting? && code == AuthenticationRequired ==> r == Aborted(ServiceNotAuthenticated(code))
    ensures t.Counting? && !AcceptsRecipient(code) && !RefusesRecipient(code) && code != AuthenticationRequired
      ==> r == Aborted(Command(UnexpectedStatusCode, code))
  {
    match t
    case Aborted(_) => t
    case Counting(accepted, last) =>
      if AcceptsRecipient(code) then Counting(accepted + 1, last)
      else if RefusesRecipient(code) then Counting(accepted, code)
      else if code == AuthenticationRequired then Aborted(ServiceNotAuthenticated(code))
      else Aborted(Command(UnexpectedStatusCode, code))
  }

  /** The tally of a sequence of RCPT TO replies, in the order read. */
  function Tallied(t: Tally, replies: seq<Reply>): Tally
    decreases |replies|
  {
    if replies == [] then t else Tallied(Record(t, replies[0].code), replies[1..])
  }

  // ---- The envelope ----

  /** RCPT TO one recipient after another, each awaiting its reply; stops
      at the first error. */
  function SequentialRcpts(rcpts: seq<string>, t: Tally, w: Wire): Progress
    decreases |rcpts|
  {
    if rcpts == [] || t.Aborted? then Progress(t, w)
    else
      match AfterExchange(w, rcpts[0])
      case Faulted(w1) => Progress(Aborted(ProtocolFault), w1)
      case Answered(reply, w1) => SequentialRcpts(rcpts[1..], Record(t, reply.code), w1)
  }

  /** The envelope without pipelining: MAIL FROM and its reply, then the
      recipients one by one. */
  function SequentialEnvelope(plan: Plan, w: Wire): Progress {
    match AfterExchange(w, plan.mailFrom)
    case Faulted(w1) => Progress(Aborted(ProtocolFault), w1)
    case Answered(reply, w1) =>
      match MailFromError(reply.code)
      case Some(e) => Progress(Aborted(e), w1)
      case None => SequentialRcpts(plan.rcptTo, Counting(0, 0), w1)
  }

  /** The whole envelope as one write, as section 3 of RFC 2920 permits. */
  function PipelinedBatch(plan: Plan): string {
    plan.mailFrom + Concat(plan.rcptTo)
  }

  /** The envelope with pipelining: one write, then one reply per command
      read back in the order the commands were written. */
  function PipelinedEnvelope(plan: Plan, w: Wire): Progress {
    match AfterWrite(w, PipelinedBatch(plan))
    case None => Progress(Aborted(ProtocolFault), w)
    case Some(w1) =>
      match AfterReadN(w1, 1 + |plan.rcptTo|)
      case None => Progress(Aborted(ProtocolFault), w1)
      case Some(b) =>
        match MailFromError(b.replies[0].code)
        case Some(e) => Progress(Aborted(e), b.wire)
        case None => Progress(Tallied(Counting(0, 0), b.replies[1..]), b.wire)
  }

  function Envelope(plan: Plan, pipelined: bool, w: Wire): Progress {
    if pipelined then PipelinedEnvelope(plan, w) else SequentialEnvelope(plan, w)
  }

  // ---- Errors and the RSET after them ----

  /** Reports an error. A refused command leaves a half-built transaction at
      the server, so RSET is sent first; its reply is not examined. Other
      errors are reported as they are. */
  function Fail(e: Error, w: Wire): Outcome {
    if e.Command? then
      match AfterExchange(w, RsetCommand)
      case Faulted(w1) => Outcome(Failed(ProtocolFault), w1)
      case Answered(_, w1) => Outcome(Failed(e), w1)
    else Outcome(Failed(e), w)
  }

  // ---- The content ----

  /** The error that refuses the final reply to the content, with 530
      meaning the server demands authentication. */
  function ContentError(code: nat): Error {
    if code == AuthenticationRequired then ServiceNotAuthenticated(code) else Command(MessageNotAccepted, code)
  }

  /** DATA, which must be answered 354, then the content, then the
      end-of-data line, which must be answered 250. */
  function DataTransfer(data: Octets, w: Wire): Outcome {
    match AfterExchange(w, DataCommand)
    case Faulted(w1) => Outcome(Failed(ProtocolFault), w1)
    case Answered(reply, w1) =>
      if reply.code == AuthenticationRequired then Outcome(Failed(ServiceNotAuthenticated(reply.code)), w1)
      else if reply.code != StartMailInput then Fail(Command(UnexpectedStatusCode, reply.code), w1)
      else
        match AfterExchange(AfterContent(w1, data), EndOfData)
        case Faulted(w2) => Outcome(Failed(ProtocolFault), w2)
        case Answered(done, w2) =>
          if done.code == ActionOk then Outcome(Sent(|data|), w2) else Fail(ContentError(done.code), w2)
  }

  /** One BDAT chunk holding the whole message, written together with the
      octets it announces. */
  function ChunkedTransfer(data: Octets, w: Wire): Outcome {
    match AfterExchange(w, BdatCommand(|data|) + data)
    case Faulted(w1) => Outcome(Failed(ProtocolFault), w1)
    case Answered(reply, w1) =>
      if reply.code == ActionOk then Outcome(Sent(|data|), w1) else Fail(ContentError(reply.code), w1)
  }

  function Transfer(plan: Plan, data: Octets, w: Wire): Outcome {
    if plan.chunked then ChunkedTransfer(data, w) else DataTransfer(data, w)
  }

  /** The whole transaction. The content is sent only when at least one
      recipient was accepted; otherwise the last refusal is reported. */
  function SendSpec(plan: Plan, data: Octets, pipelined: bool, w: Wire): Outcome {
    var env := Envelope(plan, pipelined, w);
    match env.tally
    case Aborted(e) => Fail(e, env.wire)
    case Counting(accepted, last) =>
      if accepted == 0 then Fail(Command(RecipientNotAccepted, last), env.wire)
      else Transfer(plan, data, env.wire)
  }

  // ---- The engine ----

  /** Reads a tally kept in three variables. */
  function TallyOf(accepted: nat, lastRejected: nat, error: Option<Error>): Tally {
    if error.Some? then Aborted(error.value) else Counting(accepted, lastRejected)
  }

  /** Tallies the replies to the RCPT TO lines of a pipelined batch. */
  method TallyReplies(replies: seq<Reply>) returns (t: Tally)
    ensures t == Tallied(Counting(0, 0), replies)
  {
    t := Counting(0, 0);
    var i := 0;
    while i < |replies|
      invariant 0 <= i <= |replies|
      invariant Tallied(t, replies[i..]) == Tallied(Counting(0, 0), replies)
    {
      assert replies[i..][1..] == replies[i + 1..];
      t := Record(t, replies[i].code);
      i := i + 1;
    }
  }

  /** Sends RCPT TO for each recipient in turn and tallies the replies. */
  method SendRecipients(stream: ReplayStream, rcpts: seq<string>) returns (t: Tally)
    modifies stream
    ensures Progress(t, stream.State()) == SequentialRcpts(rcpts, Counting(0, 0), old(stream.State()))
  {
    var accepted: nat, lastRejected: nat, error: Option<Error> := 0, 0, None;
    var i := 0;
    while i < |rcpts| && error.None?
      invariant 0 <= i <= |rcpts|
      invariant SequentialRcpts(rcpts[i..], TallyOf(accepted, lastRejected, error), stream.State())
        == SequentialRcpts(rcpts, Counting(0, 0), old(stream.State()))
    {
      assert rcpts[i..][1..] == rcpts[i + 1..];
      var reply := stream.Exchange(rcpts[i]);
      match reply {
        case None =>
          error := Some(ProtocolFault);
        case Some(r) =>
          if AcceptsRecipient(r.code) {
            accepted := accepted + 1;
          } else if RefusesRecipient(r.code) {
            lastRejected := r.code;
          } else if r.code == AuthenticationRequired {
            error := Some(ServiceNotAuthenticated(r.code));
          } else {
            error := Some(Command(UnexpectedStatusCode, r.code));
          }
      }
      i := i + 1;
    }
    t := TallyOf(accepted, lastRejected, error);
  }

  /** MAIL FROM and the RCPT TO lines, pipelined or not. */
  method SendEnvelope(stream: ReplayStream, plan: Plan, pipelined: bool) returns (t: Tally)
    modifies stream
    ensures Progress(t, stream.State()) == Envelope(plan, pipelined, old(stream.State()))
  {
    if pipelined {
      var ok := stream.Write(PipelinedBatch(plan));
      if !ok {
        return Aborted(ProtocolFault);
      }
      var replies := stream.ReadReplies(1 + |plan.rcptTo|);
      if replies.None? {
        return Aborted(ProtocolFault);
      }
      var mailError := MailFromError(replies.value[0].code);
      if mailError.Some? {
        return Aborted(mailError.value);
      }
      t := TallyReplies(replies.value[1..]);
    } else {
      var reply := stream.Exchange(plan.mailFrom);
      if reply.None? {
        return Aborted(ProtocolFault);
      }
      var mailError := MailFromError(reply.value.code);
      if mailError.Some? {
        return Aborted(mailError.value);
      }
      t := SendRecipients(stream, plan.rcptTo);
    }
  }

  /** Reports an error, sending RSET first after a refused command. */
  method Abandon(stream: ReplayStream, e: Error) returns (result: SendResult)
    modifies stream
    ensures Outcome(result, stream.State()) == Fail(e, old(stream.State()))
  {
    if e.Command? {
      var reply := stream.Exchange(RsetCommand);
      result := if reply.None? then Failed(ProtocolFault) else Failed(e);
    } else {
      result := Failed(e);
    }
  }

  /** Sends the content by DATA or by BDAT. */
  method SendContent(stream: ReplayStream, plan: Plan, data: Octets) returns (result: SendResult)
    modifies stream
    ensures Outcome(result, stream.State()) == Transfer(plan, data, old(stream.State()))
  {
    if plan.chunked {
      var reply := stream.Exchange(BdatCommand(|data|) + data);
      if reply.None? {
        return Failed(ProtocolFault);
      }
      if reply.value.code == ActionOk {
        return Sent(|data|);
      }
      result := Abandon(stream, ContentError(reply.value.code));
    } else {
      var reply := stream.Exchange(DataCommand);
      if reply.None? {
        return Failed(ProtocolFault);
      }
      if reply.value.code == AuthenticationRequired {
        return Failed(ServiceNotAuthenticated(reply.value.code));
      }
      if reply.value.code != StartMailInput {
        result := Abandon(stream, Command(UnexpectedStatusCode, reply.value.code));
        return;
      }
      stream.WriteContent(data);
      var done := stream.Exchange(EndOfData);
      if done.None? {
        return Failed(ProtocolFault);
      }
      if done.value.code == ActionOk {
        return Sent(|data|);
      }
      result := Abandon(stream, ContentError(done.value.code));
    }
  }

  /** The whole transaction on the stream. */
  method SendTransaction(stream: ReplayStream, plan: Plan, data: Octets, pipelined: bool)
    returns (result: SendResult)
    modifies stream
    ensures Outcome(result, stream.State()) == SendSpec(plan, data, pipelined, old(stream.State()))
  {
    var t := SendEnvelope(stream, plan, pipelined);
    match t {
      case Aborted(e) =>
        result := Abandon(stream, e);
      case Counting(accepted, last) =>
        if accepted == 0 {
          result := Abandon(stream, Command(RecipientNotAccepted, last));
        } else {
          result := SendContent(stream, plan, data);
        }
    }
  }
}
