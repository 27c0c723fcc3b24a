/** What a transaction writes and reports when the server answers as a
    script says: the successful paths (plain, pipelined, chunked), the
    refusals that are followed by RSET, and the authentication demand
    that is not. The script is given entry by entry, one reply each,
    except for a pipelined batch, whose entry carries one reply per line. */
module Transcripts {
  import opened SmtpTypes
  import opened Text
  import opened Commands
  import opened Replay
  import opened Transaction

  lemma {:induction false} TalliedAborted(e: Error, replies: seq<Reply>)
    ensures Tallied(Aborted(e), replies) == Aborted(e)
    decreases |replies|
  {
    if replies != [] {
      TalliedAborted(e, replies[1..]);
    }
  }

  /** One RCPT TO line written and answered. */
  lemma RcptStep(rcpts: seq<string>, t: Tally, w: Wire)
    requires rcpts != [] && t.Counting? && w.pending == [] && ScriptedLines(w, rcpts)
    ensures ScriptedLines(Played(w, [rcpts[0]]), rcpts[1..])
    ensures SequentialRcpts(rcpts, t, w)
      == SequentialRcpts(rcpts[1..], Record(t, Ahead(w)[0].replies[0].code), Played(w, [rcpts[0]]))
    ensures Played(Played(w, [rcpts[0]]), rcpts[1..]) == Played(w, rcpts)
  {
    var first, rest := [rcpts[0]], rcpts[1..];
    assert first + rest == rcpts;
    SplitScriptedLines(w, first, rest);
    PlayOne(w, rcpts[0]);
    PlayedTwice(w, first, rest);
  }

  /** The replies to the RCPT TO lines are the first one and then the rest. */
  lemma RcptRepliesStep(rcpts: seq<string>, t: Tally, w: Wire)
    requires rcpts != [] && ScriptedLines(w, rcpts)
    ensures ScriptedLines(Played(w, [rcpts[0]]), rcpts[1..])
    ensures Tallied(t, RepliesAt(w, |rcpts|))
      == Tallied(Record(t, Ahead(w)[0].replies[0].code), RepliesAt(Played(w, [rcpts[0]]), |rcpts| - 1))
  {
    var first, rest := [rcpts[0]], rcpts[1..];
    assert first + rest == rcpts;
    SplitScriptedLines(w, first, rest);
    var w1 := Played(w, first);
    AheadOfPlayed(w, first);
    var replies := RepliesAt(w, |rcpts|);
    var later := RepliesAt(w1, |rest|);
    forall i | 0 <= i < |rest| ensures replies[1..][i] == later[i] {
      assert Ahead(w1)[i] == Ahead(w)[i + 1];
    }
    assert replies[1..] == later;
  }

  /** Sending the recipients one by one reaches the same verdicts as
      tallying their replies all at once; while no reply ends the envelope,
      exactly the RCPT TO lines were written. */
  lemma {:induction false} SequentialRcptsFollowScript(rcpts: seq<string>, t: Tally, w: Wire)
    requires t.Counting? && w.pending == [] && ScriptedLines(w, rcpts)
    ensures var p := SequentialRcpts(rcpts, t, w);
      p.tally == Tallied(t, RepliesAt(w, |rcpts|))
      && (p.tally.Counting? ==> p.wire == Played(w, rcpts))
    decreases |rcpts|
  {
    if rcpts != [] {
      RcptStep(rcpts, t, w);
      RcptRepliesStep(rcpts, t, w);
      var w1 := Played(w, [rcpts[0]]);
      var t1 := Record(t, Ahead(w)[0].replies[0].code);
      if t1.Counting? {
        SequentialRcptsFollowScript(rcpts[1..], t1, w1);
      } else {
        TalliedAborted(t1.error, RepliesAt(w1, |rcpts| - 1));
      }
    } else {
      assert w.written + [] == w.written;
    }
  }

  /** The envelope without pipelining follows the script line by line. */
  lemma SequentialEnvelopeFollowsScript(plan: Plan, w: Wire)
    requires w.pending == [] && ScriptedLines(w, [plan.mailFrom] + plan.rcptTo)
    ensures var rs := RepliesAt(w, 1 + |plan.rcptTo|);
      var p := Envelope(plan, false, w);
      p.tally == (match MailFromError(rs[0].code)
                  case Some(e) => Aborted(e)
                  case None => Tallied(Counting(0, 0), rs[1..]))
      && (p.tally.Counting? ==> p.wire == Played(w, [plan.mailFrom] + plan.rcptTo))
  {
    SplitScript(w, [plan.mailFrom], plan.rcptTo);
    PlayOne(w, plan.mailFrom);
    var w1 := Played(w, [plan.mailFrom]);
    SequentialRcptsFollowScript(plan.rcptTo, Counting(0, 0), w1);
    PlayedTwice(w, [plan.mailFrom], plan.rcptTo);
  }

  /** The pipelined envelope: one write of the batch, whose entry answers
      with one reply per line. */
  lemma PipelinedEnvelopeFollowsScript(plan: Plan, w: Wire)
    requires w.pending == [] && |Ahead(w)| > 0
    requires Ahead(w)[0].command == PipelinedBatch(plan)
    requires |Ahead(w)[0].replies| == 1 + |plan.rcptTo|
    ensures var rs := Ahead(w)[0].replies;
      var p := Envelope(plan, true, w);
      p.wire == Played(w, [PipelinedBatch(plan)])
      && p.tally == (match MailFromError(rs[0].code)
                     case Some(e) => Aborted(e)
                     case None => Tallied(Counting(0, 0), rs[1..]))
  {
    var rs := Ahead(w)[0].replies;
    assert Ahead(w)[0] == w.script[w.index];
    assert rs[..1 + |plan.rcptTo|] == rs;
    var none: seq<Reply> := [];
    assert none + rs == rs;
  }

  /** Pipelining does not change the outcome of the envelope: given the
      same replies, one batch and one command at a time reach the same
      verdicts. */
  lemma PipeliningPreservesVerdicts(plan: Plan, sequential: Wire, pipelined: Wire)
    requires sequential.pending == [] && ScriptedLines(sequential, [plan.mailFrom] + plan.rcptTo)
    requires pipelined.pending == [] && |Ahead(pipelined)| > 0
    requires Ahead(pipelined)[0].command == PipelinedBatch(plan)
    requires Ahead(pipelined)[0].replies == RepliesAt(sequential, 1 + |plan.rcptTo|)
    ensures Envelope(plan, true, pipelined).tally == Envelope(plan, false, sequential).tally
  {
    SequentialEnvelopeFollowsScript(plan, sequential);
    PipelinedEnvelopeFollowsScript(plan, pipelined);
  }

  /** The pipelined batch reads back as the envelope's lines, in order. */
  lemma BatchSplitsIntoCommands(plan: Plan)
    requires IsCommandLine(plan.mailFrom)
    requires forall i :: 0 <= i < |plan.rcptTo| ==> IsCommandLine(plan.rcptTo[i])
    ensures SplitLines(PipelinedBatch(plan)) == [plan.mailFrom] + plan.rcptTo
  {
    var lines := [plan.mailFrom] + plan.rcptTo;
    assert lines[1..] == plan.rcptTo;
    assert Concat(lines) == PipelinedBatch(plan);
    SplitLinesConcat(lines);
  }

  /** Accepted recipients only add to the count. */
  lemma {:induction false} AllAccepted(t: Tally, replies: seq<Reply>)
    requires t.Counting?
    requires forall i :: 0 <= i < |replies| ==> AcceptsRecipient(replies[i].code)
    ensures Tallied(t, replies) == Counting(t.accepted + |replies|, t.lastRejected)
    decreases |replies|
  {
    if replies != [] {
      AllAccepted(Record(t, replies[0].code), replies[1..]);
    }
  }

  /** When every recipient is refused the count stays where it was and the
      last refusal is the one reported. */
  lemma {:induction false} AllRefused(t: Tally, replies: seq<Reply>)
    requires t.Counting? && |replies| > 0
    requires forall i :: 0 <= i < |replies| ==> RefusesRecipient(replies[i].code)
    ensures Tallied(t, replies) == Counting(t.accepted, replies[|replies| - 1].code)
    decreases |replies|
  {
    if |replies| > 1 {
      AllRefused(Record(t, replies[0].code), replies[1..]);
    }
  }

  // ---- Whole transactions ----

  /** MAIL FROM answered 250 and every RCPT TO accepted, one command at a
      time: every recipient is counted and exactly the envelope is written. */
  lemma EnvelopeAccepted(plan: Plan, w: Wire)
    requires w.pending == [] && ScriptedLines(w, [plan.mailFrom] + plan.rcptTo)
    requires var rs := RepliesAt(w, 1 + |plan.rcptTo|);
      rs[0].code == ActionOk && forall i :: 1 <= i <= |plan.rcptTo| ==> AcceptsRecipient(rs[i].code)
    ensures Envelope(plan, false, w)
      == Progress(Counting(|plan.rcptTo|, 0), Played(w, [plan.mailFrom] + plan.rcptTo))
  {
    SequentialEnvelopeFollowsScript(plan, w);
    var rs := RepliesAt(w, 1 + |plan.rcptTo|);
    AllAccepted(Counting(0, 0), rs[1..]);
  }

  /** DATA answered 354, then the content and the end-of-data line answered
      250: sent, with both lines written and the content after DATA. */
  lemma DataAccepted(plan: Plan, data: Octets, w: Wire)
    requires !plan.chunked && w.pending == []
    requires ScriptedLines(w, [DataCommand, EndOfData])
    requires RepliesAt(w, 2)[0].code == StartMailInput && RepliesAt(w, 2)[1].code == ActionOk
    ensures Transfer(plan, data, w) == Outcome(Sent(|data|), AfterContent(Played(w, [DataCommand, EndOfData]), data))
  {
    SplitScript(w, [DataCommand], [EndOfData]);
    PlayOne(w, DataCommand);
    var w1 := Played(w, [DataCommand]);
    PlayOne(AfterContent(w1, data), EndOfData);
    PlayedTwice(w, [DataCommand], [EndOfData]);
  }

  /** MAIL FROM, RCPT TO for each recipient, DATA and the end of data, all
      answered favourably: the message is sent, exactly those lines were
      written, and the content went out between DATA and the end of data. */
  lemma PlainDelivery(plan: Plan, data: Octets, w: Wire)
    requires !plan.chunked && |plan.rcptTo| > 0 && w.pending == []
    requires ScriptedLines(w, [plan.mailFrom] + plan.rcptTo + [DataCommand, EndOfData])
    requires var rs := RepliesAt(w, 3 + |plan.rcptTo|);
      rs[0].code == ActionOk && rs[1 + |plan.rcptTo|].code == StartMailInput && rs[2 + |plan.rcptTo|].code == ActionOk
      && forall i :: 1 <= i <= |plan.rcptTo| ==> AcceptsRecipient(rs[i].code)
    ensures SendSpec(plan, data, false, w)
      == Outcome(Sent(|data|), AfterContent(Played(w, [plan.mailFrom] + plan.rcptTo + [DataCommand, EndOfData]), data))
  {
    var n := |plan.rcptTo|;
    var envelope := [plan.mailFrom] + plan.rcptTo;
    var rs := RepliesAt(w, 3 + n);
    SplitScript(w, envelope, [DataCommand, EndOfData]);
    assert RepliesAt(w, 1 + n) == rs[..1 + n];
    EnvelopeAccepted(plan, w);
    var w1 := Played(w, envelope);
    assert RepliesAt(w1, 2) == rs[1 + n..];
    DataAccepted(plan, data, w1);
    PlayedTwice(w, envelope, [DataCommand, EndOfData]);
  }

  /** The pipelined envelope as one write answered favourably, then DATA
      and the end of data: sent, three writes in all, and the content. */
  lemma PipelinedDelivery(plan: Plan, data: Octets, w: Wire)
    requires !plan.chunked && |plan.rcptTo| > 0 && w.pending == []
    requires |Ahead(w)| > 0 && Ahead(w)[0].command == PipelinedBatch(plan)
    requires var rs := Ahead(w)[0].replies;
      |rs| == 1 + |plan.rcptTo| && rs[0].code == ActionOk
      && forall i :: 1 <= i < |rs| ==> AcceptsRecipient(rs[i].code)
    requires ScriptedLines(Played(w, [PipelinedBatch(plan)]), [DataCommand, EndOfData])
    requires var rs := RepliesAt(Played(w, [PipelinedBatch(plan)]), 2);
      rs[0].code == StartMailInput && rs[1].code == ActionOk
    ensures SendSpec(plan, data, true, w)
      == Outcome(Sent(|data|), AfterContent(Played(w, [PipelinedBatch(plan), DataCommand, EndOfData]), data))
  {
    var rs := Ahead(w)[0].replies;
    PipelinedEnvelopeFollowsScript(plan, w);
    AllAccepted(Counting(0, 0), rs[1..]);
    var w1 := Played(w, [PipelinedBatch(plan)]);
    DataAccepted(plan, data, w1);
    PlayedTwice(w, [PipelinedBatch(plan)], [DataCommand, EndOfData]);
  }

  /** With BINARYMIME and CHUNKING the content goes out as one BDAT chunk,
      the command line and the octets in a single write. */
  lemma ChunkedDelivery(plan: Plan, data: Octets, w: Wire)
    requires plan.chunked && |plan.rcptTo| > 0 && w.pending == []
    requires ScriptedLines(w, [plan.mailFrom] + plan.rcptTo + [BdatCommand(|data|) + data])
    requires var rs := RepliesAt(w, 2 + |plan.rcptTo|);
      rs[0].code == ActionOk && rs[1 + |plan.rcptTo|].code == ActionOk
      && forall i :: 1 <= i <= |plan.rcptTo| ==> AcceptsRecipient(rs[i].code)
    ensures SendSpec(plan, data, false, w)
      == Outcome(Sent(|data|), Played(w, [plan.mailFrom] + plan.rcptTo + [BdatCommand(|data|) + data]))
  {
    var n := |plan.rcptTo|;
    var envelope := [plan.mailFrom] + plan.rcptTo;
    var chunk := BdatCommand(|data|) + data;
    var rs := RepliesAt(w, 2 + n);
    SplitScript(w, envelope, [chunk]);
    assert RepliesAt(w, 1 + n) == rs[..1 + n];
    EnvelopeAccepted(plan, w);
    var w1 := Played(w, envelope);
    PlayOne(w1, chunk);
    assert RepliesAt(w1, 1)[0] == rs[1 + n];
    PlayedTwice(w, envelope, [chunk]);
  }

  /** A sender refused with 550 or 553: the transaction is reset and the
      refusal reported; no RCPT TO is sent. */
  lemma SenderRefused(plan: Plan, data: Octets, w: Wire)
    requires w.pending == [] && ScriptedLines(w, [plan.mailFrom, RsetCommand])
    requires var code := RepliesAt(w, 2)[0].code; code == MailboxUnavailable || code == MailboxNameNotAllowed
    ensures SendSpec(plan, data, false, w)
      == Outcome(Failed(Command(SenderNotAccepted, RepliesAt(w, 2)[0].code)), Played(w, [plan.mailFrom, RsetCommand]))
  {
    SplitScript(w, [plan.mailFrom], [RsetCommand]);
    PlayOne(w, plan.mailFrom);
    var w1 := Played(w, [plan.mailFrom]);
    PlayOne(w1, RsetCommand);
    PlayedTwice(w, [plan.mailFrom], [RsetCommand]);
  }

  /** Every recipient refused: once the last RCPT TO is answered the
      transaction is reset, and the last refusal is reported. */
  lemma EveryRecipientRefused(plan: Plan, data: Octets, w: Wire)
    requires |plan.rcptTo| > 0 && w.pending == []
    requires ScriptedLines(w, [plan.mailFrom] + plan.rcptTo + [RsetCommand])
    requires var rs := RepliesAt(w, 2 + |plan.rcptTo|);
      rs[0].code == ActionOk && forall i :: 1 <= i <= |plan.rcptTo| ==> RefusesRecipient(rs[i].code)
    ensures var n := |plan.rcptTo|;
      SendSpec(plan, data, false, w)
      == Outcome(Failed(Command(RecipientNotAccepted, RepliesAt(w, 2 + n)[n].code)),
                 Played(w, [plan.mailFrom] + plan.rcptTo + [RsetCommand]))
  {
    var n := |plan.rcptTo|;
    var envelope := [plan.mailFrom] + plan.rcptTo;
    var rs := RepliesAt(w, 2 + n);
    SplitScript(w, envelope, [RsetCommand]);
    SequentialEnvelopeFollowsScript(plan, w);
    var envelopeReplies := RepliesAt(w, 1 + n);
    assert envelopeReplies == rs[..1 + n];
    AllRefused(Counting(0, 0), envelopeReplies[1..]);
    var w1 := Played(w, envelope);
    PlayOne(w1, RsetCommand);
    PlayedTwice(w, envelope, [RsetCommand]);
  }

  /** A 530 reply to MAIL FROM is reported as a demand for authentication,
      without RSET, so the session is ready for Authenticate. */
  lemma SenderNeedsAuthentication(plan: Plan, data: Octets, w: Wire)
    requires w.pending == [] && ScriptedLines(w, [plan.mailFrom])
    requires RepliesAt(w, 1)[0].code == AuthenticationRequired
    ensures SendSpec(plan, data, false, w)
      == Outcome(Failed(ServiceNotAuthenticated(AuthenticationRequired)), Played(w, [plan.mailFrom]))
  {
    PlayOne(w, plan.mailFrom);
  }

  /** A 530 reply to the RCPT TO ends the envelope the same way, without RSET. */
  lemma RecipientNeedsAuthentication(plan: Plan, data: Octets, w: Wire)
    requires |plan.rcptTo| == 1 && w.pending == []
    requires ScriptedLines(w, [plan.mailFrom] + plan.rcptTo)
    requires var rs := RepliesAt(w, 2); rs[0].code == ActionOk && rs[1].code == AuthenticationRequired
    ensures SendSpec(plan, data, false, w)
      == Outcome(Failed(ServiceNotAuthenticated(AuthenticationRequired)), Played(w, [plan.mailFrom] + plan.rcptTo))
  {
    SplitScript(w, [plan.mailFrom], plan.rcptTo);
    PlayOne(w, plan.mailFrom);
    var w1 := Played(w, [plan.mailFrom]);
    assert plan.rcptTo == [plan.rcptTo[0]];
    PlayOne(w1, plan.rcptTo[0]);
    assert Ahead(w1)[0].replies[0] == RepliesAt(w, 2)[1];
    var w2 := Played(w1, plan.rcptTo);
    assert SequentialRcpts(plan.rcptTo, Counting(0, 0), w1)
      == SequentialRcpts([], Aborted(ServiceNotAuthenticated(AuthenticationRequired)), w2);
    PlayedTwice(w, [plan.mailFrom], plan.rcptTo);
  }
}
