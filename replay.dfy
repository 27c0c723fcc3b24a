/** The scripted server the client is run against: an ordered list of
    expected writes, each with the replies it releases. A write must equal
    the next scripted command; a read takes the oldest reply released and
    not yet read. Anything else means the dialogue is out of step. */
module Replay {
  import opened SmtpTypes

  /** A server reply: its three-digit code and its text. */
  datatype Reply = Reply(code: nat, text: string)

  /** One scripted step: the exact bytes the client must write next, and
      the replies the server sends once it has them (more than one when the
      write carries a pipelined batch). */
  datatype ScriptEntry = ScriptEntry(command: string, replies: seq<Reply>)

  /** The stream as a value: the script, how much of it has been consumed,
      the replies released but not yet read, every command written so far,
      and the message content written after DATA. */
  datatype Wire = Wire(
    script: seq<ScriptEntry>, index: nat, pending: seq<Reply>, written: seq<string>, content: string)

  /** The commands of a script prefix, in order. */
  function CommandsOf(entries: seq<ScriptEntry>): (r: seq<string>)
    ensures |r| == |entries|
    ensures forall i :: 0 <= i < |entries| ==> r[i] == entries[i].command
  {
    seq(|entries|, i requires 0 <= i < |entries| => entries[i].command)
  }

  /** The stream's invariant: what was written is exactly the consumed part
      of the script. */
  predicate Consistent(w: Wire) {
    w.index <= |w.script| && w.written == CommandsOf(w.script[..w.index])
  }

  function Start(script: seq<ScriptEntry>): Wire {
    Wire(script, 0, [], [], "")
  }

  /** The write `data`: accepted only when it is the next scripted command. */
  function AfterWrite(w: Wire, data: string): (r: Option<Wire>)
    ensures r.Some? <==> w.index < |w.script| && w.script[w.index].command == data
  {
    if w.index < |w.script| && w.script[w.index].command == data then
      Some(w.(index := w.index + 1, pending := w.pending + w.script[w.index].replies, written := w.written + [data]))
    else None
  }

  /** The message content written after the server's 354 reply to DATA.
      The server takes it in without answering and without holding it
      against the script: only the end-of-data line that follows is a
      scripted command. */
  function AfterContent(w: Wire, data: string): (r: Wire)
    ensures r.content == w.content + data
    ensures r.(content := w.content) == w
  {
    w.(content := w.content + data)
  }

  /** A reply read, and the stream after reading it. */
  datatype Step = Step(reply: Reply, wire: Wire)

  /** Reads the oldest pending reply. */
  function AfterRead(w: Wire): (r: Option<Step>)
    ensures r.Some? <==> |w.pending| > 0
  {
    if |w.pending| > 0 then Some(Step(w.pending[0], w.(pending := w.pending[1..]))) else None
  }

  /** Several replies read in order, and the stream after reading them. */
  datatype Batch = Batch(replies: seq<Reply>, wire: Wire)

  /** Reads the `n` oldest pending replies. */
  function AfterReadN(w: Wire, n: nat): (r: Option<Batch>)
    ensures r.Some? <==> |w.pending| >= n
  {
    if |w.pending| >= n then Some(Batch(w.pending[..n], w.(pending := w.pending[n..]))) else None
  }

  /** The result of a command and its reply: the reply and the stream
      after it, or a fault and the stream as the fault left it. */
  datatype Exchanged = Answered(reply: Reply, wire: Wire) | Faulted(wire: Wire)

  /** Writes one command and reads one reply. */
  function AfterExchange(w: Wire, command: string): (r: Exchanged)
    ensures r.Answered? <==>
      w.index < |w.script| && w.script[w.index].command == command
      && |w.pending + w.script[w.index].replies| > 0
  {
    match AfterWrite(w, command)
    case None => Faulted(w)
    case Some(w1) =>
      match AfterRead(w1)
      case None => Faulted(w1)
      case Some(s) => Answered(s.reply, s.wire)
  }

  /** How a method's optional reply and final stream read as an Exchanged. */
  function ExchangedOf(r: Option<Reply>, w: Wire): Exchanged {
    match r
    case None => Faulted(w)
    case Some(reply) => Answered(reply, w)
  }

  // ---- Properties of the stream ----

  lemma StartIsConsistent(script: seq<ScriptEntry>)
    ensures Consistent(Start(script))
  {
  }

  /** An accepted write extends the transcript by exactly the next scripted
      command, releases that entry's replies after the pending ones, and
      keeps the invariant. */
  lemma WritePreservesConsistency(w: Wire, data: string)
    requires Consistent(w) && AfterWrite(w, data).Some?
    ensures var w1 := AfterWrite(w, data).value;
      Consistent(w1) && w1.index == w.index + 1 && w1.script == w.script
      && w1.written == w.written + [data]
      && w1.pending == w.pending + w.script[w.index].replies
  {
    var w1 := AfterWrite(w, data).value;
    assert w.script[..w.index + 1] == w.script[..w.index] + [w.script[w.index]];
    assert CommandsOf(w.script[..w.index + 1]) == CommandsOf(w.script[..w.index]) + [data];
  }

  /** Reading changes only the pending replies, so it keeps the invariant;
      replies come out in the order they were released. */
  lemma ReadPreservesConsistency(w: Wire, n: nat)
    requires Consistent(w) && AfterReadN(w, n).Some?
    ensures var b := AfterReadN(w, n).value;
      Consistent(b.wire) && b.replies + b.wire.pending == w.pending
      && b.wire.(pending := w.pending) == w
  {
  }

  /** Reading n replies at once is reading them one at a time. */
  lemma {:induction false} ReadNIsRepeatedRead(w: Wire, n: nat)
    requires n > 0 && |w.pending| >= n
    ensures var s := AfterRead(w).value;
      AfterReadN(s.wire, n - 1).Some?
      && AfterReadN(w, n).value.replies == [s.reply] + AfterReadN(s.wire, n - 1).value.replies
      && AfterReadN(w, n).value.wire == AfterReadN(s.wire, n - 1).value.wire
  {
    var s := AfterRead(w).value;
    assert w.pending[..n] == [w.pending[0]] + w.pending[1..][..n - 1];
    assert w.pending[n..] == w.pending[1..][n - 1..];
  }

  /** The stream that writes and reads in step with its whole script ends
      having written exactly the script's commands. */
  lemma ScriptCompleted(w: Wire)
    requires Consistent(w) && w.index == |w.script|
    ensures w.written == CommandsOf(w.script)
  {
    assert w.script[..w.index] == w.script;
  }

  // ---- Scripts read ahead ----

  /** The script entries not yet consumed. */
  function Ahead(w: Wire): seq<ScriptEntry> {
    if w.index <= |w.script| then w.script[w.index..] else []
  }

  /** The next |lines| script entries expect exactly these lines, and each
      answers with a single reply. */
  predicate ScriptedLines(w: Wire, lines: seq<string>) {
    |lines| <= |Ahead(w)|
    && forall i :: 0 <= i < |lines| ==> Ahead(w)[i].command == lines[i] && |Ahead(w)[i].replies| == 1
  }

  /** The replies of the next n entries. */
  function RepliesAt(w: Wire, n: nat): (r: seq<Reply>)
    requires n <= |Ahead(w)|
    requires forall i :: 0 <= i < n ==> |Ahead(w)[i].replies| == 1
    ensures |r| == n
  {
    seq(n, i requires 0 <= i < n => Ahead(w)[i].replies[0])
  }

  /** The stream after the next |lines| entries were written and answered. */
  function Played(w: Wire, lines: seq<string>): Wire {
    w.(index := w.index + |lines|, written := w.written + lines)
  }

  lemma AheadOfPlayed(w: Wire, lines: seq<string>)
    requires |lines| <= |Ahead(w)|
    ensures Ahead(Played(w, lines)) == Ahead(w)[|lines|..]
  {
  }

  /** A script for `a + b` is a script for `a` followed by one for `b`. */
  lemma SplitScriptedLines(w: Wire, a: seq<string>, b: seq<string>)
    requires ScriptedLines(w, a + b)
    ensures ScriptedLines(w, a) && ScriptedLines(Played(w, a), b)
  {
    AheadOfPlayed(w, a);
    forall i | 0 <= i < |a| ensures Ahead(w)[i].command == a[i] && |Ahead(w)[i].replies| == 1 {
      assert (a + b)[i] == a[i];
    }
    forall i | 0 <= i < |b|
      ensures Ahead(Played(w, a))[i].command == b[i] && |Ahead(Played(w, a))[i].replies| == 1
    {
      assert Ahead(Played(w, a))[i] == Ahead(w)[|a| + i];
      assert (a + b)[|a| + i] == b[i];
    }
  }

  /** A script for `a + b` is a script for `a` followed by one for `b`, and
      its replies are theirs, in order. */
  lemma SplitScript(w: Wire, a: seq<string>, b: seq<string>)
    requires ScriptedLines(w, a + b)
    ensures ScriptedLines(w, a) && ScriptedLines(Played(w, a), b)
    ensures RepliesAt(w, |a| + |b|) == RepliesAt(w, |a|) + RepliesAt(Played(w, a), |b|)
  {
    SplitScriptedLines(w, a, b);
    AheadOfPlayed(w, a);
    var whole := RepliesAt(w, |a| + |b|);
    var first := RepliesAt(w, |a|);
    var second := RepliesAt(Played(w, a), |b|);
    forall i | 0 <= i < |b| ensures second[i] == whole[|a| + i] {
      assert Ahead(Played(w, a))[i] == Ahead(w)[|a| + i];
    }
    assert whole == first + second;
  }

  lemma PlayOne(w: Wire, line: string)
    requires w.pending == [] && ScriptedLines(w, [line])
    ensures AfterExchange(w, line) == Answered(Ahead(w)[0].replies[0], Played(w, [line]))
  {
    assert Ahead(w)[0] == w.script[w.index];
  }

  lemma PlayedTwice(w: Wire, a: seq<string>, b: seq<string>)
    ensures Played(Played(w, a), b) == Played(w, a + b)
  {
    assert w.written + a + b == w.written + (a + b);
  }

  /** The replay stream object the client writes to and reads from. */
  class ReplayStream {
    var script: seq<ScriptEntry>
    var index: nat
    var pending: seq<Reply>
    var written: seq<string>
    var content: string

    function State(): Wire
      reads this
    {
      Wire(script, index, pending, written, content)
    }

    constructor(script: seq<ScriptEntry>)
      ensures State() == Start(script)
    {
      this.script := script;
      index := 0;
      pending := [];
      written := [];
      content := "";
    }

    /** Writes `data`; refused, with nothing changed, when it is not the
        next scripted command. */
    method Write(data: string) returns (ok: bool)
      modifies this
      ensures ok <==> AfterWrite(old(State()), data).Some?
      ensures State() == if ok then AfterWrite(old(State()), data).value else old(State())
    {
      if index < |script| && script[index].command == data {
        pending := pending + script[index].replies;
        index := index + 1;
        written := written + [data];
        ok := true;
      } else {
        ok := false;
      }
    }

    /** Writes message content after DATA; it is always taken in. */
    method WriteContent(data: string)
      modifies this
      ensures State() == AfterContent(old(State()), data)
    {
      content := content + data;
    }

    /** Reads the oldest pending reply; None when the server has nothing
        more to say (the client would block forever). */
    method Read() returns (r: Option<Reply>)
      modifies this
      ensures r.Some? <==> AfterRead(old(State())).Some?
      ensures r.Some? ==> r.value == AfterRead(old(State())).value.reply
      ensures State() == if r.Some? then AfterRead(old(State())).value.wire else old(State())
    {
      if |pending| > 0 {
        r := Some(pending[0]);
        pending := pending[1..];
      } else {
        r := None;
      }
    }

    /** Writes a command and reads its reply. */
    method Exchange(command: string) returns (r: Option<Reply>)
      modifies this
      ensures ExchangedOf(r, State()) == AfterExchange(old(State()), command)
    {
      var ok := Write(command);
      if ok {
        r := Read();
      } else {
        r := None;
      }
    }

    /** Reads the replies to a pipelined batch, one at a time and in order;
        None when fewer than `n` are pending. */
    method ReadReplies(n: nat) returns (r: Option<seq<Reply>>)
      modifies this
      ensures r.Some? <==> AfterReadN(old(State()), n).Some?
      ensures r.Some? ==> r.value == AfterReadN(old(State()), n).value.replies
      ensures State() == if r.Some? then AfterReadN(old(State()), n).value.wire else old(State())
    {
      if |pending| < n {
        return None;
      }
      var replies: seq<Reply> := [];
      var i := 0;
      while i < n
        invariant 0 <= i <= n
        invariant replies == old(pending)[..i]
        invariant pending == old(pending)[i..]
        invariant script == old(script) && index == old(index) && written == old(written) && content == old(content)
      {
        var reply := Read();
        replies := replies + [reply.value];
        i := i + 1;
      }
      r := Some(replies);
    }
  }
}
