/** Authentication: choosing a SASL mechanism the server advertises, and
    driving its challenge/response exchange over AUTH (RFC 4954). The
    mechanisms themselves (encoding credentials, answering challenges) are
    not part of this model: a mechanism is given as the responses it will
    send, already encoded. */
module Authentication {
  import opened SmtpTypes
  import opened Text
  import opened Replay

  /** A SASL mechanism as the exchange sees it: its name, the initial
      response carried on the AUTH line itself, and its answers to the
      server's successive challenges. */
  datatype SaslMechanism = SaslMechanism(name: string, initialResponse: Option<string>, responses: seq<string>)

  /** How an exchange ended, with the stream as it was left. */
  datatype Authenticated = Authenticated(result: Result<()>, wire: Wire)

  /** "AUTH <name>" with the initial response, when there is one. */
  function AuthCommand(m: SaslMechanism): string {
    "AUTH " + m.name + (if m.initialResponse.Some? then " " + m.initialResponse.value else "") + CRLF
  }

  /** A final positive reply ends the exchange successfully. */
  predicate Completes(code: nat) {
    200 <= code < 300
  }

  /** A fault, or the server's final refusal with its code. */
  predicate IsExchangeError(e: Error) {
    e == ProtocolFault || (e.AuthenticationFailed? && !Completes(e.statusCode))
  }

  /** The exchange once the server has answered with `reply`: a challenge
      is answered with the mechanism's next response; a final positive
      reply completes it; anything else, or a challenge the mechanism has
      no answer left for, fails it without trying anything further. */
  function Challenged(responses: seq<string>, reply: Reply, w: Wire): (a: Authenticated)
    decreases |responses|
    ensures a.result.Err? ==> IsExchangeError(a.result.error)
    ensures |w.written| <= |a.wire.written| <= |w.written| + |responses|
    ensures a.wire.written[..|w.written|] == w.written
  {
    if Completes(reply.code) then Authenticated(Ok(()), w)
    else if reply.code == AuthenticationChallenge && |responses| > 0 then
      match AfterExchange(w, responses[0] + CRLF)
      case Faulted(w1) => Authenticated(Err(ProtocolFault), w1)
      case Answered(next, w1) => Challenged(responses[1..], next, w1)
    else Authenticated(Err(AuthenticationFailed(reply.code)), w)
  }

  /** The whole exchange: the AUTH line, then the challenges. */
  function SaslExchange(m: SaslMechanism, w: Wire): (a: Authenticated)
    ensures a.result.Err? ==> IsExchangeError(a.result.error)
    ensures |w.written| <= |a.wire.written| <= |w.written| + 1 + |m.responses|
    ensures a.wire.written[..|w.written|] == w.written
  {
    match AfterExchange(w, AuthCommand(m))
    case Faulted(w1) => Authenticated(Err(ProtocolFault), w1)
    case Answered(reply, w1) => Challenged(m.responses, reply, w1)
  }

  /** Runs the exchange on the stream. */
  method Authenticate(stream: ReplayStream, m: SaslMechanism) returns (r: Result<()>)
    modifies stream
    ensures Authenticated(r, stream.State()) == SaslExchange(m, old(stream.State()))
  {
    var first := stream.Exchange(AuthCommand(m));
    if first.None? {
      return Err(ProtocolFault);
    }
    var reply := first.value;
    var i := 0;
    while !Completes(reply.code) && reply.code == AuthenticationChallenge && i < |m.responses|
      invariant 0 <= i <= |m.responses|
      invariant Challenged(m.responses[i..], reply, stream.State()) == SaslExchange(m, old(stream.State()))
      decreases |m.responses| - i
    {
      assert m.responses[i..][1..] == m.responses[i + 1..];
      var next := stream.Exchange(m.responses[i] + CRLF);
      if next.None? {
        return Err(ProtocolFault);
      }
      reply := next.value;
      i := i + 1;
    }
    if Completes(reply.code) {
      r := Ok(());
    } else {
      r := Err(AuthenticationFailed(reply.code));
    }
  }

  // ---- Choosing a mechanism ----

  /** The position of the first candidate the server advertises, or the
      number of candidates when it advertises none of them. */
  function FirstAdvertised(candidates: seq<SaslMechanism>, advertised: set<string>): (k: nat)
    ensures k <= |candidates|
    ensures forall j :: 0 <= j < k ==> candidates[j].name !in advertised
    ensures k < |candidates| ==> candidates[k].name in advertised
  {
    if |candidates| == 0 then 0
    else if candidates[0].name in advertised then 0
    else 1 + FirstAdvertised(candidates[1..], advertised)
  }

  /** The mechanism to use: the caller's most preferred one that the server
      advertises. */
  function Preferred(candidates: seq<SaslMechanism>, advertised: set<string>): Option<SaslMechanism> {
    var k := FirstAdvertised(candidates, advertised);
    if k < |candidates| then Some(candidates[k]) else None
  }

  /** Walks the candidates in the caller's order. */
  method ChooseMechanism(candidates: seq<SaslMechanism>, advertised: set<string>) returns (r: Option<SaslMechanism>)
    ensures r == Preferred(candidates, advertised)
  {
    var i := 0;
    while i < |candidates|
      invariant 0 <= i <= |candidates|
      invariant forall j :: 0 <= j < i ==> candidates[j].name !in advertised
    {
      if candidates[i].name in advertised {
        FirstIsUnique(candidates, advertised, i);
        return Some(candidates[i]);
      }
      i := i + 1;
    }
    FirstIsUnique(candidates, advertised, |candidates|);
    r := None;
  }

  /** The first advertised position is the only one whose predecessors are
      all unadvertised. */
  lemma FirstIsUnique(candidates: seq<SaslMechanism>, advertised: set<string>, i: nat)
    requires i <= |candidates|
    requires forall j :: 0 <= j < i ==> candidates[j].name !in advertised
    requires i < |candidates| ==> candidates[i].name in advertised
    ensures FirstAdvertised(candidates, advertised) == i
  {
  }

  /** Nothing is chosen exactly when the server advertises none of the
      candidates; what is chosen is advertised and is one of them. */
  lemma PreferredIsAdvertised(candidates: seq<SaslMechanism>, advertised: set<string>)
    ensures Preferred(candidates, advertised).None? <==>
      forall j :: 0 <= j < |candidates| ==> candidates[j].name !in advertised
    ensures Preferred(candidates, advertised).Some? ==>
      Preferred(candidates, advertised).value in candidates
      && Preferred(candidates, advertised).value.name in advertised
  {
    var k := FirstAdvertised(candidates, advertised);
    if k < |candidates| {
      assert candidates[k].name in advertised;
    }
  }

  /** Removing a mechanism from the advertised set means it is never
      chosen: with PLAIN removed, the client falls back to LOGIN. */
  lemma {:induction false} RemovedIsNeverChosen(candidates: seq<SaslMechanism>, advertised: set<string>, name: string)
    ensures var r := Preferred(candidates, advertised - {name});
      r.Some? ==> r.value.name != name
    ensures Preferred(candidates, advertised).Some? && Preferred(candidates, advertised).value.name != name ==>
      Preferred(candidates, advertised - {name}) == Preferred(candidates, advertised)
  {
    var k := FirstAdvertised(candidates, advertised);
    var k' := FirstAdvertised(candidates, advertised - {name});
    if k' < |candidates| {
      assert candidates[k'].name in advertised - {name};
    }
    if k < |candidates| && candidates[k].name != name {
      FirstIsUnique(candidates, advertised - {name}, k);
    }
  }

  /** The credential fallback the client's own tests rely on: PLAIN is
      preferred to LOGIN, and once PLAIN is removed LOGIN is used. */
  lemma PlainThenLogin(plain: SaslMechanism, login: SaslMechanism)
    requires plain.name == "PLAIN" && login.name == "LOGIN"
    ensures Preferred([plain, login], {"LOGIN", "PLAIN"}) == Some(plain)
    ensures Preferred([plain, login], {"LOGIN", "PLAIN"} - {"PLAIN"}) == Some(login)
  {
    var narrowed := {"LOGIN", "PLAIN"} - {"PLAIN"};
    assert "PLAIN" !in narrowed && "LOGIN" in narrowed;
    FirstIsUnique([plain, login], narrowed, 1);
  }

  // ---- Any number of challenges ----

  /** The first k responses of a mechanism, each as the line written for it. */
  function ResponseLines(responses: seq<string>, k: nat): (r: seq<string>)
    requires k <= |responses|
    ensures |r| == k
    ensures forall i :: 0 <= i < k ==> r[i] == responses[i] + CRLF
  {
    seq(k, i requires 0 <= i < k => responses[i] + CRLF)
  }

  lemma ResponseLinesTail(responses: seq<string>, k: nat)
    requires 0 < k <= |responses|
    ensures ResponseLines(responses, k) == [responses[0] + CRLF] + ResponseLines(responses[1..], k - 1)
  {
    var rest := ResponseLines(responses[1..], k - 1);
    assert forall i :: 0 <= i < k - 1 ==> rest[i] == responses[i + 1] + CRLF;
  }

  /** One challenge answered: the first response is written, its reply is
      the next one the exchange looks at, and the rest of the script is a
      script for the remaining responses. */
  lemma ChallengeStep(responses: seq<string>, reply: Reply, w: Wire, k: nat, cs: seq<Reply>)
    requires 0 < k <= |responses| && w.pending == []
    requires ScriptedLines(w, ResponseLines(responses, k))
    requires |cs| == k + 1 && cs[0] == reply && reply.code == AuthenticationChallenge
    requires forall i :: 0 <= i < k ==> Ahead(w)[i].replies[0] == cs[i + 1]
    ensures var w1 := Played(w, [responses[0] + CRLF]);
      && w1.pending == []
      && ScriptedLines(w1, ResponseLines(responses[1..], k - 1))
      && (forall i :: 0 <= i < k - 1 ==> Ahead(w1)[i].replies[0] == cs[1..][i + 1])
      && Challenged(responses, reply, w) == Challenged(responses[1..], cs[1], w1)
      && Played(w1, ResponseLines(responses[1..], k - 1)) == Played(w, ResponseLines(responses, k))
  {
    var line := responses[0] + CRLF;
    var rest := ResponseLines(responses[1..], k - 1);
    ResponseLinesTail(responses, k);
    SplitScriptedLines(w, [line], rest);
    PlayOne(w, line);
    AheadOfPlayed(w, [line]);
    PlayedTwice(w, [line], rest);
  }

  /** When the server challenges k times and then accepts, the client
      answers the k challenges with its first k responses, in order, and the
      exchange succeeds. `cs` is the replies in the order they are read: the
      one already read, then those the script releases. */
  lemma {:induction false} ChallengesAnswered(responses: seq<string>, reply: Reply, w: Wire, k: nat, cs: seq<Reply>)
    requires k <= |responses| && w.pending == []
    requires ScriptedLines(w, ResponseLines(responses, k))
    requires |cs| == k + 1 && cs[0] == reply
    requires forall i :: 0 <= i < k ==> Ahead(w)[i].replies[0] == cs[i + 1]
    requires forall i :: 0 <= i < k ==> cs[i].code == AuthenticationChallenge
    requires Completes(cs[k].code)
    ensures Challenged(responses, reply, w) == Authenticated(Ok(()), Played(w, ResponseLines(responses, k)))
    decreases k
  {
    assert cs[0] == reply;
    if k == 0 {
      assert w.written + [] == w.written;
    } else {
      ChallengeStep(responses, reply, w, k, cs);
      ChallengesAnswered(responses[1..], cs[1], Played(w, [responses[0] + CRLF]), k - 1, cs[1..]);
    }
  }

  /** When the server challenges j times and then gives a reply that is not
      a success, and that is either not a challenge or one the mechanism has
      no response left for, the exchange fails with that reply's code after
      the client has answered the j challenges and written nothing more.
      `cs` is the replies in the order they are read, as above. */
  lemma {:induction false} ChallengeRefused(responses: seq<string>, reply: Reply, w: Wire, j: nat, cs: seq<Reply>)
    requires j <= |responses| && w.pending == []
    requires ScriptedLines(w, ResponseLines(responses, j))
    requires |cs| == j + 1 && cs[0] == reply
    requires forall i :: 0 <= i < j ==> Ahead(w)[i].replies[0] == cs[i + 1]
    requires forall i :: 0 <= i < j ==> cs[i].code == AuthenticationChallenge
    requires !Completes(cs[j].code) && (cs[j].code != AuthenticationChallenge || j == |responses|)
    ensures Challenged(responses, reply, w)
      == Authenticated(Err(AuthenticationFailed(cs[j].code)), Played(w, ResponseLines(responses, j)))
    decreases j
  {
    assert cs[0] == reply;
    if j == 0 {
      assert w.written + [] == w.written;
    } else {
      ChallengeStep(responses, reply, w, j, cs);
      ChallengeRefused(responses[1..], cs[1], Played(w, [responses[0] + CRLF]), j - 1, cs[1..]);
    }
  }

  /** The whole exchange, for any mechanism: the AUTH line, answered by k
      challenges and then a success, is followed by exactly the first k
      responses, and authentication succeeds. */
  lemma SaslSucceeds(m: SaslMechanism, w: Wire, k: nat)
    requires k <= |m.responses| && w.pending == []
    requires ScriptedLines(w, [AuthCommand(m)] + ResponseLines(m.responses, k))
    requires var rs := RepliesAt(w, 1 + k);
      (forall i :: 0 <= i < k ==> rs[i].code == AuthenticationChallenge) && Completes(rs[k].code)
    ensures SaslExchange(m, w) == Authenticated(Ok(()), Played(w, [AuthCommand(m)] + ResponseLines(m.responses, k)))
  {
    var auth := AuthCommand(m);
    var lines := ResponseLines(m.responses, k);
    SplitScriptedLines(w, [auth], lines);
    PlayOne(w, auth);
    var w1 := Played(w, [auth]);
    var rs := RepliesAt(w, 1 + k);
    AheadOfPlayed(w, [auth]);
    forall i | 0 <= i < k ensures Ahead(w1)[i].replies[0] == rs[i + 1] {
      assert Ahead(w1)[i] == Ahead(w)[i + 1];
    }
    ChallengesAnswered(m.responses, rs[0], w1, k, rs);
    PlayedTwice(w, [auth], lines);
  }

  /** The whole exchange, for any mechanism: a refusal after j challenges
      fails with the refusal's code, after exactly j + 1 lines. */
  lemma SaslFails(m: SaslMechanism, w: Wire, j: nat)
    requires j <= |m.responses| && w.pending == []
    requires ScriptedLines(w, [AuthCommand(m)] + ResponseLines(m.responses, j))
    requires var rs := RepliesAt(w, 1 + j);
      (forall i :: 0 <= i < j ==> rs[i].code == AuthenticationChallenge)
      && !Completes(rs[j].code) && (rs[j].code != AuthenticationChallenge || j == |m.responses|)
    ensures SaslExchange(m, w)
      == Authenticated(Err(AuthenticationFailed(RepliesAt(w, 1 + j)[j].code)),
                       Played(w, [AuthCommand(m)] + ResponseLines(m.responses, j)))
    ensures |SaslExchange(m, w).wire.written| == |w.written| + j + 1
  {
    var auth := AuthCommand(m);
    var lines := ResponseLines(m.responses, j);
    SplitScriptedLines(w, [auth], lines);
    PlayOne(w, auth);
    var w1 := Played(w, [auth]);
    var rs := RepliesAt(w, 1 + j);
    AheadOfPlayed(w, [auth]);
    forall i | 0 <= i < j ensures Ahead(w1)[i].replies[0] == rs[i + 1] {
      assert Ahead(w1)[i] == Ahead(w)[i + 1];
    }
    ChallengeRefused(m.responses, rs[0], w1, j, rs);
    PlayedTwice(w, [auth], lines);
  }

  // ---- Transcripts ----

  /** LOGIN: the server asks twice (for the user name, then the password)
      and accepts; three lines are written. */
  lemma LoginExchange(w: Wire, user: string, password: string)
    requires w.pending == []
    requires ScriptedLines(w, ["AUTH LOGIN\r\n", user + CRLF, password + CRLF])
    requires var rs := RepliesAt(w, 3);
      rs[0].code == AuthenticationChallenge && rs[1].code == AuthenticationChallenge
      && rs[2].code == AuthenticationSuccessful
    ensures SaslExchange(SaslMechanism("LOGIN", None, [user, password]), w)
      == Authenticated(Ok(()), Played(w, ["AUTH LOGIN\r\n", user + CRLF, password + CRLF]))
  {
    var m := SaslMechanism("LOGIN", None, [user, password]);
    assert AuthCommand(m) == "AUTH LOGIN\r\n";
    assert ResponseLines(m.responses, 2) == [user + CRLF, password + CRLF];
    assert [AuthCommand(m)] + ResponseLines(m.responses, 2) == ["AUTH LOGIN\r\n", user + CRLF, password + CRLF];
    SaslSucceeds(m, w, 2);
  }

  /** PLAIN with its initial response on the AUTH line: one line, accepted
      at once. */
  lemma PlainExchange(w: Wire, initial: string)
    requires w.pending == []
    requires ScriptedLines(w, ["AUTH PLAIN " + initial + CRLF])
    requires RepliesAt(w, 1)[0].code == AuthenticationSuccessful
    ensures SaslExchange(SaslMechanism("PLAIN", Some(initial), []), w)
      == Authenticated(Ok(()), Played(w, ["AUTH PLAIN " + initial + CRLF]))
  {
    var m := SaslMechanism("PLAIN", Some(initial), []);
    assert AuthCommand(m) == "AUTH PLAIN " + initial + CRLF;
    PlayOne(w, AuthCommand(m));
  }

  /** A final refusal fails the exchange with the server's code, and
      nothing more is written, whatever the mechanism had left to say. */
  lemma RefusedExchange(w: Wire, m: SaslMechanism)
    requires w.pending == [] && ScriptedLines(w, [AuthCommand(m)])
    requires var code := RepliesAt(w, 1)[0].code; !Completes(code) && code != AuthenticationChallenge
    ensures SaslExchange(m, w)
      == Authenticated(Err(AuthenticationFailed(RepliesAt(w, 1)[0].code)), Played(w, [AuthCommand(m)]))
  {
    PlayOne(w, AuthCommand(m));
  }

  /** A challenge the mechanism has no answer for fails the exchange. */
  lemma UnansweredChallenge(w: Wire, name: string, initial: Option<string>)
    requires w.pending == [] && ScriptedLines(w, [AuthCommand(SaslMechanism(name, initial, []))])
    requires RepliesAt(w, 1)[0].code == AuthenticationChallenge
    ensures var m := SaslMechanism(name, initial, []);
      SaslExchange(m, w) == Authenticated(Err(AuthenticationFailed(AuthenticationChallenge)), Played(w, [AuthCommand(m)]))
  {
    PlayOne(w, AuthCommand(SaslMechanism(name, initial, [])));
  }
}
