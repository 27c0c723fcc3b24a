/** The command builder: envelope command lines (RFC 5321 section 4.1.1),
    their BODY parameter (RFC 6152, section 3 of RFC 3030), the DSN
    parameters ENVID and NOTIFY (sections 4.1 and 4.4 of RFC 3461), BDAT
    (section 2 of RFC 3030), and the validation of VRFY/EXPN arguments. */
module Commands {
  import opened SmtpTypes
  import opened Text

  /** The transfer encoding a message's content requires. */
  datatype BodyType = SevenBit | EightBit | Binary

  datatype DeliveryStatusNotification = Never | Success | Failure | Delay

  const DataCommand: string := "DATA\r\n"
  const EndOfData: string := ".\r\n"
  const RsetCommand: string := "RSET\r\n"
  const NoopCommand: string := "NOOP\r\n"
  const QuitCommand: string := "QUIT\r\n"
  const StartTlsCommand: string := "STARTTLS\r\n"

  /** The encoding the message goes out in. Binary content needs BINARYMIME
      together with CHUNKING; 8-bit content needs 8BITMIME; otherwise the
      message serializer downgrades the content to what the server accepts. */
  function TransferEncoding(body: BodyType, caps: set<Capability>): (e: BodyType)
    ensures e == Binary <==> body == Binary && BinaryMime in caps && Chunking in caps
    ensures e == EightBit <==>
      EightBitMime in caps && (body == EightBit || (body == Binary && !(BinaryMime in caps && Chunking in caps)))
    ensures body == SevenBit ==> e == SevenBit
  {
    match body
    case Binary =>
      if BinaryMime in caps && Chunking in caps then Binary
      else if EightBitMime in caps then EightBit
      else SevenBit
    case EightBit => if EightBitMime in caps then EightBit else SevenBit
    case SevenBit => SevenBit
  }

  function BodyParameter(e: BodyType): string {
    match e
    case SevenBit => ""
    case EightBit => " BODY=8BITMIME"
    case Binary => " BODY=BINARYMIME"
  }

  function EnvelopeIdParameter(envid: Option<string>): string {
    match envid
    case None => ""
    case Some(id) => " ENVID=" + id
  }

  /** `MAIL FROM:<sender>` with the BODY and ENVID parameters. */
  function MailFromCommand(sender: string, e: BodyType, envid: Option<string>): string {
    "MAIL FROM:<" + sender + ">" + BodyParameter(e) + EnvelopeIdParameter(envid) + CRLF
  }

  /** The NOTIFY keywords of a flag set: NEVER alone, or SUCCESS, FAILURE and
      DELAY in that fixed order. */
  function NotifyKeywords(flags: set<DeliveryStatusNotification>): (k: seq<string>)
    ensures Never in flags ==> k == ["NEVER"]
    ensures Never !in flags ==> forall i :: 0 <= i < |k| ==> k[i] in ["SUCCESS", "FAILURE", "DELAY"]
  {
    if Never in flags then ["NEVER"]
    else
      (if Success in flags then ["SUCCESS"] else [])
      + (if Failure in flags then ["FAILURE"] else [])
      + (if Delay in flags then ["DELAY"] else [])
  }

  function NotifyParameter(notify: Option<set<DeliveryStatusNotification>>): string {
    match notify
    case None => ""
    case Some(flags) => if flags == {} then "" else " NOTIFY=" + Join(NotifyKeywords(flags), ',')
  }

  /** `RCPT TO:<recipient>` with the NOTIFY parameter. */
  function RcptToCommand(recipient: string, notify: Option<set<DeliveryStatusNotification>>): string {
    "RCPT TO:<" + recipient + ">" + NotifyParameter(notify) + CRLF
  }

  /** One BDAT chunk that carries the whole message. */
  function BdatCommand(size: nat): string {
    "BDAT " + NatToString(size) + " LAST" + CRLF
  }

  function VrfyCommand(argument: string): string { "VRFY " + argument + CRLF }

  function ExpnCommand(argument: string): string { "EXPN " + argument + CRLF }

  /** The argument check of Verify and Expand: present, not empty and
      without line breaks (which would smuggle in a second command). */
  function CheckArgument(argument: Option<string>): (r: Result<string>)
    ensures argument == None ==> r == Err(ArgumentNull)
    ensures argument.Some? ==>
      (r == Ok(argument.value) <==> argument.value != "" && NoLineBreak(argument.value))
    ensures argument.Some? && !r.Ok? ==> r == Err(Argument)
  {
    match argument
    case None => Err(ArgumentNull)
    case Some(s) => if s == "" || !NoLineBreak(s) then Err(Argument) else Ok(s)
  }

  /** The lines one Send call writes for its envelope, and how the content
      is transferred (BDAT when chunked, DATA otherwise). */
  datatype Plan = Plan(mailFrom: string, rcptTo: seq<string>, chunked: bool)

  /** Builds the envelope for the negotiated capabilities. The envelope id
      and the per-recipient notifications come from the client's hooks and
      are used only when the server offers DSN. */
  function PlanTransaction(
    caps: set<Capability>, sender: string, recipients: seq<string>, body: BodyType,
    envid: Option<string>, notify: string -> Option<set<DeliveryStatusNotification>>): (p: Plan)
    ensures |p.rcptTo| == |recipients|
    ensures p.chunked <==> TransferEncoding(body, caps) == Binary
    // Without DSN, or without an envelope id, MAIL FROM carries BODY= at most.
    ensures Dsn !in caps || envid == None ==>
      p.mailFrom == "MAIL FROM:<" + sender + ">" + BodyParameter(TransferEncoding(body, caps)) + CRLF
    ensures Dsn in caps && envid.Some? ==>
      p.mailFrom == "MAIL FROM:<" + sender + ">" + BodyParameter(TransferEncoding(body, caps))
        + " ENVID=" + envid.value + CRLF
    // Without DSN, or with nothing to notify, RCPT TO is the bare address.
    ensures forall i :: 0 <= i < |recipients| && (Dsn !in caps || notify(recipients[i]) in {None, Some({})}) ==>
      p.rcptTo[i] == "RCPT TO:<" + recipients[i] + ">" + CRLF
    ensures forall i ::
      (0 <= i < |recipients| && Dsn in caps && notify(recipients[i]).Some? && notify(recipients[i]).value != {}) ==>
      p.rcptTo[i] == "RCPT TO:<" + recipients[i] + ">" + " NOTIFY="
        + Join(NotifyKeywords(notify(recipients[i]).value), ',') + CRLF
  {
    var e := TransferEncoding(body, caps);
    var used := if Dsn in caps then envid else None;
    var lines := seq(|recipients|, i requires 0 <= i < |recipients| =>
      RcptToCommand(recipients[i], if Dsn in caps then notify(recipients[i]) else None));
    MailFromLine(sender, e, used);
    assert forall i :: 0 <= i < |recipients| ==> RcptToLineIs(recipients[i], if Dsn in caps then notify(recipients[i]) else None, lines[i]) by {
      forall i | 0 <= i < |recipients| {
        RcptToLine(recipients[i], if Dsn in caps then notify(recipients[i]) else None);
      }
    }
    Plan(MailFromCommand(sender, e, used), lines, e == Binary)
  }

  /** MAIL FROM written out: BODY= first, then ENVID= when an id is given. */
  lemma MailFromLine(sender: string, e: BodyType, envid: Option<string>)
    ensures envid == None ==> MailFromCommand(sender, e, envid) == "MAIL FROM:<" + sender + ">" + BodyParameter(e) + CRLF
    ensures envid.Some? ==>
      MailFromCommand(sender, e, envid) == "MAIL FROM:<" + sender + ">" + BodyParameter(e) + " ENVID=" + envid.value + CRLF
  {
    assert "MAIL FROM:<" + sender + ">" + BodyParameter(e) + "" == "MAIL FROM:<" + sender + ">" + BodyParameter(e);
  }

  /** `line` is the RCPT TO line for the recipient: bare when there is
      nothing to notify, with NOTIFY= otherwise. */
  predicate RcptToLineIs(recipient: string, notify: Option<set<DeliveryStatusNotification>>, line: string) {
    && (notify == None || notify == Some({}) ==> line == "RCPT TO:<" + recipient + ">" + CRLF)
    && (notify.Some? && notify.value != {} ==>
          line == "RCPT TO:<" + recipient + ">" + " NOTIFY=" + Join(NotifyKeywords(notify.value), ',') + CRLF)
  }

  lemma RcptToLine(recipient: string, notify: Option<set<DeliveryStatusNotification>>)
    ensures RcptToLineIs(recipient, notify, RcptToCommand(recipient, notify))
  {
    assert "RCPT TO:<" + recipient + ">" + "" == "RCPT TO:<" + recipient + ">";
  }

  // ---- Properties of the command lines ----

  function Keyword(f: DeliveryStatusNotification): string {
    match f
    case Never => "NEVER"
    case Success => "SUCCESS"
    case Failure => "FAILURE"
    case Delay => "DELAY"
  }

  /** The flag a NOTIFY keyword names, if any. */
  function FlagOf(keyword: string): Option<DeliveryStatusNotification> {
    if keyword == "NEVER" then Some(Never)
    else if keyword == "SUCCESS" then Some(Success)
    else if keyword == "FAILURE" then Some(Failure)
    else if keyword == "DELAY" then Some(Delay)
    else None
  }

  /** Reads the flag set back from a keyword list. */
  function FlagsOf(keywords: seq<string>): set<DeliveryStatusNotification>
    decreases |keywords|
  {
    if keywords == [] then {}
    else (match FlagOf(keywords[0]) case Some(f) => {f} case None => {}) + FlagsOf(keywords[1..])
  }

  lemma {:induction false} FlagsOfAppend(a: seq<string>, b: seq<string>)
    ensures FlagsOf(a + b) == FlagsOf(a) + FlagsOf(b)
    decreases |a|
  {
    if a != [] {
      assert (a + b)[1..] == a[1..] + b;
      FlagsOfAppend(a[1..], b);
    } else {
      assert a + b == b;
    }
  }

  /** The NOTIFY value is read back as the flags it was built from (NEVER
      overriding the others), so the comma-joined list loses nothing. */
  lemma NotifyRoundTrip(flags: set<DeliveryStatusNotification>)
    requires flags != {}
    ensures var keywords := NotifyKeywords(flags);
      FlagsOf(Split(Join(keywords, ','), ',')) == if Never in flags then {Never} else flags
  {
    var keywords := NotifyKeywords(flags);
    KeywordsHaveNoComma(flags);
    NotifyKeywordsEmpty(flags);
    SplitJoin(keywords, ',');
    KeywordsReadBack(flags);
  }

  lemma KeywordsHaveNoComma(flags: set<DeliveryStatusNotification>)
    ensures forall k :: 0 <= k < |NotifyKeywords(flags)| ==> ',' !in NotifyKeywords(flags)[k]
  {
    var keywords := NotifyKeywords(flags);
    forall k | 0 <= k < |keywords| ensures ',' !in keywords[k] {
      assert keywords[k] in ["NEVER", "SUCCESS", "FAILURE", "DELAY"];
    }
  }

  lemma KeywordsReadBack(flags: set<DeliveryStatusNotification>)
    ensures FlagsOf(NotifyKeywords(flags)) == if Never in flags then {Never} else flags
  {
    var keywords := NotifyKeywords(flags);
    if Never in flags {
      assert FlagsOf(keywords) == {Never} + FlagsOf([]);
    } else {
      var s: seq<string> := if Success in flags then ["SUCCESS"] else [];
      var f: seq<string> := if Failure in flags then ["FAILURE"] else [];
      var d: seq<string> := if Delay in flags then ["DELAY"] else [];
      assert keywords == s + f + d;
      FlagsOfAppend(s + f, d);
      FlagsOfAppend(s, f);
      assert FlagsOf(s) == if Success in flags then {Success} else {};
      assert FlagsOf(f) == if Failure in flags then {Failure} else {};
      assert FlagsOf(d) == if Delay in flags then {Delay} else {};
      forall x | x in flags ensures x in FlagsOf(keywords) {
        match x
        case Success =>
        case Failure =>
        case Delay =>
      }
    }
  }

  /** NOTIFY is left out exactly when no flag is requested. */
  lemma NotifyKeywordsEmpty(flags: set<DeliveryStatusNotification>)
    ensures NotifyKeywords(flags) == [] <==> flags == {}
  {
    if flags != {} && Never !in flags {
      var x :| x in flags;
      match x
      case Success =>
      case Failure =>
      case Delay =>
    }
  }

  /** The octet count of a BDAT line reads back as the size it announces. */
  function BdatCount(line: string): Option<nat> {
    if |line| >= 12 && line[..5] == "BDAT " && line[|line| - 7..] == " LAST\r\n"
       && AllDigits(line[5..|line| - 7])
    then Some(ParseNat(line[5..|line| - 7]))
    else None
  }

  lemma BdatRoundTrip(size: nat)
    ensures BdatCount(BdatCommand(size)) == Some(size)
  {
    var digits := NatToString(size);
    var line := BdatCommand(size);
    assert line == "BDAT " + digits + " LAST\r\n";
    assert line[..5] == "BDAT ";
    assert line[|line| - 7..] == " LAST\r\n";
    assert line[5..|line| - 7] == digits;
    ParseNatToString(size);
  }

  /** Every envelope line is a single CRLF-terminated line when the
      addresses and the envelope id contain no line breaks. */
  lemma EnvelopeLinesAreCommandLines(
    sender: string, e: BodyType, envid: Option<string>,
    recipient: string, notify: Option<set<DeliveryStatusNotification>>)
    requires NoLineBreak(sender) && NoLineBreak(recipient)
    requires envid.Some? ==> NoLineBreak(envid.value)
    ensures IsCommandLine(MailFromCommand(sender, e, envid))
    ensures IsCommandLine(RcptToCommand(recipient, notify))
  {
    var mail := "MAIL FROM:<" + sender + ">" + BodyParameter(e) + EnvelopeIdParameter(envid);
    NoLineBreakConcat("MAIL FROM:<", sender);
    NoLineBreakConcat("MAIL FROM:<" + sender, ">");
    NoLineBreakConcat("MAIL FROM:<" + sender + ">", BodyParameter(e));
    if envid.Some? { NoLineBreakConcat(" ENVID=", envid.value); }
    NoLineBreakConcat("MAIL FROM:<" + sender + ">" + BodyParameter(e), EnvelopeIdParameter(envid));
    CommandLineOf(mail);
    var rcpt := "RCPT TO:<" + recipient + ">" + NotifyParameter(notify);
    NoLineBreakConcat("RCPT TO:<", recipient);
    NoLineBreakConcat("RCPT TO:<" + recipient, ">");
    NotifyParameterIsOneLine(notify);
    NoLineBreakConcat("RCPT TO:<" + recipient + ">", NotifyParameter(notify));
    CommandLineOf(rcpt);
  }

  lemma NoLineBreakConcat(a: string, b: string)
    requires NoLineBreak(a) && NoLineBreak(b)
    ensures NoLineBreak(a + b)
  {
    assert forall i :: 0 <= i < |a| ==> (a + b)[i] == a[i];
    assert forall i :: |a| <= i < |a + b| ==> (a + b)[i] == b[i - |a|];
  }

  lemma NotifyParameterIsOneLine(notify: Option<set<DeliveryStatusNotification>>)
    ensures NoLineBreak(NotifyParameter(notify))
  {
    if notify.Some? && notify.value != {} {
      var keywords := NotifyKeywords(notify.value);
      JoinKeywordsIsOneLine(keywords);
      NoLineBreakConcat(" NOTIFY=", Join(keywords, ','));
    }
  }

  lemma {:induction false} JoinKeywordsIsOneLine(keywords: seq<string>)
    requires forall i :: 0 <= i < |keywords| ==> keywords[i] in ["NEVER", "SUCCESS", "FAILURE", "DELAY"]
    ensures NoLineBreak(Join(keywords, ','))
    decreases |keywords|
  {
    if |keywords| > 1 {
      JoinKeywordsIsOneLine(keywords[1..]);
      NoLineBreakConcat(keywords[0], [',']);
      NoLineBreakConcat(keywords[0] + [','], Join(keywords[1..], ','));
    }
  }

  /** Asking for every notification gives SUCCESS, FAILURE and DELAY, in
      that order. */
  lemma NotifyAll()
    ensures NotifyParameter(Some({Success, Failure, Delay})) == " NOTIFY=SUCCESS,FAILURE,DELAY"
  {
    var flags: set<DeliveryStatusNotification> := {Success, Failure, Delay};
    var keywords := ["SUCCESS", "FAILURE", "DELAY"];
    assert Never !in flags && Success in flags && Failure in flags && Delay in flags;
    assert NotifyKeywords(flags) == keywords;
    var tail := keywords[1..];
    assert tail == ["FAILURE", "DELAY"] && tail[1..] == ["DELAY"];
    assert Join(tail, ',') == "FAILURE" + [','] + "DELAY";
    assert Join(keywords, ',') == "SUCCESS" + [','] + ("FAILURE" + [','] + "DELAY");
  }

  /** A VRFY or EXPN line built from an accepted argument is one line. */
  lemma CheckedArgumentIsOneLine(argument: Option<string>)
    requires CheckArgument(argument).Ok?
    ensures IsCommandLine(VrfyCommand(CheckArgument(argument).value))
    ensures IsCommandLine(ExpnCommand(CheckArgument(argument).value))
  {
    var s := CheckArgument(argument).value;
    NoLineBreakConcat("VRFY ", s);
    NoLineBreakConcat("EXPN ", s);
    CommandLineOf("VRFY " + s);
    CommandLineOf("EXPN " + s);
  }
}
