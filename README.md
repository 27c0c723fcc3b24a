# MailKit SmtpClient — a verified Dafny model

This project models the core of MailKit's `SmtpClient`, a client for the
Simple Mail Transfer Protocol (RFC 5321) with the extensions it uses:
STARTTLS (RFC 3207), AUTH (RFC 4954), PIPELINING (RFC 2920), 8BITMIME
(RFC 6152), BINARYMIME and CHUNKING (RFC 3030), and delivery status
notifications (RFC 3461).

- **SmtpTypes** (`types.dfy`): the client's vocabulary. It holds the
  capability flags, the exceptions it throws as `Error` values, the
  error codes of a refused command, and the reply codes it knows.
- **Text** (`text.dfy`): string helpers on `seq<char>`. Decimal numbers
  with their parse-back, joining and splitting on a separator, and
  CRLF-terminated command lines with their splitting.
- **ConnectDefaults** (`defaults.dfy`): `ComputeDefaultValues`. It turns
  a port and a `SecureSocketOptions` value into the effective port, the
  options, the URI and the STARTTLS flag.
- **Replay** (`replay.dfy`): the scripted server the client is run
  against, as in the client's tests.
  - It is an ordered list of expected writes, each with the replies that
    write releases.
  - It exists as a value (`Wire`) and as a mutable `ReplayStream` object.
    The object's methods are proved to agree with the value functions.
- **Commands** (`commands.dfy`): the command lines of the envelope and
  of the queries. This covers `BODY=`, `ENVID=`, `NOTIFY=`, `BDAT n LAST`,
  `VRFY` and `EXPN`, and the argument check of the queries.
- **Transaction** (`transaction.dfy`): one send.
  - The envelope goes sequentially or as one pipelined batch, then the
    content by `DATA` or `BDAT`.
  - A refused command is followed by `RSET`.
  - The spec function is `SendSpec`. The methods running it on the
    stream are proved equal to it.
- **Transcripts** (`transcripts.dfy`): the dialogues of the client's tests,
  proved against `SendSpec`. These are plain, pipelined and chunked
  deliveries, refusals of the sender or of every recipient, and 530
  replies.
- **Handshake** (`handshake.dfy`): greeting, EHLO with HELO fallback,
  and STARTTLS with its second EHLO, as spec functions and as methods.
- **Authentication** (`auth.dfy`): choosing the caller's most preferred
  mechanism the server still advertises, and the AUTH challenge/response
  loop.
- **Client** (`client.dfy`): the `SmtpClient` class.
  - Its fields are the connection flags, the capabilities in use and
    those negotiated, the mutable set of authentication mechanisms,
    `MaxSize`, `Timeout` (default 100000), the local domain and the
    stream.
  - Every public operation checks its arguments and state first
    (`…Gate` functions), then runs its spec function on the stream.
  - An exception is an `Err`/`Failed` value. A failure of the stream
    itself (`ProtocolFault`) drops the session, as a lost connection
    does.

All the behaviour is taken from the client's unit tests,
`UnitTests/Net/Smtp/SmtpClientTests.cs`, and from the protocol's RFCs.
The library's own `SmtpClient.cs` is not part of this model. Where the
tests leave a behaviour open, the choice made is listed under
"## Left out".

## Model

| member | source | states |
|---|---|---|
| ConnectDefaults.ComputeDefaultValues | UnitTests/Net/Smtp/SmtpClientTests.cs:227-246 | Auto resolves to SslOnConnect exactly when the port is 465, otherwise to StartTlsWhenAvailable. Any other option is kept. Port 0 becomes 465 under SslOnConnect and 25 otherwise, and a given port is kept. The scheme is smtps exactly under SslOnConnect. The STARTTLS flag is set exactly for StartTls and StartTlsWhenAvailable. |
| ConnectDefaults.DefaultValuesTable | UnitTests/Net/Smtp/SmtpClientTests.cs:250-273 | The fifteen port/option combinations of the test give the port, option, scheme, query and STARTTLS flag the test expects. |
| ConnectDefaults.UriDeterminesOptions | UnitTests/Net/Smtp/SmtpClientTests.cs:231-243 | Reading the option back from the computed URI's scheme and query, in the test's order, gives the resolved option for every port and option. |
| ConnectDefaults.ResolutionIsIdempotent | UnitTests/Net/Smtp/SmtpClientTests.cs:227-246 | Resolving already-resolved values once more changes nothing. |
| ConnectDefaults.SecureDefaultUri | UnitTests/Net/Smtp/SmtpClientTests.cs:252-258 | Port 0 with SslOnConnect for smtp.skyfall.net gives the URI smtps://smtp.skyfall.net:465/. |
| Text.NatToString | UnitTests/Net/Smtp/SmtpClientTests.cs:1143 | A size is written as a non-empty string of decimal digits without a leading zero. |
| Text.ParseNatToString | UnitTests/Net/Smtp/SmtpClientTests.cs:1143 | Parsing a written size gives the size back. |
| Text.SplitJoin | UnitTests/Net/Smtp/SmtpClientTests.cs:1788 | Splitting a comma-joined list of comma-free items gives the items back. |
| Text.SplitLinesConcat | UnitTests/Net/Smtp/SmtpClientTests.cs:1304 | Splitting concatenated CRLF command lines at their line feeds gives the lines back. |
| Replay.WritePreservesConsistency | UnitTests/Net/Smtp/SmtpClientTests.cs:645-670 | An accepted write adds exactly the next scripted command to the transcript. It releases that entry's replies after those still pending. The transcript stays equal to the consumed script. |
| Replay.ReadPreservesConsistency | UnitTests/Net/Smtp/SmtpClientTests.cs:645-670 | Reading n replies takes the n oldest pending ones, in order, and changes nothing else. |
| Replay.ReadNIsRepeatedRead | UnitTests/Net/Smtp/SmtpClientTests.cs:1304 | Reading a batch of n replies is reading one reply and then the other n-1. |
| Replay.ScriptCompleted | UnitTests/Net/Smtp/SmtpClientTests.cs:645-670 | A stream that consumed its whole script has written exactly the script's commands, in order. |
| Replay.SplitScript | UnitTests/Net/Smtp/SmtpClientTests.cs:645-670 | A script for two runs of lines is a script for the first run followed by one for the second, and its replies are theirs in order. |
| Replay.ReplayStream.constructor | UnitTests/Net/Smtp/SmtpClientTests.cs:676 | A new stream has consumed nothing, has nothing pending and has written nothing. |
| Replay.ReplayStream.Write | UnitTests/Net/Smtp/SmtpClientTests.cs:645-670 | A write succeeds exactly when it equals the next scripted command, and the new state is the script's. A refused write changes nothing. |
| Replay.ReplayStream.Read | UnitTests/Net/Smtp/SmtpClientTests.cs:645-670 | Returns the oldest pending reply and removes it. Returns None, with nothing changed, when nothing is pending. |
| Replay.ReplayStream.Exchange | UnitTests/Net/Smtp/SmtpClientTests.cs:645-670 | The reply and the new state are those of the write followed by the read. |
| Replay.ReplayStream.ReadReplies | UnitTests/Net/Smtp/SmtpClientTests.cs:1304 | Returns the n oldest pending replies in order, or None with nothing changed when fewer are pending. |
| Replay.ReplayStream.WriteContent | UnitTests/Net/Smtp/SmtpClientTests.cs:656-657 | Writing the message content appends it to what the stream has received as content and changes nothing else: the script, the pending replies and the command transcript stay as they were. |
| Commands.TransferEncoding | UnitTests/Net/Smtp/SmtpClientTests.cs:1154-1156 | BINARYMIME is used exactly for a binary body when the server offers BINARYMIME and CHUNKING. 8BITMIME is used exactly for an 8-bit body, or a binary body that cannot go as BINARYMIME, when the server offers 8BITMIME. A 7-bit body stays 7-bit. |
| Commands.PlanTransaction | UnitTests/Net/Smtp/SmtpClientTests.cs:1781-1788 | For any input: one RCPT TO line per recipient, in order. MAIL FROM is `MAIL FROM:<sender>` plus BODY= as the encoding requires, and ENVID= is appended exactly when DSN is offered and an envelope id is given. RCPT TO is `RCPT TO:<address>`, and NOTIFY= with the keywords joined by commas is appended exactly when DSN is offered and the recipient has a non-empty notify set. BDAT is used exactly for BINARYMIME. |
| Commands.NotifyKeywords | UnitTests/Net/Smtp/SmtpClientTests.cs:1771 | NEVER stands alone. Otherwise only SUCCESS, FAILURE and DELAY appear. |
| Commands.NotifyRoundTrip | UnitTests/Net/Smtp/SmtpClientTests.cs:1788 | For any non-empty request, reading the keywords of NOTIFY= back from the comma-joined text gives the requested notifications, or just NEVER when it was asked for. |
| Commands.KeywordsReadBack | UnitTests/Net/Smtp/SmtpClientTests.cs:1771 | The notifications named by the keywords are those requested, with NEVER overriding the others. |
| Commands.NotifyKeywordsEmpty | UnitTests/Net/Smtp/SmtpClientTests.cs:1765-1771 | There are no keywords exactly when no notification is requested. |
| Commands.NotifyAll | UnitTests/Net/Smtp/SmtpClientTests.cs:1788 | Success, failure and delay together give " NOTIFY=SUCCESS,FAILURE,DELAY". |
| Commands.BdatRoundTrip | UnitTests/Net/Smtp/SmtpClientTests.cs:1143 | The octet count read back from "BDAT n LAST" is n. |
| Commands.CheckArgument | UnitTests/Net/Smtp/SmtpClientTests.cs:209-223 | A null argument is ArgumentNull. An empty argument, or one containing a line break, is Argument. Anything else is accepted unchanged. |
| Commands.EnvelopeLinesAreCommandLines | UnitTests/Net/Smtp/SmtpClientTests.cs:1781-1788 | MAIL FROM and RCPT TO built from line-free text are each exactly one CRLF-terminated line. |
| Commands.CheckedArgumentIsOneLine | UnitTests/Net/Smtp/SmtpClientTests.cs:209-223 | A VRFY or EXPN line built from an accepted argument is exactly one command line. |
| Commands.NotifyParameterIsOneLine | UnitTests/Net/Smtp/SmtpClientTests.cs:1788 | The NOTIFY= parameter never contains a line break. |
| Transaction.Record | UnitTests/Net/Smtp/SmtpClientTests.cs:1548 | A 250/251 reply to RCPT TO counts an accepted recipient. A 450/550/551/553 reply records the refusal and goes on. A 530 reply aborts with ServiceNotAuthenticated. Any other reply aborts with an unexpected status code. An aborted tally stays aborted. |
| Transaction.TallyReplies | UnitTests/Net/Smtp/SmtpClientTests.cs:1304 | The loop's tally of a reply batch is the tally of the replies in the order read. |
| Transaction.SendRecipients | UnitTests/Net/Smtp/SmtpClientTests.cs:654-655 | Sending the RCPT TO lines one by one leaves the tally and the stream that the sequential envelope specifies. |
| Transaction.SendEnvelope | UnitTests/Net/Smtp/SmtpClientTests.cs:1304 | The envelope method, pipelined or not, leaves the tally and stream the envelope specification gives. |
| Transaction.Abandon | UnitTests/Net/Smtp/SmtpClientTests.cs:1433-1434 | A refused command is reported after an RSET exchange. Any other error is reported with the stream untouched. |
| Transaction.SendContent | UnitTests/Net/Smtp/SmtpClientTests.cs:656-657 | The content method writes DATA, then (after 354) the message content, then the end-of-data line, or uses BDAT. Its result and stream are those of the DATA or BDAT specification. |
| Transaction.SendTransaction | UnitTests/Net/Smtp/SmtpClientTests.cs:654-657 | The whole send's result and final stream are those of SendSpec. |
| Transcripts.TalliedAborted | UnitTests/Net/Smtp/SmtpClientTests.cs:388 | Once aborted, no further RCPT TO reply changes the tally. |
| Transcripts.SequentialRcptsFollowScript | UnitTests/Net/Smtp/SmtpClientTests.cs:654-655 | Against a script for the RCPT TO lines, the sequential recipients give the tally of the scripted replies. When nothing aborts, exactly those lines are written. |
| Transcripts.EnvelopeAccepted | UnitTests/Net/Smtp/SmtpClientTests.cs:654-655 | MAIL FROM answered 250 and every RCPT TO accepted, one command at a time, count every recipient and write exactly the envelope lines. |
| Transcripts.DataAccepted | UnitTests/Net/Smtp/SmtpClientTests.cs:656-657 | DATA answered 354 and the end-of-data line answered 250 give Sent with the content size. The stream then holds both lines and the content. |
| Transcripts.SequentialEnvelopeFollowsScript | UnitTests/Net/Smtp/SmtpClientTests.cs:654-655 | Against a script for MAIL FROM and the RCPT TO lines, the sequential envelope gives the sender's verdict and then the recipients' tally of the scripted replies. |
| Transcripts.PipelinedEnvelopeFollowsScript | UnitTests/Net/Smtp/SmtpClientTests.cs:1304 | A pipelined batch answered with one reply per command gives the sender's verdict and then the tally of the remaining replies. |
| Transcripts.PipeliningPreservesVerdicts | UnitTests/Net/Smtp/SmtpClientTests.cs:1304 | Given the same replies, the pipelined and the sequential envelope reach the same tally. |
| Transcripts.BatchSplitsIntoCommands | UnitTests/Net/Smtp/SmtpClientTests.cs:1304 | The pipelined batch splits back into MAIL FROM and the RCPT TO lines, in order. |
| Transcripts.AllAccepted | UnitTests/Net/Smtp/SmtpClientTests.cs:655 | Replies that all accept count every recipient. |
| Transcripts.AllRefused | UnitTests/Net/Smtp/SmtpClientTests.cs:1548 | Replies that all refuse count none, and the last refusal code is kept. |
| Transcripts.PlainDelivery | UnitTests/Net/Smtp/SmtpClientTests.cs:654-657 | MAIL 250, RCPT 250 each, DATA 354 and end-of-data 250 give Sent with the content size. The stream then holds exactly those lines and the message content. |
| Transcripts.PipelinedDelivery | UnitTests/Net/Smtp/SmtpClientTests.cs:1304-1306 | The pipelined batch answered positively, then DATA 354 and end-of-data 250, give Sent. The stream then holds the batch, DATA, the end-of-data line and the message content. |
| Transcripts.ChunkedDelivery | UnitTests/Net/Smtp/SmtpClientTests.cs:1156-1158 | MAIL, RCPT and one BDAT chunk answered 250 give Sent, after exactly those writes. |
| Transcripts.SenderRefused | UnitTests/Net/Smtp/SmtpClientTests.cs:1433-1471 | MAIL FROM answered 550 or 553 gives SenderNotAccepted with its code, after RSET. |
| Transcripts.EveryRecipientRefused | UnitTests/Net/Smtp/SmtpClientTests.cs:1547-1586 | Every RCPT TO refused gives RecipientNotAccepted with the last refusal code, after RSET and without DATA. |
| Transcripts.SenderNeedsAuthentication | UnitTests/Net/Smtp/SmtpClientTests.cs:1662-1693 | MAIL FROM answered 530 gives ServiceNotAuthenticated, without RSET. |
| Transcripts.RecipientNeedsAuthentication | UnitTests/Net/Smtp/SmtpClientTests.cs:387-388 | RCPT TO answered 530 after MAIL 250 gives ServiceNotAuthenticated, without RSET. |
| Handshake.HelloDomain | UnitTests/Net/Smtp/SmtpClientTests.cs:323-329 | A configured host name is used as is. A configured name made only of digits and dots (such as an IPv4 address) is bracketed. Without a local domain, or with an empty one, the bracketed local address is used. The name is never empty. |
| Handshake.Hello | UnitTests/Net/Smtp/SmtpClientTests.cs:647 | A session from EHLO/HELO is never secure. It negotiates what EHLO advertised, or nothing after the HELO fallback. |
| Handshake.Upgrade | UnitTests/Net/Smtp/SmtpClientTests.cs:604-618 | A session that went through STARTTLS is secure. |
| Handshake.SayHello | UnitTests/Net/Smtp/SmtpClientTests.cs:647 | EHLO/HELO on the stream gives the result and stream of Hello. |
| Handshake.UpgradeSession | UnitTests/Net/Smtp/SmtpClientTests.cs:604-618 | STARTTLS on the stream gives the result and stream of Upgrade. |
| Handshake.OpenSession | UnitTests/Net/Smtp/SmtpClientTests.cs:646-647 | The whole handshake on the stream gives the result and stream of Open. |
| Handshake.RequiredTlsIsHonoured | UnitTests/Net/Smtp/SmtpClientTests.cs:609-618 | With STARTTLS required, any session that opens is secure. |
| Handshake.NoUpgradeKeepsFirstOffer | UnitTests/Net/Smtp/SmtpClientTests.cs:517-526 | Without STARTTLS, the session keeps the first EHLO's offer (or nothing after HELO). It is secure exactly under SslOnConnect. |
| Handshake.GreetingAndEhlo | UnitTests/Net/Smtp/SmtpClientTests.cs:645-679 | Greeting 220 and EHLO 250 open a plain session with what EHLO advertised, after exactly those two writes. |
| Handshake.HeloFallback | UnitTests/Net/Smtp/SmtpClientTests.cs:647 | EHLO refused and HELO accepted open a session with no extension. The fallback follows section 3.2 of RFC 5321; no test exercises it and the cited line is the EHLO it replaces. |
| Handshake.UpgradeReplacesOffer | UnitTests/Net/Smtp/SmtpClientTests.cs:579-582 | After STARTTLS 220 and a second EHLO 250, the second offer replaces the first and the session is secure. |
| Handshake.RequiredTlsNotOffered | UnitTests/Net/Smtp/SmtpClientTests.cs:609-618 | STARTTLS required but not offered gives NotSupported right after EHLO. |
| Authentication.Challenged | UnitTests/Net/Smtp/SmtpClientTests.cs:648-650 | A failed exchange ends in a fault or in the server's non-2xx code. The exchange writes at most one line per response and only appends to the transcript. |
| Authentication.SaslExchange | UnitTests/Net/Smtp/SmtpClientTests.cs:896-898 | The same for the whole exchange, including the AUTH line. |
| Authentication.Authenticate | UnitTests/Net/Smtp/SmtpClientTests.cs:648-650 | The challenge/response loop on the stream gives the result and stream of SaslExchange. |
| Authentication.FirstAdvertised | UnitTests/Net/Smtp/SmtpClientTests.cs:703-706 | The position found is the first candidate the server advertises, or the end of the list when none is advertised. |
| Authentication.ChooseMechanism | UnitTests/Net/Smtp/SmtpClientTests.cs:703-706 | The loop returns the preferred advertised candidate. |
| Authentication.PreferredIsAdvertised | UnitTests/Net/Smtp/SmtpClientTests.cs:703-706 | Nothing is chosen exactly when no candidate is advertised. A chosen mechanism is one of the candidates and is advertised. |
| Authentication.RemovedIsNeverChosen | UnitTests/Net/Smtp/SmtpClientTests.cs:702-703 | A removed mechanism is never chosen. Removing one that would not have been chosen does not change the choice. |
| Authentication.PlainThenLogin | UnitTests/Net/Smtp/SmtpClientTests.cs:703-706 | With PLAIN preferred, PLAIN is used when both are advertised and LOGIN once PLAIN is removed. |
| Authentication.LoginExchange | UnitTests/Net/Smtp/SmtpClientTests.cs:648-650 | AUTH LOGIN answered 334, 334, 235 authenticates after exactly three writes. |
| Authentication.PlainExchange | UnitTests/Net/Smtp/SmtpClientTests.cs:392 | AUTH PLAIN with its initial response answered 235 authenticates after one write. |
| Authentication.RefusedExchange | UnitTests/Net/Smtp/SmtpClientTests.cs:648 | A final refusal of AUTH gives AuthenticationFailed with its code, as section 4 of RFC 4954 describes; no test exercises a refusal and the cited line is the AUTH command it would answer. |
| Authentication.UnansweredChallenge | UnitTests/Net/Smtp/SmtpClientTests.cs:648-650 | A challenge the mechanism has no response for fails the exchange with code 334. |
| Authentication.ChallengesAnswered | UnitTests/Net/Smtp/SmtpClientTests.cs:648-650 | For any responses and any k up to their number: k challenges (334) and then a 2xx reply are answered by exactly the first k responses, in order, and the exchange succeeds. |
| Authentication.ChallengeRefused | UnitTests/Net/Smtp/SmtpClientTests.cs:648-650 | For any responses: j challenges followed by a reply that is not 2xx, and is not a 334 the mechanism could still answer, fail with AuthenticationFailed and that reply's code after exactly the first j responses. |
| Authentication.SaslSucceeds | UnitTests/Net/Smtp/SmtpClientTests.cs:648-650 | For any mechanism: the AUTH line answered by k challenges and then 2xx authenticates, and the stream holds exactly the AUTH line and the first k responses. |
| Authentication.SaslFails | UnitTests/Net/Smtp/SmtpClientTests.cs:648-650 | For any mechanism: a refusal after j challenges fails with the refusal's code after exactly j + 1 written lines. |
| Client.Distinct | UnitTests/Net/Smtp/SmtpClientTests.cs:67-78 | Each address appears once, every address of the input appears, and no other, in the order of first appearance in the input. |
| Client.Narrowed | UnitTests/Net/Smtp/SmtpClientTests.cs:697 | Setting the capabilities succeeds exactly for a subset of what was negotiated, and changes nothing else. Otherwise it is ArgumentException. |
| Client.NarrowOnly | UnitTests/Net/Smtp/SmtpClientTests.cs:1821 | Clearing flags always succeeds. Adding one the server did not offer is refused. |
| Client.TransitionsKeepCoherence | UnitTests/Net/Smtp/SmtpClientTests.cs:524-526 | Every state transition keeps the invariants: capabilities in use were negotiated, and a disconnected client holds nothing. |
| Client.DisconnectedRefusesAll | UnitTests/Net/Smtp/SmtpClientTests.cs:403-415 | Before Connect, Authenticate, NoOp, every Send, Verify and Expand are refused, with ServiceNotConnected when the arguments are valid. |
| Client.NoSecondConnectOrAuthentication | UnitTests/Net/Smtp/SmtpClientTests.cs:423-442 | Connect while connected, and Authenticate while authenticated, give InvalidOperationException. |
| Client.IncompleteMessageRefused | UnitTests/Net/Smtp/SmtpClientTests.cs:337-343 | A message without sender or without any recipient is refused with InvalidOperationException. |
| Client.DsnParameters | UnitTests/Net/Smtp/SmtpClientTests.cs:1754-1791 | With the test's hooks and DSN offered, MAIL carries BODY=8BITMIME and ENVID=<Message-Id>, and RCPT carries NOTIFY=SUCCESS,FAILURE,DELAY. Without DSN, neither is sent. |
| Client.SmtpClient.constructor | UnitTests/Net/Smtp/SmtpClientTests.cs:699 | A new client is disconnected with timeout 100000 and hooks that ask for nothing. |
| Client.SmtpClient.WithHooks | UnitTests/Net/Smtp/SmtpClientTests.cs:1754-1773 | A client whose envelope-id and notification hooks are given. |
| Client.SmtpClient.Connect | UnitTests/Net/Smtp/SmtpClientTests.cs:122-155 | A missing host or transport is ArgumentNull. An empty host is Argument. A port outside 0..65535 is ArgumentOutOfRange. Connect while connected is InvalidOperation. Each refusal changes nothing. Otherwise the handshake runs with the resolved defaults, and the state is what it negotiated (or disconnected on failure). |
| Client.SmtpClient.SetCapabilities | UnitTests/Net/Smtp/SmtpClientTests.cs:697 | The new state is exactly the one Narrowed gives. A refusal changes nothing. |
| Client.SmtpClient.RemoveAuthenticationMechanism | UnitTests/Net/Smtp/SmtpClientTests.cs:703 | The name leaves the mechanism set, and nothing else changes. The result says whether it was there. |
| Client.SmtpClient.Authenticate | UnitTests/Net/Smtp/SmtpClientTests.cs:933-935 | A null mechanism is ArgumentNull. Not connected, already authenticated and no AUTH offered are refused with nothing changed. Otherwise the exchange's outcome is the result and the client is authenticated on success. |
| Client.SmtpClient.AuthenticateWith | UnitTests/Net/Smtp/SmtpClientTests.cs:403-440 | Null credentials are ArgumentNull. The same state checks apply. No usable advertised mechanism is NotSupported. Otherwise the preferred advertised mechanism is run. |
| Client.QueryAnswered | UnitTests/Net/Smtp/SmtpClientTests.cs:651-653 | For any command line the script answers next, VRFY, EXPN or NOOP alike: exactly that line is written. The result is Ok with the reply text exactly when the code is 250, and otherwise an unexpected status with that code. Neither outcome drops the session. |
| Client.SmtpClient.Verify | UnitTests/Net/Smtp/SmtpClientTests.cs:218-223 | The argument check, then ServiceNotConnected, with nothing changed. Otherwise VRFY's 250 text is returned, and any other reply is an error. |
| Client.SmtpClient.Expand | UnitTests/Net/Smtp/SmtpClientTests.cs:210-215 | The same for EXPN. |
| Client.SmtpClient.NoOp | UnitTests/Net/Smtp/SmtpClientTests.cs:407 | ServiceNotConnected before Connect. Otherwise NOOP must be answered 250. |
| Client.SmtpClient.Send | UnitTests/Net/Smtp/SmtpClientTests.cs:337-343 | A null message is ArgumentNull. No sender or no recipient is InvalidOperation. Not connected is ServiceNotConnected. Otherwise the outcome is SendSpec's, for the envelope built from the headers and the capabilities in use. |
| Client.SmtpClient.SendTo | UnitTests/Net/Smtp/SmtpClientTests.cs:184-192 | Null arguments are ArgumentNull. An empty recipient list is InvalidOperation. Otherwise the outcome is SendSpec's for the given envelope. |
| Client.SmtpClient.Disconnect | UnitTests/Net/Smtp/SmtpClientTests.cs:757-764 | The client ends disconnected with every flag cleared. QUIT is exchanged exactly when connected and asked for. |

## Left out

- Networking: sockets, DNS, TLS negotiation and certificate checks, and the proxy client are left out. A connection is a `ReplayStream`. What each EHLO advertises, before and after STARTTLS, is a parameter of `Connect`.
- Async variants (`ConnectAsync`, `SendAsync`, …), cancellation tokens, `SyncRoot` and the effect of `Timeout` on I/O are left out. `Timeout` is kept as a field only.
- EHLO reply parsing is left out: the advertised extensions, mechanisms and SIZE come in as an `EhloInfo`. So are enhanced status codes and the text of replies beyond VRFY/EXPN.
- SASL mechanisms' internals (base64, credential encoding, challenge-dependent answers) are left out. A mechanism is given as its name, initial response and ready-made responses.
- MIME serialisation, dot-stuffing, `Measure` and the progress callback are left out. A message's content is a ready string of type `Octets`, and `Sent` reports its length.
- Transaction.Transfer: a message's content is its serialised octets, one char per byte (`SmtpTypes.Octets`), so `|data|` is the byte count that `BDAT n` announces and that `Sent` reports. Encoding text such as "☮ ☯" into UTF-8 octets is part of the serialisation left out above.
- Transaction.MailFromError: only 550 and 553 to MAIL FROM mean SenderNotAccepted, and 530 means ServiceNotAuthenticated. Every other code that is not 250, 450, 451, 452, 552 or 554 included, fails with UnexpectedStatusCode and the transaction is abandoned with RSET. The tests show only 250, 550 and 530.
- Transaction.Record: only 450, 550, 551 and 553 to RCPT TO count as a refused recipient, with the envelope going on. 250 and 251 accept and 530 aborts with ServiceNotAuthenticated. Every other code, 452 and 552 included, aborts the whole envelope with UnexpectedStatusCode and the transaction is abandoned with RSET, even when earlier recipients were accepted. The tests show only 250, 550 and 530.
- Replay.ReplayStream.WriteContent: the content is written as given, without dot-stuffing, and the replay server keeps it apart from the script without matching it against anything. Only DATA and the end-of-data line are scripted.
- The SIZE parameter on MAIL FROM and the check against `MaxSize` are left out. The replayed MAIL FROM lines carry no SIZE.
- SMTPUTF8, international addresses, Resent-* headers and case-insensitive address comparison are left out. `Client.Distinct` compares addresses exactly.
- Client.Connect(Uri) is left out: host and port arrive separately. An unconnected socket is also left out, since the transport is either present or null.
- Transfer: more than one BDAT chunk is not modelled. The whole content goes as one `BDAT n LAST`, as in the binary test.
- Handshake.Open: the greeting is modelled as the script's empty first write, with its reply read. The reply to RSET and to QUIT is read but not examined.
- Commands.TransferEncoding: a binary body that cannot go as BINARYMIME falls back to 8BITMIME when offered, else 7BIT. The tests only show the offered cases.
- Client.SmtpClient.SetCapabilities: the check is against the negotiated set, so a flag turned off can be turned on again. The tests only show UTF8 refused and Pipelining cleared.
- Transaction.SendSpec: the transaction is abandoned only when every recipient is refused. With some accepted, the content is sent to those. The tests show one recipient only.
- Authentication.Completes: any 2xx final reply completes the exchange. The tests show 235 only.
- Client.SmtpClient.Verify: only 250 is a positive answer to VRFY and EXPN. 251/252 are reported as unexpected.
- Client.SmtpClient.AuthenticateWith: the credential overloads are one method taking the candidate mechanisms in order of preference. The encoding overloads are left out.
- Integer widths: ports, sizes and counts are unbounded `int`/`nat`. The port range check covers the 16-bit range of a TCP port.
