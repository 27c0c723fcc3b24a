/** Shared vocabulary of the SMTP client model: optional values, results,
    the negotiated extensions and the error taxonomy that replaces the
    client's exceptions. */
module SmtpTypes {

  datatype Option<+T> = None | Some(value: T)

  /** An operation either succeeds with a value or fails with an error that
      stands for the exception the client would throw. */
  datatype Result<+T> = Ok(value: T) | Err(error: Error)

  /** A message's serialised content, one char per octet, so that its
      length is the octet count BDAT announces and a send reports. */
  type Octets = s: string | forall i :: 0 <= i < |s| ==> s[i] as int < 256

  /** The SMTP service extensions the client recognises in an EHLO reply. */
  datatype Capability =
    | Authentication | Size | Dsn | EightBitMime | BinaryMime | Chunking
    | Pipelining | StartTLS | EnhancedStatusCodes | UTF8

  /** The categorical reason carried by a command failure. */
  datatype SmtpErrorCode =
    | SenderNotAccepted | RecipientNotAccepted | MessageNotAccepted | UnexpectedStatusCode

  datatype Error =
    // usage errors, detected before any I/O
    | ArgumentNull
    | Argument
    | ArgumentOutOfRange
    | InvalidOperation
    | ServiceNotConnected
    | NotSupported
    // protocol rejections, the session stays usable
    | ServiceNotAuthenticated(statusCode: nat)
    | Command(errorCode: SmtpErrorCode, statusCode: nat)
    | AuthenticationFailed(statusCode: nat)
    // the dialogue went out of step with the server: the session is dropped
    | ProtocolFault

  /** Reply codes of RFC 5321 section 4.2.3 that the client distinguishes. */
  const ServiceReady: nat := 220
  const ServiceClosing: nat := 221
  const AuthenticationSuccessful: nat := 235
  const ActionOk: nat := 250
  const UserNotLocalWillForward: nat := 251
  const AuthenticationChallenge: nat := 334
  const StartMailInput: nat := 354
  const MailboxBusy: nat := 450
  const AuthenticationRequired: nat := 530
  const MailboxUnavailable: nat := 550
  const UserNotLocalTryAlternatePath: nat := 551
  const MailboxNameNotAllowed: nat := 553
}
