/**
  The values the mail-protocol engine (the `samotop` crate) exchanges with
  the bridge. They are data only: the engine itself is not modelled.
*/
module Samotop {
  import opened Common

  /**
    `SmtpPath`: a reverse- or forward-path. The engine renders a path as text
    (its `Display`); the model carries that rendering.
  */
  datatype SmtpPath = SmtpPath(text: string)
  {
    /** `SmtpPath::to_string`. */
    function ToString(): string { text }
  }

  /** `SmtpMail`: the four commands that open a mail transaction, each with its sender path. */
  datatype SmtpMail = Mail(path: SmtpPath) | Send(path: SmtpPath) | Saml(path: SmtpPath) | Soml(path: SmtpPath)

  /** `Envelope`: the mail's correlation id, the opening command (once seen) and the recipients. */
  datatype Envelope = Envelope(id: string, mail: Option<SmtpMail>, rcpts: seq<SmtpPath>)

  /** `AcceptRecipientRequest`: a recipient the client proposes. */
  datatype AcceptRecipientRequest = AcceptRecipientRequest(rcpt: SmtpPath)

  /** `AcceptRecipientResult`. */
  datatype AcceptRecipientResult =
    | Failed
    | Rejected
    | RejectedWithNewPath(newPath: SmtpPath)
    | AcceptedWithNewPath(newPath: SmtpPath)
    | Accepted(rcpt: SmtpPath)

  /** `QueueResult`: what a finished mail reports back to the engine. */
  datatype QueueResult = QueuedWithId(id: string) | QueueFailed | Refused

  /** `AsyncSink`: what `Sink::start_send` reports about the item it was given. */
  datatype AsyncSink = Ready | NotReady(item: seq<byte>)

  /** `Async<()>`: what `Sink::poll_complete` reports. */
  datatype Async = AsyncReady | AsyncNotReady
}
