/**
  The stand-alone bridge: sessions turn each finished mail into a command
  and hand it over a channel to one webhook thread, which posts the
  commands one at a time, in the order it receives them, until it is told
  to shut down.
*/
module Bridge {
  import opened Common
  import opened Samotop
  import opened Utf8
  import Discord

  /** The title of every posted message. */
  const TITLE: string := "New Email"

  /** `DiscordWebhookCommand`, built by `send_message` and `shutdown`. */
  datatype Command =
    | SendMessage(from: string, recipients: seq<string>, body: string)
    | Shutdown

  /** One field of a message embed: name, value, and whether it sits inline. */
  datatype EmbedField = EmbedField(name: string, value: string, inline: bool)

  /** The embed the webhook thread posts for one mail. */
  datatype Embed = Embed(title: string, fields: seq<EmbedField>)

  /** `recipients.iter().map(SmtpPath::to_string).collect()`. */
  function RecipientStrings(recipients: seq<SmtpPath>): (r: seq<string>)
    ensures |r| == |recipients|
    ensures forall i :: 0 <= i < |recipients| ==> r[i] == recipients[i].ToString()
  {
    if recipients == [] then []
    else [recipients[0].ToString()] + RecipientStrings(recipients[1..])
  }

  /**
    The pure part of `queue`: the command for a finished mail, or `None` when
    its body is not UTF-8 text. The command keeps the sender, every recipient
    in order, and the body text, which encodes back to the very bytes received.
  */
  function CommandFor(from: SmtpPath, recipients: seq<SmtpPath>, body: seq<byte>): (r: Option<Command>)
    ensures r.None? <==> !ValidUtf8(body)
    ensures r.Some? ==> r.value.SendMessage? && r.value.from == from.ToString()
    ensures r.Some? ==> |r.value.recipients| == |recipients|
    ensures r.Some? ==> forall i :: 0 <= i < |recipients| ==> r.value.recipients[i] == recipients[i].ToString()
    ensures r.Some? ==> Encode(r.value.body) == body
  {
    match Decode(body)
    case None => None
    case Some(text) => Some(SendMessage(from.ToString(), RecipientStrings(recipients), text))
  }

  /** `parts.join("\n")`. */
  function JoinLines(parts: seq<string>): string
  {
    if |parts| == 0 then ""
    else if |parts| == 1 then parts[0]
    else parts[0] + "\n" + JoinLines(parts[1..])
  }

  /** The pieces of `s` between newlines (`s.split('\n')`). */
  function SplitLines(s: string): (r: seq<string>)
    ensures |r| >= 1
  {
    if s == [] then [""]
    else
      var rest := SplitLines(s[1..]);
      if s[0] == '\n' then [""] + rest else [[s[0]] + rest[0]] + rest[1..]
  }

  predicate NoNewline(s: string) { forall i :: 0 <= i < |s| ==> s[i] != '\n' }

  /** Splitting a newline-free line, followed by a newline and more, yields that line first. */
  lemma {:induction false} SplitAfterLine(line: string, more: string)
    requires NoNewline(line)
    ensures SplitLines(line + "\n" + more) == [line] + SplitLines(more)
    ensures SplitLines(line) == [line]
  {
    if line != [] {
      assert (line + "\n" + more)[1..] == line[1..] + "\n" + more;
      SplitAfterLine(line[1..], more);
      assert [line[0]] + line[1..] == line;
    }
  }

  /**
    The `To` field loses nothing: splitting a joined, non-empty list of
    newline-free recipients gives the list back, in order.
  */
  lemma {:induction false} SplitJoinLines(parts: seq<string>)
    requires |parts| >= 1
    requires forall i :: 0 <= i < |parts| ==> NoNewline(parts[i])
    ensures SplitLines(JoinLines(parts)) == parts
  {
    if |parts| == 1 {
      SplitAfterLine(parts[0], "");
    } else {
      SplitAfterLine(parts[0], JoinLines(parts[1..]));
      SplitJoinLines(parts[1..]);
      assert [parts[0]] + parts[1..] == parts;
    }
  }

  /** The embed the webhook thread builds for one `SendMessage` (`Embed::fake`). */
  function MessageEmbed(from: string, recipients: seq<string>, body: string): (e: Embed)
    ensures e.title == TITLE && |e.fields| == 3
    ensures e.fields[0] == EmbedField("From", from, true)
    ensures e.fields[1] == EmbedField("To", JoinLines(recipients), true)
    ensures e.fields[2] == EmbedField("Body", body, false)
  {
    Embed(TITLE, [
      EmbedField("From", from, true),
      EmbedField("To", JoinLines(recipients), true),
      EmbedField("Body", body, false)])
  }

  /** The `To` field of a posted message lists the recipients one per line, in order. */
  lemma ToFieldListsRecipients(from: string, recipients: seq<string>, body: string)
    requires |recipients| >= 1
    requires forall i :: 0 <= i < |recipients| ==> NoNewline(recipients[i])
    ensures SplitLines(MessageEmbed(from, recipients, body).fields[1].value) == recipients
  {
    SplitJoinLines(recipients);
  }

  /**
    The loop of the webhook thread over the commands it receives: each
    `SendMessage` is posted in turn, and the first `Shutdown` ends the loop,
    so nothing after it is posted. `stopped` tells whether a `Shutdown` was met.
  */
  method Worker(received: seq<Command>) returns (posted: seq<Embed>, stopped: bool)
    ensures |posted| <= |received|
    ensures forall j :: 0 <= j < |posted| ==>
      received[j].SendMessage? &&
      posted[j] == MessageEmbed(received[j].from, received[j].recipients, received[j].body)
    ensures stopped <==> exists j :: 0 <= j < |received| && received[j].Shutdown?
    ensures stopped ==> |posted| < |received| && received[|posted|].Shutdown?
    ensures !stopped ==> |posted| == |received|
  {
    posted, stopped := [], false;
    var i := 0;
    while i < |received|
      invariant 0 <= i <= |received| && |posted| == i
      invariant forall j :: 0 <= j < i ==>
        received[j].SendMessage? &&
        posted[j] == MessageEmbed(received[j].from, received[j].recipients, received[j].body)
    {
      match received[i]
      case Shutdown =>
        stopped := true;
        break;
      case SendMessage(from, recipients, body) =>
        posted := posted + [MessageEmbed(from, recipients, body)];
      i := i + 1;
    }
  }

  /**
    The `mpsc` channel into the webhook thread: the webhook the thread posts
    to, the commands handed off but not yet received, and whether the
    receiving thread still runs.
  */
  class CommandChannel {
    const auth: Discord.WebhookAuth
    var queued: seq<Command>
    var receiverAlive: bool

    constructor (auth: Discord.WebhookAuth)
      ensures this.auth == auth && queued == [] && receiverAlive
    {
      this.auth := auth;
      queued := [];
      receiverAlive := true;
    }

    /** `Sender::send`: the command joins the queue unless the receiver is gone. */
    method Send(command: Command) returns (ok: bool)
      modifies this
      ensures ok == old(receiverAlive) && receiverAlive == old(receiverAlive)
      ensures queued == if ok then old(queued) + [command] else old(queued)
    {
      ok := receiverAlive;
      if ok {
        queued := queued + [command];
      }
    }

    /**
      The webhook thread taking everything handed off so far. After a
      `Shutdown` the thread ends and drops the receiver together with the
      commands still queued behind it; otherwise it waits on an empty queue.
    */
    method RunWorker() returns (posted: seq<Embed>)
      modifies this
      ensures !old(receiverAlive) ==> posted == [] && queued == old(queued) && !receiverAlive
      ensures old(receiverAlive) ==> queued == [] && |posted| <= |old(queued)|
      ensures forall j :: 0 <= j < |posted| ==>
        old(queued)[j].SendMessage? &&
        posted[j] == MessageEmbed(old(queued)[j].from, old(queued)[j].recipients, old(queued)[j].body)
      ensures old(receiverAlive) ==>
        (receiverAlive <==> forall j :: 0 <= j < |old(queued)| ==> old(queued)[j].SendMessage?)
      ensures old(receiverAlive) && receiverAlive ==> |posted| == |old(queued)|
      ensures old(receiverAlive) && !receiverAlive ==> old(queued)[|posted|].Shutdown?
    {
      if !receiverAlive {
        return [];
      }
      var stopped;
      posted, stopped := Worker(queued);
      queued := [];
      receiverAlive := !stopped;
    }
  }

  /**
    `DiscordMailSink`: one mail in flight, its envelope data and its growing
    body. `queue` takes the sink by value, so once `consumed` it is gone.
  */
  class DiscordMailSink {
    const id: string
    const from: SmtpPath
    const recipients: seq<SmtpPath>
    var body: seq<byte>
    var consumed: bool
    const sender: CommandChannel

    /** `DiscordMailSink::new`: an empty body. */
    constructor (id: string, from: SmtpPath, recipients: seq<SmtpPath>, sender: CommandChannel)
      ensures this.id == id && this.from == from && this.recipients == recipients
      ensures this.sender == sender && body == [] && !consumed
    {
      this.id := id;
      this.from := from;
      this.recipients := recipients;
      this.sender := sender;
      body := [];
      consumed := false;
    }

    /** `Sink::start_send`: append the chunk; the sink always takes more. */
    method StartSend(item: seq<byte>) returns (r: AsyncSink)
      requires !consumed
      modifies this
      ensures body == old(body) + item && r == Ready && !consumed
    {
      body := body + item;
      r := Ready;
    }

    /** `Sink::poll_complete`: nothing is buffered beyond the body, so always ready. */
    method PollComplete() returns (r: Async)
      requires !consumed
      ensures r == AsyncReady
    {
      r := AsyncReady;
    }

    /**
      `Mail::queue`: a body that is not UTF-8 fails at once and sends nothing;
      otherwise its command is handed to the webhook thread and the mail is
      queued under its id exactly when the thread is still there to take it.
    */
    method Queue() returns (r: QueueResult)
      requires !consumed
      modifies this, sender
      ensures consumed && body == old(body)
      ensures !ValidUtf8(body) ==> r == QueueFailed && unchanged(sender)
      ensures ValidUtf8(body) ==>
        r == (if old(sender.receiverAlive) then QueuedWithId(id) else QueueFailed)
      ensures ValidUtf8(body) ==> sender.receiverAlive == old(sender.receiverAlive)
      ensures ValidUtf8(body) ==>
        sender.queued == if old(sender.receiverAlive)
                         then old(sender.queued) + [CommandFor(from, recipients, body).value]
                         else old(sender.queued)
    {
      consumed := true;
      var command := CommandFor(from, recipients, body);
      if command.None? {
        return QueueFailed;
      }
      var ok := sender.Send(command.value);
      r := if ok then QueuedWithId(id) else QueueFailed;
    }
  }

  /** The sender path of the command that opened the transaction, whichever of the four it was. */
  function SenderPath(mail: SmtpMail): (p: SmtpPath)
    ensures p == mail.path
  {
    match mail
    case Mail(p) => p
    case Send(p) => p
    case Saml(p) => p
    case Soml(p) => p
  }

  /** `DiscordMailer`: the service the protocol engine drives; clones share one channel. */
  class DiscordMailer {
    const sender: CommandChannel

    constructor (sender: CommandChannel)
      ensures this.sender == sender
    {
      this.sender := sender;
    }

    /** `NamedService::name`. */
    function Name(): (n: string)
      ensures n == "discord"
    {
      "discord"
    }

    /** `MailGuard::accept`: every proposed recipient is accepted unchanged. */
    function Accept(request: AcceptRecipientRequest): (r: AcceptRecipientResult)
      ensures r.Accepted? && r.rcpt == request.rcpt
    {
      Accepted(request.rcpt)
    }

    /**
      `MailQueue::mail`: a sink for the envelope's id, sender and recipients.
      The engine calls it only once the transaction's opening command is known.
    */
    method Mail(envelope: Envelope) returns (sink: DiscordMailSink)
      requires envelope.mail.Some?
      ensures fresh(sink)
      ensures sink.id == envelope.id && sink.from == envelope.mail.value.path
      ensures sink.recipients == envelope.rcpts && sink.body == [] && !sink.consumed && sink.sender == sender
    {
      sink := new DiscordMailSink(envelope.id, SenderPath(envelope.mail.value), envelope.rcpts, sender);
    }
  }

  /**
    `init_webhook_thread`: a fresh channel whose receiving thread is running
    and owns the handle of the webhook `auth` names.
  */
  method InitWebhookThread(auth: Discord.WebhookAuth) returns (sender: CommandChannel)
    ensures fresh(sender) && sender.auth == auth && sender.queued == [] && sender.receiverAlive
  {
    sender := new CommandChannel(auth);
  }

  /**
    `DiscordMailer::new`: look the webhook with this id and token up (the
    lookup's outcome is `webhookFound`), then start the webhook thread, which
    takes the webhook handle over.
  */
  method NewMailer(webhookId: uint64, webhookToken: string, webhookFound: bool) returns (r: Result<DiscordMailer, SerenityError>)
    ensures r.Ok? <==> webhookFound
    ensures r.Ok? ==> fresh(r.value) && fresh(r.value.sender)
    ensures r.Ok? ==> r.value.sender.auth == Discord.WebhookAuth(webhookId, webhookToken)
    ensures r.Ok? ==> r.value.sender.queued == [] && r.value.sender.receiverAlive
  {
    if !webhookFound {
      return Err(SerenityError);
    }
    var sender := InitWebhookThread(Discord.WebhookAuth(webhookId, webhookToken));
    var mailer := new DiscordMailer(sender);
    r := Ok(mailer);
  }

  /**
    One session sends two mails, then the bridge shuts down: the thread posts
    the two in the order they were queued, and a mail queued after the
    shutdown was drained fails instead of vanishing.
  */
  method OrderingScenario(from: SmtpPath, to: SmtpPath, later: Envelope)
    returns (posted: seq<Embed>, tooLate: QueueResult)
    requires later.mail.Some?
    ensures |posted| == 2 && |posted[0].fields| == 3 && |posted[1].fields| == 3
    ensures posted[0].fields[0].value == from.ToString() && posted[1].fields[0].value == from.ToString()
    ensures Encode(posted[0].fields[2].value) == [0x48, 0x65, 0x6C, 0x6C, 0x6F]
    ensures Encode(posted[1].fields[2].value) == [0x42]
    ensures tooLate == QueueFailed
  {
    var started := NewMailer(1, "token", true);
    var mailer := started.value;
    var envelope := Envelope("m1", Some(Mail(from)), [to]);
    var first := mailer.Mail(envelope);
    var ready := first.StartSend([0x48, 0x65]);
    ready := first.StartSend([0x6C, 0x6C]);
    ready := first.StartSend([0x6F]);
    assert first.body == [0x48, 0x65, 0x6C, 0x6C, 0x6F];
    AsciiIsValid(first.body);
    var hello := first.Queue();
    assert hello == QueuedWithId("m1");

    var second := mailer.Mail(Envelope("m2", Some(Send(from)), [to]));
    var bye := second.StartSend([0x42]);
    AsciiIsValid(second.body);
    var queued := second.Queue();
    assert queued == QueuedWithId("m2");

    var stop := mailer.sender.Send(Shutdown);
    assert |mailer.sender.queued| == 3;
    assert mailer.sender.queued[2] == Shutdown;
    posted := mailer.sender.RunWorker();
    assert !mailer.sender.receiverAlive;
    assert |posted| == 2;
    assert posted[0].fields[0].value == from.ToString();
    assert Encode(posted[0].fields[2].value) == [0x48, 0x65, 0x6C, 0x6C, 0x6F];
    assert Encode(posted[1].fields[2].value) == [0x42];

    var late := mailer.Mail(later);
    tooLate := late.Queue();
  }

  /**
    A body that is not UTF-8 fails without reaching the webhook thread, and
    the next mail of the session still gets through.
  */
  method InvalidBodyScenario(mailer: DiscordMailer, from: SmtpPath)
    returns (failed: QueueResult, queued: QueueResult)
    requires mailer.sender.receiverAlive && mailer.sender.queued == []
    modifies mailer.sender
    ensures failed == QueueFailed && queued == QueuedWithId("good")
    ensures |mailer.sender.queued| == 1
  {
    var bad := new DiscordMailSink("bad", from, [], mailer.sender);
    var chunk := bad.StartSend([0xC0, 0x80]);
    assert !ValidUtf8(bad.body);
    failed := bad.Queue();
    assert mailer.sender.queued == [];

    var good := new DiscordMailSink("good", from, [], mailer.sender);
    chunk := good.StartSend([0x6F, 0x6B]);
    AsciiIsValid(good.body);
    queued := good.Queue();
  }

  /**
    A mail queued behind a `Shutdown` but before the thread has taken it is
    told `QueuedWithId`, yet is never posted: the thread posts what precedes
    the `Shutdown` and then drops the receiver with the rest of the queue.
  */
  method ShutdownRaceScenario(auth: Discord.WebhookAuth, first: Command, from: SmtpPath)
    returns (outcome: QueueResult, posted: seq<Embed>, left: seq<Command>, alive: bool)
    requires first.SendMessage?
    ensures outcome == QueuedWithId("late")
    ensures posted == [MessageEmbed(first.from, first.recipients, first.body)]
    ensures left == [] && !alive
  {
    var channel := InitWebhookThread(auth);
    var sentFirst := channel.Send(first);
    var sentStop := channel.Send(Shutdown);
    var late := new DiscordMailSink("late", from, [], channel);
    var chunk := late.StartSend([0x42]);
    AsciiIsValid(late.body);
    outcome := late.Queue();
    assert channel.queued[1] == Shutdown && channel.queued[2].SendMessage?;
    posted := channel.RunWorker();
    left := channel.queued;
    alive := channel.receiverAlive;
  }
}
