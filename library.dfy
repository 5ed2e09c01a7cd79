/**
  The library flavour of the bridge: every session's finished mail is
  handed, under one lock, to a single shared webhook sender, which lets a
  user-supplied strategy fill in the webhook message and then posts it.
*/
module Library {
  import opened Common
  import opened Samotop
  import opened Discord

  /** The service name used when the builder is given none. */
  const DEFAULT_NAME: string := "DiscordMailer"

  /** One call of the user's `MailToDiscord::handle`: the envelope and body it was given. */
  datatype HandlerCall = HandlerCall(envelope: Envelope, body: seq<byte>)

  /**
    `WebhookSender<T>`: the webhook handle and the conversion strategy. The
    strategy is uninterpreted; `handled` records what it was handed, in order.
  */
  class WebhookSender {
    const auth: WebhookAuth
    var handled: seq<HandlerCall>

    /** The sender for a webhook that was found. */
    constructor (auth: WebhookAuth)
      ensures this.auth == auth && handled == []
    {
      this.auth := auth;
      handled := [];
    }

    /**
      `send_messsage`: run the strategy on exactly the envelope and body
      given, then post; the outcome is the transport's, here `transportOk`.
    */
    method SendMessage(envelope: Envelope, body: seq<byte>, transportOk: bool) returns (r: Result<(), SerenityError>)
      modifies this
      ensures handled == old(handled) + [HandlerCall(envelope, body)]
      ensures r.Ok? <==> transportOk
    {
      handled := handled + [HandlerCall(envelope, body)];
      r := if transportOk then Ok(()) else Err(SerenityError);
    }
  }

  /**
    `WebhookSender::new`: look the webhook up by id and token; the lookup's
    outcome is `webhookFound`.
  */
  method NewWebhookSender(auth: WebhookAuth, webhookFound: bool) returns (r: Result<WebhookSender, SerenityError>)
    ensures r.Ok? <==> webhookFound
    ensures r.Ok? ==> fresh(r.value) && r.value.auth == auth && r.value.handled == []
  {
    if !webhookFound {
      return Err(SerenityError);
    }
    var sender := new WebhookSender(auth);
    r := Ok(sender);
  }

  /** `DiscordMailer<T>`: the service the protocol engine drives; clones share one sender. */
  class DiscordMailer {
    const name: string
    const webhookSender: WebhookSender

    constructor (name: string, webhookSender: WebhookSender)
      ensures this.name == name && this.webhookSender == webhookSender
    {
      this.name := name;
      this.webhookSender := webhookSender;
    }

    /** `NamedService::name`: the service name given at construction. */
    function Name(): (n: string)
      ensures n == name
    {
      name
    }

    /** `MailGuard::accept`: every proposed recipient is accepted unchanged. */
    function Accept(request: AcceptRecipientRequest): (r: AcceptRecipientResult)
      ensures r.Accepted? && r.rcpt == request.rcpt
    {
      Accepted(request.rcpt)
    }

    /** `MailQueue::mail`: a new sink for the envelope, sharing this mailer's sender. */
    method Mail(envelope: Envelope) returns (sink: DiscordMailSink)
      ensures fresh(sink) && sink.Valid()
      ensures sink.envelope == envelope && sink.body == [] && !sink.consumed && sink.sink == webhookSender
    {
      sink := new DiscordMailSink(envelope, webhookSender);
    }
  }

  /** `DiscordMailer::new`: a mailer with the given name, once its webhook was found. */
  method NewMailer(name: string, auth: WebhookAuth, webhookFound: bool) returns (r: Result<DiscordMailer, SerenityError>)
    ensures r.Ok? <==> webhookFound
    ensures r.Ok? ==> fresh(r.value) && fresh(r.value.webhookSender)
    ensures r.Ok? ==> r.value.name == name && r.value.webhookSender.auth == auth && r.value.webhookSender.handled == []
  {
    var sender := NewWebhookSender(auth, webhookFound);
    match sender
    case Err(e) => r := Err(e);
    case Ok(s) =>
      var mailer := new DiscordMailer(name, s);
      r := Ok(mailer);
  }

  /** `DiscordMailerBuilder`: collects the optional service name. */
  class DiscordMailerBuilder {
    var name: Option<string>

    /** `DiscordMailerBuilder::new`: no name given yet. */
    constructor ()
      ensures name == None
    {
      name := None;
    }

    /** `with_name`: remember `name`, replacing any earlier one. */
    method WithName(name: string)
      modifies this
      ensures this.name == Some(name)
    {
      this.name := Some(name);
    }

    /** `build`: a mailer named by the last `with_name`, or `DiscordMailer` when there was none. */
    method Build(auth: WebhookAuth, webhookFound: bool) returns (r: Result<DiscordMailer, SerenityError>)
      ensures r.Ok? <==> webhookFound
      ensures r.Ok? ==> fresh(r.value) && fresh(r.value.webhookSender)
      ensures r.Ok? ==> r.value.webhookSender.auth == auth && r.value.webhookSender.handled == []
      ensures r.Ok? ==> r.value.name == (if name.None? then DEFAULT_NAME else name.value)
    {
      var serviceName := match name case None => DEFAULT_NAME case Some(n) => n;
      r := NewMailer(serviceName, auth, webhookFound);
    }
  }

  /**
    `DiscordMailSink<T>`: one mail in flight. The body is a growable byte
    buffer; `capacity` is its allocation, which never falls below its length.
    `queue` takes the sink by value, so once `consumed` it is gone.
  */
  class DiscordMailSink {
    const envelope: Envelope
    var body: seq<byte>
    var capacity: nat
    var consumed: bool
    const sink: WebhookSender

    ghost predicate Valid()
      reads this
    {
      |body| <= capacity
    }

    /** `DiscordMailSink::new`: an empty, unallocated body for the envelope. */
    constructor (envelope: Envelope, sink: WebhookSender)
      ensures Valid()
      ensures this.envelope == envelope && this.sink == sink && body == [] && capacity == 0
      ensures !consumed
    {
      this.envelope := envelope;
      this.sink := sink;
      body := [];
      capacity := 0;
      consumed := false;
    }

    /**
      `Sink::start_send`: append the chunk to the body (`extend_from_slice`,
      which grows the allocation to at least twice its size when it is full)
      and report that the sink takes more.
    */
    method StartSend(item: seq<byte>) returns (r: AsyncSink)
      requires Valid() && !consumed
      modifies this
      ensures Valid() && r == Ready && !consumed
      ensures body == old(body) + item
      ensures capacity >= old(capacity)
    {
      var required := |body| + |item|;
      if capacity < required {
        capacity := if 2 * capacity < required then required else 2 * capacity;
      }
      body := body + item;
      r := Ready;
    }

    /** `Sink::poll_complete`: release the unused allocation; the body is untouched. */
    method PollComplete() returns (r: Async)
      requires Valid() && !consumed
      modifies this
      ensures Valid() && r == AsyncReady && !consumed
      ensures body == old(body) && capacity == |body|
    {
      capacity := |body|;
      r := AsyncReady;
    }

    /**
      `Mail::queue`: under the shared sender's lock, send the envelope and the
      whole body. The mail is queued under its envelope id exactly when the
      lock was taken (`lockAcquired`) and the post succeeded (`transportOk`).
    */
    method Queue(lockAcquired: bool, transportOk: bool) returns (r: QueueResult)
      requires !consumed
      modifies this, sink
      ensures consumed && body == old(body)
      ensures r == if lockAcquired && transportOk then QueuedWithId(envelope.id) else QueueFailed
      ensures sink.handled ==
        if lockAcquired then old(sink.handled) + [HandlerCall(envelope, body)] else old(sink.handled)
    {
      consumed := true;
      var id := envelope.id;
      if lockAcquired {
        var sent := sink.SendMessage(envelope, body, transportOk);
        r := match sent case Ok(_) => QueuedWithId(id) case Err(_) => QueueFailed;
      } else {
        r := QueueFailed;
      }
    }
  }

  /**
    A session feeding `He`, `ll`, `o` queues the body `Hello`, and the shared
    sender hands exactly those bytes to the strategy. The builder keeps the
    last name it was given, and one given no name uses `DiscordMailer`.
  */
  method SessionScenario(auth: WebhookAuth, request: AcceptRecipientRequest, envelope: Envelope)
    returns (serviceName: string, outcome: QueueResult, log: seq<HandlerCall>, defaultName: string)
    ensures serviceName == "bridge" && outcome == QueuedWithId(envelope.id)
    ensures log == [HandlerCall(envelope, [0x48, 0x65, 0x6C, 0x6C, 0x6F])]
    ensures defaultName == DEFAULT_NAME
  {
    var builder := new DiscordMailerBuilder();
    builder.WithName("first");
    builder.WithName("bridge");
    var built := builder.Build(auth, true);
    var mailer := built.value;
    assert mailer.Name() == "bridge";
    assert mailer.Accept(request) == Accepted(request.rcpt);

    var sink := mailer.Mail(envelope);
    var ready := sink.StartSend([0x48, 0x65]);
    ready := sink.StartSend([0x6C, 0x6C]);
    ready := sink.StartSend([0x6F]);
    var done := sink.PollComplete();
    assert sink.body == [0x48, 0x65, 0x6C, 0x6C, 0x6F];
    outcome := sink.Queue(true, true);
    serviceName := mailer.Name();
    log := mailer.webhookSender.handled;

    var unnamed := new DiscordMailerBuilder();
    var plain := unnamed.Build(auth, true);
    defaultName := plain.value.Name();
  }

  /**
    A failed post reports `Failed` for that mail only: the next mail through
    the same sender is still queued when its post succeeds.
  */
  method FailureIsolationScenario(sender: WebhookSender, first: Envelope, second: Envelope)
    returns (failed: QueueResult, queued: QueueResult)
    modifies sender
    ensures failed == QueueFailed && queued == QueuedWithId(second.id)
  {
    var a := new DiscordMailSink(first, sender);
    var b := new DiscordMailSink(second, sender);
    failed := a.Queue(true, false);
    queued := b.Queue(true, true);
    assert sender.handled == old(sender.handled) + [HandlerCall(first, []), HandlerCall(second, [])];
  }
}
