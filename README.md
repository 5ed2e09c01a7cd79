# smtp_discord_bridge, modelled in Dafny

This project models the core of smtp_discord_bridge. The bridge accepts mail over SMTP and posts each accepted mail as a message to a Discord webhook. The model covers four parts:

- **Webhook identity** (`discord.dfy`, `parse_int.dfy`). `DiscordWebhookAuth::from_url` walks the path of a webhook URL (`/api/webhooks/<id>/<token>`) with a segment iterator. Each way the walk can fail has its own error. The id segment is read by `u64::from_str`, which is modelled exactly: an optional `+`, decimal digits, and a value below 2^64.
- **Configuration** (`config.dfy`). `DiscordConfig::get_auth` is a decision table over which of `webhook_url`, `webhook_id` and `webhook_token` are present. The `[smtp]` section also converts to a socket address.
- **Library mailer** (`library.dfy`, from `src/lib.rs`). A builder chooses the service name. Each mail in flight is a sink whose body buffer grows by appended chunks. `queue` hands the envelope and the whole body to one shared webhook sender. That sender runs the user's conversion strategy and then posts the message.
- **Stand-alone bridge** (`bridge.dfy`, from `src/main.rs`). `queue` checks the body against UTF-8 (`utf8.dfy`, section 4 of RFC 3629). It then sends a `SendMessage` command over a channel to one webhook thread. That thread posts commands in the order it receives them and stops at the first `Shutdown`.

The data the SMTP engine (samotop) passes around is in `samotop.dfy`. The shared `Option`/`Result` and fixed-width integer types are in `common.dfy`.

Calls to other systems are parameters of the model:

- **URL parsing.** `Url::parse` is a parameter `parse: string -> Result<Url, UrlParseError>`. The decoder only sees what it returns.
- **Webhook lookup and posting.** `get_webhook_with_token` and `Webhook::execute` return success or failure. The model gets that answer as a `bool`: `webhookFound` or `transportOk`.
- **The lock.** `Mutex::lock` can fail when the lock is poisoned. The model gets that answer as `lockAcquired`.
- **The conversion strategy.** The `MailToDiscord` strategy is uninterpreted. `WebhookSender.handled` records every envelope and body it was given, in order.
- **The channel.** The `mpsc` channel is a queue of commands plus a flag saying whether the receiving thread is still running.

Three things the code allows that a reader might not expect, and that the model keeps:

- **Empty token.** A resolved identity may have an empty token. For example, `/api/webhooks/1/` yields token `""`. The code does not check for this.
- **Extra segments.** Path segments after the token are ignored rather than rejected.
- **Commands behind a `Shutdown`.** The webhook thread stops at the first `Shutdown`. Commands queued behind it are dropped together with the receiver, although their senders were told `QueuedWithId`. Only commands sent after the thread has ended fail. `Bridge.ShutdownRaceScenario` proves this.

## Model

| member | source | states |
|---|---|---|
| `ParseInt.ParseU64` | src/discord.rs:40 | `u64::from_str` succeeds exactly on an optional `+` followed by a non-empty run of decimal digits whose value is below 2^64. The result is that decimal value. `Empty` is returned exactly when no digits remain after the sign. A run of digits that is too large gives `Overflow`, and `InvalidDigit` is returned only when some character is not a digit. |
| `ParseInt.ParseDigitsValue` | src/discord.rs:40 | Reading digits left to right with overflow checks succeeds exactly when every character is a digit and `acc * 10^n + value` fits in 64 bits. The result is then that number. |
| `Discord.New` | src/discord.rs:17-19 | The identity holds exactly the given id and token. |
| `Discord.FromPathSegments` | src/discord.rs:33-49 | No path gives `UrlMissingPath`. A first segment other than `api`, or none, gives `UrlPathMissingApi`. Then a second segment other than `webhooks` gives `UrlPathMissingWebhooks`. No third segment gives `UrlPathMissingId`. `IdParseError` is returned exactly when a third segment exists and is not a u64, and it carries the parser's error kind. A valid id with no fourth segment gives `UrlPathMissingToken`. Success happens exactly when the path is `api/webhooks/<u64>/<token>...`; the id is then the segment's decimal value and the token is the fourth segment verbatim. |
| `Discord.FromUrl` | src/discord.rs:25-50 | A URL the parser rejects gives `UrlParseError` with the parser's reason. Otherwise the result depends only on the path segments, never on the scheme or host. |
| `Discord.DecodesWellFormedWebhookPath` | src/discord.rs:39-42 | The path of `https://discord.com/api/webhooks/123/abc` decodes to id 123 and token `abc`. |
| `Discord.RejectsNonNumericId` | src/discord.rs:40 | Id segment `notanumber` gives `IdParseError(InvalidDigit)`, not some other error. |
| `Discord.RejectsPathWithoutWebhooks` | src/discord.rs:36-37 | The path `api/123/abc` gives `UrlPathMissingWebhooks`. |
| `Config.ListenSocket` | src/config.rs:42-51 | The socket address pairs `listen_addr` with `listen_port`, both unchanged. |
| `Config.GetAuth` | src/config.rs:62-74 | Covers all eight presence combinations of url, id and token. With nothing set the result is `NeitherUrlNorPartsSpecified`. A token alone gives `ConfigMissingWebhookId`, and an id alone gives `ConfigMissingWebhookToken`. An id and a token give exactly that identity. A URL alone gives the decoder's result, with any error wrapped in `UrlError`. A URL with an id, a token, or both gives `InvalidParamCombination`. Only the id-and-token row and the URL-alone row can succeed. |
| `Config.ResolvesConfiguredUrl` | src/config.rs:69 | A configured URL whose path is `api/webhooks/123/abc` resolves to id 123 and token `abc`. |
| `Utf8.Decode` | src/main.rs:216-219 | `String::from_utf8` succeeds exactly on byte strings that are well-formed by the grammar of section 4 of RFC 3629. The text it returns encodes back to exactly those bytes. |
| `Utf8.DecodeEncode` | src/main.rs:216-219 | Every string's UTF-8 encoding is well-formed and decodes back to the same string. |
| `Utf8.DecodeInjective` | src/main.rs:216-219 | Two well-formed bodies decode to the same text exactly when they are the same bytes. |
| `Utf8.AsciiIsValid` | src/main.rs:216-219 | A body of 7-bit ASCII bytes always passes the UTF-8 check. |
| `Library.WebhookSender.SendMessage` | src/lib.rs:161-173 | The strategy receives exactly the given envelope and body, appended to the record of its calls. The result is success exactly when the transport succeeds. |
| `Library.NewWebhookSender` | src/lib.rs:141-154 | The lookup fails exactly when the webhook is not found. Otherwise the result is a new sender for that identity, with no calls yet. |
| `Library.DiscordMailer.Name` | src/lib.rs:86-88 | `name()` returns the stored service name. |
| `Library.DiscordMailer.Accept` | src/lib.rs:100-103 | Every proposed recipient is accepted, with the same path. |
| `Library.DiscordMailer.Mail` | src/lib.rs:115-118 | `mail` returns a new sink with the given envelope and an empty body, sharing the mailer's sender. |
| `Library.NewMailer` | src/lib.rs:66-78 | The mailer is built exactly when its webhook is found. It then has the given name and a new, unused sender. |
| `Library.DiscordMailerBuilder.constructor` | src/lib.rs:183-185 | A new builder has no name. |
| `Library.DiscordMailerBuilder.WithName` | src/lib.rs:191-194 | `with_name` replaces any earlier name with the given one. |
| `Library.DiscordMailerBuilder.Build` | src/lib.rs:201-211 | The mailer is named by the last `with_name`, or `DiscordMailer` if there was none. It fails exactly when the webhook lookup fails. |
| `Library.DiscordMailSink.constructor` | src/lib.rs:230-236 | A new sink keeps the given envelope and sender and starts with an empty body. |
| `Library.DiscordMailSink.StartSend` | src/lib.rs:272-277 | The body becomes the old body followed by the chunk. The result is always `Ready`, and the buffer's capacity never shrinks and stays at least the body's length. |
| `Library.DiscordMailSink.PollComplete` | src/lib.rs:280-285 | The body is unchanged, the capacity shrinks to the body's length, and the result is `Ready`. |
| `Library.DiscordMailSink.Queue` | src/lib.rs:244-259 | The result is `QueuedWithId(envelope.id)` exactly when the lock is taken and the post succeeds. Otherwise it is `QueueFailed`. The envelope and whole body go to the strategy exactly when the lock is taken. After the call the sink is consumed. |
| `Library.SessionScenario` | src/lib.rs:191-285 | Sending chunks `He`, `ll`, `o` and then queueing returns `QueuedWithId`, and the strategy's log holds exactly one call, with the envelope and the body `Hello`. The builder keeps the last of two names. A builder given no name gives a mailer named `DiscordMailer`. |
| `Library.FailureIsolationScenario` | src/lib.rs:244-259 | A failed post fails only its own mail. The next mail through the same sender is still queued. |
| `Bridge.RecipientStrings` | src/main.rs:223 | The recipient paths are converted to text one for one, in the same order and with the same count. |
| `Bridge.CommandFor` | src/main.rs:214-225 | There is no command exactly when the body is not UTF-8. Otherwise the command is `SendMessage` carrying the sender's text, every recipient's text in order, and body text that encodes back to the received bytes. |
| `Bridge.MessageEmbed` | src/main.rs:114-120 | The posted embed has the title `New Email` and three fields: inline `From` with the sender, inline `To` with the recipients joined by newlines, and non-inline `Body` with the body. |
| `Bridge.SplitJoinLines` | src/main.rs:118 | Splitting the newline-joined `To` text gives back the non-empty, newline-free recipient list, in order. |
| `Bridge.SplitAfterLine` | src/main.rs:118 | A newline-free line followed by a newline splits off as the first piece. |
| `Bridge.ToFieldListsRecipients` | src/main.rs:118 | The `To` field of a posted message lists exactly the recipients, one per line. |
| `Bridge.Worker` | src/main.rs:106-127 | The webhook thread posts one embed per `SendMessage`, in the order received, until the first `Shutdown`. Nothing after that `Shutdown` is posted. It reports a stop exactly when some `Shutdown` was received. |
| `Bridge.CommandChannel.Send` | src/main.rs:229-232 | A send succeeds exactly while the receiving thread runs. It then appends the command at the back of the queue; otherwise nothing changes. |
| `Bridge.CommandChannel.RunWorker` | src/main.rs:104-128 | The thread drains the queue with the loop above. After a `Shutdown` the receiver is gone, so every later send fails. |
| `Bridge.DiscordMailSink.constructor` | src/main.rs:196-209 | A new sink keeps id, sender, recipients and channel, and starts with an empty body. |
| `Bridge.DiscordMailSink.StartSend` | src/main.rs:240-245 | The body becomes the old body followed by the chunk, and the result is always `Ready`. |
| `Bridge.DiscordMailSink.PollComplete` | src/main.rs:246-248 | `poll_complete` always reports ready. |
| `Bridge.DiscordMailSink.Queue` | src/main.rs:214-233 | A body that is not UTF-8 gives `QueueFailed` and leaves the channel untouched. Otherwise the mail's command is appended to the channel and the result is `QueuedWithId(id)`; if the thread is gone, nothing is appended and the result is `QueueFailed`. After the call the sink is consumed. |
| `Bridge.SenderPath` | src/main.rs:157-162 | The sender path is extracted the same way whichever of `MAIL`, `SEND`, `SAML` or `SOML` opened the transaction. |
| `Bridge.DiscordMailer.Name` | src/main.rs:135-137 | The service name is `discord`. |
| `Bridge.DiscordMailer.Accept` | src/main.rs:143-146 | Every proposed recipient is accepted, with the same path. |
| `Bridge.DiscordMailer.Mail` | src/main.rs:153-171 | `mail` returns a new sink with the envelope's id, its sender path, its recipients, an empty body and the shared channel. |
| `Bridge.InitWebhookThread` | src/main.rs:96-131 | The result is a new channel, with an empty queue, whose receiving thread is running and posts to the given webhook. |
| `Bridge.NewMailer` | src/main.rs:79-90 | The mailer is built exactly when the webhook is found. It then holds a new, empty channel to a running thread that posts to the webhook with the given id and token. |
| `Bridge.OrderingScenario` | src/main.rs:106-127 | A session queues `Hello`, then `B`, then a `Shutdown`. The thread posts the two mails in that order, and a mail queued afterwards gets `QueueFailed`. |
| `Bridge.ShutdownRaceScenario` | src/main.rs:104-128 | A mail queued behind a `Shutdown` that the thread has not yet taken is told `QueuedWithId`. The thread posts only the command before the `Shutdown`. The rest of the queue is dropped and the receiver is gone. |
| `Bridge.InvalidBodyScenario` | src/main.rs:216-232 | The body `C0 80` is not UTF-8: it is refused and nothing reaches the channel. The session's next mail is still queued. |

## Left out

- `src/smtp.rs`: samotop builder and TLS wiring with a constant configuration; it has no logic of its own.
- `main()` in `src/main.rs`: logger setup, hard-coded credentials, building the TCP service and starting the runtime (I/O and runtime plumbing).
- Serenity's HTTP client: `Http::new_with_token`, `get_webhook_with_token` and `Webhook::execute`. Each is an outcome parameter of the method that calls it. The posted message is modelled as the embed record only.
- `Url::parse` (the `url` crate's WHATWG parser): the model takes its result as input. `Url` keeps only the scheme, host and path segments.
- Rendering an `SmtpPath` as text (samotop's `Display`): the model carries each path as its rendered text.
- Real concurrency: threads, lock poisoning and blocking on the channel. Lock-guarded calls run one at a time, and the channel is a FIFO sequence. Interleavings of sessions are not modelled. `RunWorker` is one pass of the thread over everything queued so far.
- The `unwrap()` on a failed post in the webhook thread (`src/main.rs`): that is a crash path, and the model's thread always completes its post.
- `DiscordWebhookCommand::send_message` and `shutdown` (`src/main.rs`): these are plain constructors, and the model uses the `Command` datatype's constructors in their place.
- `Envelope` (samotop) keeps only the fields the bridge reads: the id, the opening command and the recipients. The peer and local addresses and the HELO name also reach the strategy in the source, but the strategy is uninterpreted, so nothing it could do with them is lost.
- A sink's `queue` takes the sink by value, and the Rust compiler rules out any later use of it. The model records this as a `consumed` flag: `Queue` sets it, and `StartSend`, `PollComplete` and `Queue` require it clear.
- Deserialising `Config` with serde, and the user-supplied `MailToDiscord` strategies: the strategy is uninterpreted.
- `Library.DiscordMailSink.StartSend`: the contract promises only that capacity never shrinks and covers the body. The exact growth policy of `Vec` belongs to the Rust standard library. The body chooses doubling.
- `Bridge.DiscordMailer.Mail`: it requires the envelope to carry its opening command. The source unwraps it and would panic otherwise, and the SMTP engine calls `mail` only after that command.
- `ParseInt.ParseU64`: it follows the standard library of the source's time, where `"+"` alone is `Empty`. Later Rust releases report `InvalidDigit` for it.
