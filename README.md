# Hoodik outbound email: configuration and SMTP sender

Hoodik sends account-lifecycle email (activation, password reset, and so on)
through an SMTP server, or through no mailer at all. This project models two
parts of that path in Dafny and proves properties of the model:

- **Configuration resolution** (`config/src/email.rs`). It decides from the
  environment whether email is enabled (`MAILER_TYPE=smtp`). It reads the
  SMTP credentials and the port (default 465). It resolves the TLS mode:
  an explicit `SMTP_TLS_MODE` alias wins, otherwise the mode comes from the
  port (587 STARTTLS, 25 none, anything else implicit TLS). It builds the
  default sender mailbox from `SMTP_DEFAULT_FROM_EMAIL` /
  `SMTP_DEFAULT_FROM_NAME`, falling back to the deprecated `SMTP_DEFAULT_FROM`.
  It records warnings for an unusable TLS mode and for the deprecated
  variable. Errors (a missing required variable, an unparsable port)
  accumulate and then stop start-up.
- **The SMTP sender** (`email/src/senders/smtp.rs`). Construction picks the
  transport builder by TLS mode, tests the connection, then parses the
  default sender. The batch send loop fills in the default sender, counts
  skip-send messages as sent without touching the transport, counts only
  positive server replies, and aborts the whole batch on the first render
  failure or transport error.

Modules:

| file | module | contents |
|---|---|---|
| `wrappers.dfy` | `Wrappers` | `Option` |
| `tls_mode.dfy` | `TlsModes` | `TlsMode`, port inference, alias parsing (ASCII lowercasing) |
| `vars.dfy` | `ConfigVars` | the `Vars` accumulator as a class (environment, warnings, errors), u16 parsing, decimal printing |
| `email_config.dfy` | `EmailConfigs` | credentials, TLS resolution with its warning, default sender, deprecation warning, `EmailConfig::new` |
| `smtp_sender.dfy` | `SmtpSenders` | templates, rendering, the send loop and its specification, construction |

How the model is shaped:

- `Vars` is a class. Its `warnings` and `errors` fields are updated in place by
  the methods that read variables.
- Credential resolution (`NewCredentials`) and mailer selection
  (`NewEmailConfig`) are methods over a `Vars`. Each is proved against
  environment-level functions: `CredentialErrors`, `CredentialWarnings`,
  `Captured`, `ResolveTls`, `DefaultFrom`.
- The closure that `SmtpCredentials::new` returns becomes a
  `PendingCredentials` value. It is forced (`Force`) only after
  `panic_if_errors` let resolution continue, so the default sender is decided
  only at that point, as in the source.
- `SmtpSender::send` is a method with a `for` loop. It is proved equal to the
  functions `SendResult` (the outcome) and `SendCalls` (the positions handed
  to the transport, in order). The batch lemmas are proved about those
  functions.
- The server, the mail library's address check, the connection test and mailbox
  parsing are inputs to the model. For `send` this is one `Reply` per message,
  which is used only if the message is handed over.

Behaviour worth knowing:

- The deprecation warning is recorded when `SMTP_DEFAULT_FROM_EMAIL` is
  *absent* and `SMTP_DEFAULT_FROM` is *present* (`is_some`). The default sender
  falls back to the deprecated value when the new address is *empty or absent*
  and the deprecated value is *non-empty*. So `SMTP_DEFAULT_FROM_EMAIL=""` with
  a deprecated value set uses the deprecated value without a warning, although
  the comment at `config/src/email.rs:121` describes the warning as detecting
  use of the deprecated variable. `SMTP_DEFAULT_FROM=""` alone is warned about
  but not used. `EmailConfigs.DeprecationWarningTestsPresence` exhibits both
  cases.
- `used_deprecated_default_from` is always `false` in the built credentials
  (`config/src/email.rs:162`); the warning at lines 122-129 replaces it.
- Construction propagates only a connection-test *error*. The boolean the test
  returns is discarded, so a reachable server that answers `false` still
  yields a sender (`email/src/senders/smtp.rs:53`; `SmtpSenders.New`, the
  `Connected(alive)` case).

`admin/src/routes/settings/test_email.rs` (the admin route that sends a test
message) is not part of this model. `config/src/vars.rs` is not part of this
model either: the behaviour of `Vars` is modelled from how `email.rs` uses it,
under the assumptions listed under "Left out".

## Model

| member | source | states |
|---|---|---|
| TlsModes.FromPort | config/src/email.rs:18-25 | 587 gives STARTTLS, 25 gives no TLS, and every other port (465 included) gives implicit TLS; each as an if-and-only-if |
| TlsModes.ToLower | config/src/email.rs:29 | lowercasing keeps the length, leaves no ASCII capital, keeps every other character, turns each capital into the letter 32 code points later, and changes nothing exactly when the text has no capital |
| TlsModes.Aliases | config/src/email.rs:30-32 | every mode has at least one accepted alias, and every alias is its own lowercase form, so it can match lowercased text |
| TlsModes.AliasesDisjoint | config/src/email.rs:30-32 | no alias belongs to two modes |
| TlsModes.FromStr | config/src/email.rs:28-35 | parsing finds a mode exactly when the lowercased text is one of the seven aliases, and the mode found is the one that alias belongs to |
| TlsModes.FromStrAliases | config/src/email.rs:28-35 | parsing yields a mode exactly when the lowercased text is one of that mode's aliases |
| TlsModes.FromStrRejects | config/src/email.rs:33 | parsing yields nothing exactly when the lowercased text is none of the seven aliases |
| TlsModes.FromStrCaseInsensitive | config/src/email.rs:29 | parsing depends only on the lowercased text |
| TlsModes.ModeName | config/src/email.rs:107-111 | the name a warning prints for a mode is one of that mode's aliases |
| TlsModes.ModeNameRoundTrip | config/src/email.rs:107-111 | parsing the printed name of a mode gives that mode back |
| ConfigVars.DecimalString | config/src/email.rs:112 | the printed port is a non-empty string of decimal digits |
| ConfigVars.DecimalStringValue | config/src/email.rs:112 | the printed number reads back as the number |
| ConfigVars.ParseU16 | config/src/email.rs:84 | a port is parsed only from non-empty text; text with no sign and no leading zero parses only to the number it is the decimal rendering of |
| ConfigVars.CanonicalDigits | config/src/email.rs:84 | digits without a leading zero are the decimal rendering of their value |
| ConfigVars.ParseDecimalString | config/src/email.rs:84 | every port printed in decimal parses back to the same port |
| ConfigVars.U16Var | config/src/email.rs:84 | an optional u16 variable is the default when absent, else its parsed value when it parses |
| ConfigVars.U16Errors | config/src/email.rs:84 | an optional u16 variable adds an error exactly when it is present and does not parse |
| ConfigVars.RequiredErrors | config/src/email.rs:81-83 | a required variable adds an error exactly when it is absent |
| ConfigVars.Vars.Var | config/src/email.rs:81-83 | returns the variable when present; records a missing-variable error exactly when absent |
| ConfigVars.Vars.VarDefault | config/src/email.rs:93 | returns the variable or the default; records no error |
| ConfigVars.Vars.VarDefaultU16 | config/src/email.rs:84 | returns the parsed value or the default; records an error exactly for a present, unparsable value |
| ConfigVars.Vars.MaybeVar | config/src/email.rs:87-91 | returns the variable or nothing; records no error |
| ConfigVars.Vars.AddWarning | config/src/email.rs:104-113 | appends exactly the given warning |
| ConfigVars.Vars.PanicIfErrors | config/src/email.rs:175 | resolution may continue exactly when no error has accumulated |
| EmailConfigs.InvalidTlsWarning | config/src/email.rs:104-113 | the warning mentions the rejected text, the inferred mode's name and the port in decimal |
| EmailConfigs.ResolveTls | config/src/email.rs:99-119 | empty text gives the port's mode; an accepted alias gives its mode; unparsable text falls back to the port's mode |
| EmailConfigs.TlsWarnings | config/src/email.rs:99-116 | at most one warning, present exactly when the text is non-empty and not an alias; it names the text, the mode used and the port |
| EmailConfigs.ExplicitModeIgnoresPort | config/src/email.rs:99-101 | an accepted explicit mode is independent of the port and produces no warning |
| EmailConfigs.BogusModeOnSubmissionPort | config/src/email.rs:102-114 | mode text `bogus` on port 587 resolves to STARTTLS with one warning naming `bogus` and `starttls` |
| EmailConfigs.DefaultFrom | config/src/email.rs:134-153 | `Name <email>` when both are non-empty; `Hoodik <email>` when only the address is; else the non-empty deprecated value verbatim; empty exactly when neither the address nor the deprecated value is non-empty |
| EmailConfigs.DefaultFromIgnoresDeprecated | config/src/email.rs:134-142 | with a non-empty address the deprecated variable has no effect |
| EmailConfigs.DeprecationWarnings | config/src/email.rs:122-129 | the deprecation warning is recorded, once and with its fixed text, exactly when the new address is absent and the deprecated variable is present |
| EmailConfigs.DeprecationWarningTestsPresence | config/src/email.rs:122-153 | an empty new address lets the deprecated value through without a warning; an empty deprecated value is warned about and not used |
| EmailConfigs.PortOf | config/src/email.rs:84 | the port is 465 when unset, else the parsed value when it parses |
| EmailConfigs.CredentialErrors | config/src/email.rs:81-84 | credential resolution adds no error exactly when address, username and password are present and the port is unset or parses |
| EmailConfigs.Captured | config/src/email.rs:155-163 | the captured credentials can be built exactly when address, username and password are present |
| EmailConfigs.PendingCredentials.Force | config/src/email.rs:131-164 | the built credentials carry the captured address, username, password, port and TLS mode; their default sender is `DefaultFrom` of the three sender variables, empty exactly when neither a non-empty address nor a non-empty deprecated value was set; the deprecated flag is false |
| EmailConfigs.ResolveTlsMode | config/src/email.rs:96-119 | the mode is `ResolveTls` of the text and port; the warnings grow by exactly `TlsWarnings` |
| EmailConfigs.ReadServerVars | config/src/email.rs:81-84 | reads the three required variables and the port; the errors grow by exactly `CredentialErrors` |
| EmailConfigs.ReadOptionalVars | config/src/email.rs:87-93 | reads the sender variables and the TLS text (empty when unset); nothing else changes |
| EmailConfigs.NewCredentials | config/src/email.rs:80-165 | errors grow by `CredentialErrors`, warnings by the TLS warning then the deprecation warning, all eight keys are read, and the captured values are those of the environment |
| EmailConfigs.NewEmailConfig | config/src/email.rs:169-181 | anything but exactly `smtp` disables email with no other variable read and no error or warning; `smtp` yields credentials exactly when no error has accumulated (else a stop labelled `EmailConfig` with the non-empty errors), and then every field is the environment's value: address, username, password, port, resolved TLS mode, default sender, and the deprecated flag false |
| SmtpSenders.FromMailbox | email/src/senders/smtp.rs:69 | the sender is replaced and nothing else |
| SmtpSenders.Render | email/src/senders/smtp.rs:78 | rendering succeeds exactly with a sender and a renderable body; the message keeps the sender and subject; failure is a render error |
| SmtpSenders.Stamp | email/src/senders/smtp.rs:68-70 | after stamping there is a sender: the template's own if it had one, else the default; nothing else changes |
| SmtpSenders.Stamped | email/src/senders/smtp.rs:67-70 | every stamped message has a sender; a message with its own sender is unchanged; a message without one gets the default and nothing else changes |
| SmtpSenders.HaltIndex | email/src/senders/smtp.rs:67-98 | no message before the halting position ends the batch, and the one at it does |
| SmtpSenders.SendStep | email/src/senders/smtp.rs:67-98 | with no halt before it, a message reaches the loop stamped; it ends the batch exactly when it is at the halting position, and then a render failure gives the render error with no call for it, a transport error gives that error with it as the last call; otherwise the count grows by it exactly when it counts and the calls by it exactly when it transmits |
| SmtpSenders.CountUpTo | email/src/senders/smtp.rs:65-83 | at most one message counted per message looked at |
| SmtpSenders.CallsUpTo | email/src/senders/smtp.rs:72-80 | the transport calls are in range, strictly increasing, rendered and not skip-send, and include every such message |
| SmtpSenders.SendCount | email/src/senders/smtp.rs:65-100 | a completed batch reports the skip-send messages plus the positive replies, never more than the batch size |
| SmtpSenders.CountBeforeHalt | email/src/senders/smtp.rs:72-83 | before the halt, the running count is the skip-send messages plus the positive replies |
| SmtpSenders.SendSucceedsIff | email/src/senders/smtp.rs:78-100 | a batch completes exactly when no message fails to render or to transmit |
| SmtpSenders.SendCallsTransmit | email/src/senders/smtp.rs:67-80 | the transport calls are strictly increasing positions whose stamped message is not skip-send and renders |
| SmtpSenders.SendCallsOrdered | email/src/senders/smtp.rs:67-80 | the transport is called in input order, at most once per message, never for skip-send, and with the template's own sender or else the default |
| SmtpSenders.SendCallsComplete | email/src/senders/smtp.rs:72-80 | every non-skipped message before the halt reaches the transport |
| SmtpSenders.TransportErrorAborts | email/src/senders/smtp.rs:92-96 | a transport error ends the batch with that error; it came from the last message handed over; nothing later is attempted |
| SmtpSenders.RenderErrorAborts | email/src/senders/smtp.rs:78 | a render error ends the batch at a non-skipped message that does not render, before it reaches the transport |
| SmtpSenders.HaltIndexSameErrors | email/src/senders/smtp.rs:80-96 | where the batch stops depends on the replies only through which are transport errors |
| SmtpSenders.CountUpToPositive | email/src/senders/smtp.rs:82-90 | a positive instead of a negative reply adds one to the count exactly when that message was transmitted |
| SmtpSenders.NegativeReplyContinues | email/src/senders/smtp.rs:82-90 | a negative reply neither stops the batch nor changes which messages are handed over; it only withholds that message's count |
| SmtpSenders.SecondOfThreeFails | email/src/senders/smtp.rs:64-101 | three messages where the second hits a transport error: the batch reports that error and the transport saw only the first two |
| SmtpSenders.SkippedMessageCounts | email/src/senders/smtp.rs:72-76 | a skip-send message counts as sent even when it would not render, and never reaches the transport |
| SmtpSenders.RelayFor | email/src/senders/smtp.rs:29-51 | STARTTLS, implicit TLS and no TLS each get their own builder, as an if-and-only-if |
| SmtpSenders.New | email/src/senders/smtp.rs:19-59 | a TLS builder that rejects the address fails before the connection test; an unreachable server fails before the mailbox is parsed; an unparsable default sender fails; otherwise the sender holds the mode's transport and the parsed mailbox |
| SmtpSenders.Send | email/src/senders/smtp.rs:64-101 | the batch outcome is `SendResult` and the transport calls are `SendCalls` |

## Left out

- `config/src/vars.rs` is not part of this model. `Vars` is modelled under these assumptions: a missing required variable records one missing-variable error; a present but unparsable u16 records one error and the default is used; string variables with a default and optional variables never fail; `panic_if_errors` stops on any accumulated error. The error texts and the deferred `get`/`maybe_get` handles are not modelled: a value is taken from the environment when it is looked up.
- ConfigVars.ParseU16: u16 parsing is modelled as an optional `+` followed by one or more ASCII digits with a value below 65536. Rust's `str::parse::<u16>` is not available to this model. The contract ties a parsed value to its text only for text with no sign and no leading zero; for text with a `+` sign or leading zeros it states only that the text is non-empty.
- TlsModes.ToLower: only ASCII letters are lowercased, while Rust's `to_lowercase` is Unicode-aware. The only non-ASCII character it maps to an ASCII letter is the Kelvin sign (U+212A, to `k`), and no alias contains `k`, so which texts parse is unaffected.
- The panic in `panic_if_errors` is modelled as the `Panicked` result. Process termination and the panic message are not modelled.
- The mail library is not modelled: which addresses its TLS relay builders accept, the SMTP dialogue, the connection test, mailbox parsing and the server's reply to each message are parameters. Credentials are carried as plain fields of the transport.
- Template rendering is reduced to its outcome. A template carries an optional rendered body, and rendering fails exactly when the body or the sender is missing. HTML/text rendering itself is not modelled.
- `send` is `async`. Concurrency and cancellation are not modelled; the loop runs to completion or to its first error.
- Logging of negative replies and transport errors is not modelled; it does not affect the result.
- `Clone`, `boxed_clone` and the `SenderContract` trait object are not modelled; they only copy the sender.
- The error conversion (`Error::from`) is reduced to the error kinds of `SmtpSenders.Error`. The library's error details are kept only as a reason string.
