/**
 * The SMTP sender: its construction (transport chosen by TLS mode, then a
 * connection test, then parsing of the default sender mailbox) and its
 * batch send loop (from-address stamping, skip-send messages, counting of
 * positive replies, and the two ways a batch is aborted).
 *
 * The mail library is not modelled: which addresses the TLS relay builders
 * accept, what the connection test reports, how a mailbox parses and what
 * the server replies to each message are inputs.
 */
module SmtpSenders {
  import opened Wrappers
  import opened TlsModes

  /** A mailbox as the mail library parsed it. */
  datatype Mailbox = Mailbox(text: string)

  /**
   * A message envelope as the sender sees it: an explicit sender or none,
   * the skip-send marker, and the body rendering produces (`None` when
   * rendering fails).
   */
  datatype Template = Template(subject: string, from: Option<Mailbox>, skipSend: bool, body: Option<string>)

  /** The rendered message handed to the transport. */
  datatype Message = Message(from: Mailbox, subject: string, body: string)

  /** What the transport does with one message. */
  datatype Reply = Positive | Negative | TransportError(reason: string)

  datatype Error =
    | RenderFailed
    | SendFailed(reason: string)
    | RelayRejected
    | ConnectionFailed(reason: string)
    | MailboxInvalid

  datatype Result<+T> = Ok(value: T) | Err(error: Error) {
    predicate IsFailure()
    {
      Err?
    }

    function PropagateFailure<U>(): Result<U>
      requires Err?
    {
      Err(error)
    }

    function Extract(): T
      requires Ok?
    {
      value
    }
  }

  // ------------------------------------------------------------- templates

  predicate HasFrom(t: Template)
  {
    t.from.Some?
  }

  /** The template with its sender replaced. */
  function FromMailbox(t: Template, m: Mailbox): (s: Template)
    ensures s.from == Some(m)
    ensures s.(from := t.from) == t
  {
    t.(from := Some(m))
  }

  /** Rendering; it needs a sender and a renderable body. */
  function Render(t: Template): (r: Result<Message>)
    ensures r.Ok? <==> t.from.Some? && t.body.Some?
    ensures r.Ok? ==> r.value.from == t.from.value && r.value.subject == t.subject
    ensures r.Err? ==> r.error == RenderFailed
  {
    if t.from.Some? && t.body.Some? then Ok(Message(t.from.value, t.subject, t.body.value))
    else Err(RenderFailed)
  }

  /** A template as it reaches rendering: the default sender fills a missing one. */
  function Stamp(t: Template, default: Mailbox): (s: Template)
    ensures s.from.Some?
    ensures t.from.Some? ==> s == t
    ensures t.from.None? ==> s.from == Some(default)
    ensures s.(from := t.from) == t
  {
    if !HasFrom(t) then FromMailbox(t, default) else t
  }

  /** The batch as it reaches rendering: every message has a sender, its own or else the default. */
  function Stamped(emails: seq<Template>, default: Mailbox): (ts: seq<Template>)
    ensures |ts| == |emails|
    ensures forall i :: 0 <= i < |ts| ==> ts[i].from.Some?
    ensures forall i :: 0 <= i < |emails| && emails[i].from.Some? ==> ts[i] == emails[i]
    ensures forall i :: 0 <= i < |emails| && emails[i].from.None? ==> ts[i] == emails[i].(from := Some(default))
  {
    seq(|emails|, i requires 0 <= i < |emails| => Stamp(emails[i], default))
  }

  // ------------------------------------------------------ what a batch does

  /** The message reaches the transport. */
  predicate Transmits(t: Template)
  {
    !t.skipSend && Render(t).Ok?
  }

  /** The message ends the batch: it fails to render, or its transmission fails. */
  predicate Halts(t: Template, reply: Reply)
  {
    !t.skipSend && (Render(t).Err? || reply.TransportError?)
  }

  /** The message is counted as sent. */
  predicate Counts(t: Template, reply: Reply)
  {
    t.skipSend || (Render(t).Ok? && reply.Positive?)
  }

  /** The first message that ends the batch, or the batch length when none does. */
  function HaltIndex(ts: seq<Template>, rs: seq<Reply>): (a: nat)
    requires |rs| == |ts|
    ensures a <= |ts|
    ensures forall j :: 0 <= j < a ==> !Halts(ts[j], rs[j])
    ensures a < |ts| ==> Halts(ts[a], rs[a])
    decreases |ts|
  {
    if |ts| == 0 then 0
    else if Halts(ts[0], rs[0]) then 0
    else 1 + HaltIndex(ts[1..], rs[1..])
  }


  /** How many of the first `k` messages count as sent. */
  function CountUpTo(ts: seq<Template>, rs: seq<Reply>, k: nat): (n: nat)
    requires k <= |ts| == |rs|
    ensures n <= k
  {
    if k == 0 then 0
    else CountUpTo(ts, rs, k - 1) + (if Counts(ts[k - 1], rs[k - 1]) then 1 else 0)
  }

  /** The positions among the first `k` whose message reaches the transport, in order. */
  function CallsUpTo(ts: seq<Template>, k: nat): (c: seq<nat>)
    requires k <= |ts|
    ensures forall x :: 0 <= x < |c| ==> c[x] < k && Transmits(ts[c[x]])
    ensures forall x, y :: 0 <= x < y < |c| ==> c[x] < c[y]
    ensures forall j :: 0 <= j < k && Transmits(ts[j]) ==> j in c
  {
    if k == 0 then []
    else CallsUpTo(ts, k - 1) + (if Transmits(ts[k - 1]) then [k - 1] else [])
  }

  /**
   * The outcome of a batch: the count when no message ends it, otherwise
   * the error of the first message that does; never a partial count.
   */
  function SendResult(default: Mailbox, emails: seq<Template>, rs: seq<Reply>): (r: Result<nat>)
    requires |rs| == |emails|
  {
    var ts := Stamped(emails, default);
    var a := HaltIndex(ts, rs);
    if a == |ts| then Ok(CountUpTo(ts, rs, |ts|))
    else if Render(ts[a]).Err? then Err(RenderFailed)
    else Err(SendFailed(rs[a].reason))
  }

  /** The positions handed to the transport: those before the halt, and the halting one if it rendered. */
  function SendCalls(default: Mailbox, emails: seq<Template>, rs: seq<Reply>): (c: seq<nat>)
    requires |rs| == |emails|
  {
    var ts := Stamped(emails, default);
    var a := HaltIndex(ts, rs);
    if a == |ts| then CallsUpTo(ts, |ts|)
    else if Render(ts[a]).Ok? then CallsUpTo(ts, a) + [a]
    else CallsUpTo(ts, a)
  }

  /**
   * One step of the batch, with no halt before message `i`: message `i` is
   * the stamped template; either it is the first to halt, and it decides
   * the outcome and the calls, or the count and the calls extend by it.
   */
  lemma SendStep(default: Mailbox, emails: seq<Template>, rs: seq<Reply>, i: nat)
    requires |rs| == |emails| && i < |emails| && i <= HaltIndex(Stamped(emails, default), rs)
    ensures var ts := Stamped(emails, default);
      && ts[i] == Stamp(emails[i], default)
      && (Halts(ts[i], rs[i]) <==> HaltIndex(ts, rs) == i)
      && CountUpTo(ts, rs, i + 1) == CountUpTo(ts, rs, i) + (if Counts(ts[i], rs[i]) then 1 else 0)
      && CallsUpTo(ts, i + 1) == CallsUpTo(ts, i) + (if Transmits(ts[i]) then [i] else [])
      && (Halts(ts[i], rs[i]) && Render(ts[i]).Err? ==>
            SendResult(default, emails, rs) == Err(RenderFailed) &&
            SendCalls(default, emails, rs) == CallsUpTo(ts, i))
      && (Halts(ts[i], rs[i]) && Render(ts[i]).Ok? ==>
            SendResult(default, emails, rs) == Err(SendFailed(rs[i].reason)) &&
            SendCalls(default, emails, rs) == CallsUpTo(ts, i) + [i])
  {
  }

  // --------------------------------------------------- properties of a batch

  /** Skip-send messages among the first `k`. */
  function SkipCount(emails: seq<Template>, k: nat): (n: nat)
    requires k <= |emails|
    ensures n <= k
  {
    if k == 0 then 0
    else SkipCount(emails, k - 1) + (if emails[k - 1].skipSend then 1 else 0)
  }

  /** Messages among the first `k` that are not skipped and get a positive reply. */
  function PositiveCount(emails: seq<Template>, rs: seq<Reply>, k: nat): (n: nat)
    requires k <= |emails| == |rs|
    ensures n <= k
  {
    if k == 0 then 0
    else PositiveCount(emails, rs, k - 1) + (if !emails[k - 1].skipSend && rs[k - 1].Positive? then 1 else 0)
  }

  lemma {:induction false} CountBeforeHalt(default: Mailbox, emails: seq<Template>, rs: seq<Reply>, k: nat)
    requires |rs| == |emails| && k <= HaltIndex(Stamped(emails, default), rs)
    ensures CountUpTo(Stamped(emails, default), rs, k) == SkipCount(emails, k) + PositiveCount(emails, rs, k)
  {
    if k > 0 {
      CountBeforeHalt(default, emails, rs, k - 1);
      var ts := Stamped(emails, default);
      assert !Halts(ts[k - 1], rs[k - 1]);
    }
  }

  /** A completed batch reports the skip-send messages plus the positive replies, at most one per message. */
  lemma SendCount(default: Mailbox, emails: seq<Template>, rs: seq<Reply>)
    requires |rs| == |emails|
    requires SendResult(default, emails, rs).Ok?
    ensures SendResult(default, emails, rs).value ==
            SkipCount(emails, |emails|) + PositiveCount(emails, rs, |emails|)
    ensures SendResult(default, emails, rs).value <= |emails|
  {
    CountBeforeHalt(default, emails, rs, |emails|);
  }

  /** A batch completes exactly when no message fails to render or to transmit. */
  lemma SendSucceedsIff(default: Mailbox, emails: seq<Template>, rs: seq<Reply>)
    requires |rs| == |emails|
    ensures SendResult(default, emails, rs).Ok? <==>
            forall j :: 0 <= j < |emails| ==> !Halts(Stamp(emails[j], default), rs[j])
  {
    var ts := Stamped(emails, default);
    var a := HaltIndex(ts, rs);
    if a < |ts| {
      assert Halts(Stamp(emails[a], default), rs[a]);
    }
  }

  /** The transport calls are strictly increasing positions of messages that transmit. */
  lemma SendCallsTransmit(default: Mailbox, emails: seq<Template>, rs: seq<Reply>)
    requires |rs| == |emails|
    ensures var c := SendCalls(default, emails, rs);
      && (forall x, y :: 0 <= x < y < |c| ==> c[x] < c[y])
      && (forall x :: 0 <= x < |c| ==> c[x] < |emails| && Transmits(Stamped(emails, default)[c[x]]))
  {
    var ts := Stamped(emails, default);
    var a := HaltIndex(ts, rs);
    var c := SendCalls(default, emails, rs);
    if a < |ts| && Render(ts[a]).Ok? {
      var p := CallsUpTo(ts, a);
      assert c == p + [a];
      forall x | 0 <= x < |c|
        ensures c[x] <= a && Transmits(ts[c[x]])
      {
        if x < |p| { assert c[x] == p[x]; }
      }
      forall x, y | 0 <= x < y < |c|
        ensures c[x] < c[y]
      {
        if y < |p| { assert c[x] == p[x] && c[y] == p[y]; } else { assert c[x] == p[x]; }
      }
    }
  }

  /**
   * The transport is called in input order, at most once per message, never
   * for a skip-send message, and only with a rendered message whose sender
   * is the template's own or, failing that, the default.
   */
  lemma SendCallsOrdered(default: Mailbox, emails: seq<Template>, rs: seq<Reply>)
    requires |rs| == |emails|
    ensures var c := SendCalls(default, emails, rs);
      && (forall x, y :: 0 <= x < y < |c| ==> c[x] < c[y])
      && (forall x :: 0 <= x < |c| ==> c[x] < |emails| && !emails[c[x]].skipSend)
      && (forall x :: 0 <= x < |c| ==>
            Render(Stamp(emails[c[x]], default)).Ok? &&
            Render(Stamp(emails[c[x]], default)).value.from == emails[c[x]].from.GetOr(default))
  {
    SendCallsTransmit(default, emails, rs);
  }

  /** Every message before the halt that is not skipped reaches the transport. */
  lemma SendCallsComplete(default: Mailbox, emails: seq<Template>, rs: seq<Reply>, j: nat)
    requires |rs| == |emails| && j < HaltIndex(Stamped(emails, default), rs)
    requires !emails[j].skipSend
    ensures j in SendCalls(default, emails, rs)
  {
    var ts := Stamped(emails, default);
    assert !Halts(ts[j], rs[j]);
    assert Transmits(ts[j]);
  }

  /**
   * A transport error ends the batch with that error: the failing message
   * was the last one handed over, and every earlier message either was
   * skipped or did not fail.
   */
  lemma TransportErrorAborts(default: Mailbox, emails: seq<Template>, rs: seq<Reply>, reason: string)
    requires |rs| == |emails|
    requires SendResult(default, emails, rs) == Err(SendFailed(reason))
    ensures var c := SendCalls(default, emails, rs);
      && |c| > 0
      && rs[c[|c| - 1]] == TransportError(reason)
      && (forall j :: c[|c| - 1] < j < |emails| ==> j !in c)
      && (forall j :: 0 <= j < c[|c| - 1] ==> emails[j].skipSend || !rs[j].TransportError?)
  {
    var ts := Stamped(emails, default);
    var a := HaltIndex(ts, rs);
    var c := SendCalls(default, emails, rs);
    assert c == CallsUpTo(ts, a) + [a];
    forall j | 0 <= j < a
      ensures emails[j].skipSend || !rs[j].TransportError?
    {
      assert !Halts(ts[j], rs[j]);
    }
  }

  /**
   * A rendering failure ends the batch before that message reaches the
   * transport; nothing after it is attempted.
   */
  lemma RenderErrorAborts(default: Mailbox, emails: seq<Template>, rs: seq<Reply>)
    requires |rs| == |emails|
    requires SendResult(default, emails, rs) == Err(RenderFailed)
    ensures exists a :: (0 <= a < |emails| && !emails[a].skipSend &&
      Render(Stamp(emails[a], default)).Err? &&
      forall x :: 0 <= x < |SendCalls(default, emails, rs)| ==> SendCalls(default, emails, rs)[x] < a)
  {
    var ts := Stamped(emails, default);
    var a := HaltIndex(ts, rs);
    assert Render(Stamp(emails[a], default)).Err?;
  }

  /** The halting point depends on the replies only through which of them are transport errors. */
  lemma {:induction false} HaltIndexSameErrors(ts: seq<Template>, rs: seq<Reply>, qs: seq<Reply>)
    requires |rs| == |qs| == |ts|
    requires forall j :: 0 <= j < |ts| ==> (rs[j].TransportError? <==> qs[j].TransportError?)
    ensures HaltIndex(ts, rs) == HaltIndex(ts, qs)
    decreases |ts|
  {
    if |ts| > 0 && !Halts(ts[0], rs[0]) {
      HaltIndexSameErrors(ts[1..], rs[1..], qs[1..]);
    }
  }

  lemma {:induction false} CountUpToPositive(ts: seq<Template>, rs: seq<Reply>, i: nat, k: nat)
    requires k <= |ts| == |rs| && i < |rs| && rs[i] == Negative
    ensures CountUpTo(ts, rs[i := Positive], k) ==
            CountUpTo(ts, rs, k) + (if i < k && Transmits(ts[i]) then 1 else 0)
  {
    if k > 0 {
      CountUpToPositive(ts, rs, i, k - 1);
    }
  }

  /**
   * A negative reply neither stops the batch nor changes which messages are
   * handed over; compared with a positive reply it only lowers the count
   * by one.
   */
  lemma NegativeReplyContinues(default: Mailbox, emails: seq<Template>, rs: seq<Reply>, i: nat)
    requires |rs| == |emails| && i < |rs| && rs[i] == Negative
    ensures var qs := rs[i := Positive];
      && SendCalls(default, emails, qs) == SendCalls(default, emails, rs)
      && (SendResult(default, emails, rs).Ok? <==> SendResult(default, emails, qs).Ok?)
      && (SendResult(default, emails, rs).Err? ==> SendResult(default, emails, qs) == SendResult(default, emails, rs))
      && (SendResult(default, emails, rs).Ok? ==>
            SendResult(default, emails, qs).value ==
            SendResult(default, emails, rs).value + (if i in SendCalls(default, emails, rs) then 1 else 0))
  {
    var qs := rs[i := Positive];
    var ts := Stamped(emails, default);
    HaltIndexSameErrors(ts, rs, qs);
    CountUpToPositive(ts, rs, i, |ts|);
    var a := HaltIndex(ts, rs);
    if a == |ts| {
      var c := CallsUpTo(ts, |ts|);
      if i in c {
        var x :| 0 <= x < |c| && c[x] == i;
        assert Transmits(ts[i]);
      }
    }
  }

  /** A batch of three whose second message hits a transport error reports the error, not one sent. */
  lemma SecondOfThreeFails(default: Mailbox, t: Template)
    requires !t.skipSend && t.from.Some? && t.body.Some?
    ensures SendResult(default, [t, t, t], [Positive, TransportError("reset"), Positive]) == Err(SendFailed("reset"))
    ensures SendCalls(default, [t, t, t], [Positive, TransportError("reset"), Positive]) == [0, 1]
  {
    var ts := Stamped([t, t, t], default);
    assert ts == [t, t, t];
    assert HaltIndex(ts[2..], [Positive]) == 1;
    assert HaltIndex(ts[1..], [TransportError("reset"), Positive]) == 0;
    assert CallsUpTo(ts, 1) == [0];
  }

  /** A skip-send message counts as sent even when its body would not render. */
  lemma SkippedMessageCounts(default: Mailbox, t: Template)
    requires t.skipSend && t.body.None?
    ensures SendResult(default, [t], [TransportError("unused")]) == Ok(1)
    ensures SendCalls(default, [t], [TransportError("unused")]) == []
  {
    var ts := Stamped([t], default);
    var rs := [TransportError("unused")];
    assert ts == [Stamp(t, default)];
    assert !Halts(ts[0], rs[0]);
    assert HaltIndex(ts[1..], rs[1..]) == 0;
    assert HaltIndex(ts, rs) == 1;
    assert CountUpTo(ts, rs, 1) == 1;
    assert !Transmits(ts[0]);
    assert CallsUpTo(ts, 1) == [];
  }

  // ----------------------------------------------------------------- sender

  /** The three transport builders of the mail library. */
  datatype Relay = StartTlsRelay | TlsRelay | PlainRelay

  datatype SmtpTransport = SmtpTransport(relay: Relay, address: string, port: U16,
                                         username: string, password: string)

  /** What the connection test reports; a reachable server may still answer `false`. */
  datatype ConnectionTest = Connected(alive: bool) | Unreachable(reason: string)

  datatype SmtpSender = SmtpSender(smtp: SmtpTransport, defaultFrom: Mailbox)

  /** The fallible steps of construction, in the order they ran. */
  datatype Step = BuildTransport | TestConnection | ParseDefaultFrom

  /** The builder is a function of the TLS mode alone, and distinct modes get distinct builders. */
  function RelayFor(mode: TlsMode): (r: Relay)
    ensures r == StartTlsRelay <==> mode == StartTls
    ensures r == TlsRelay <==> mode == ImplicitTls
    ensures r == PlainRelay <==> mode == NoTls
  {
    match mode
    case StartTls => StartTlsRelay
    case ImplicitTls => TlsRelay
    case NoTls => PlainRelay
  }

  /**
   * Construction. The TLS builders can reject the address (`acceptsDomain`);
   * the unencrypted builder cannot. The connection test runs before the
   * default sender is parsed, and any failure yields no sender.
   */
  method New(address: string, username: string, password: string, port: U16, tlsMode: TlsMode,
             defaultFrom: string, acceptsDomain: string -> bool,
             testConnection: SmtpTransport -> ConnectionTest,
             parseMailbox: string -> Option<Mailbox>)
    returns (r: Result<SmtpSender>, steps: seq<Step>)
    ensures var smtp := SmtpTransport(RelayFor(tlsMode), address, port, username, password);
      && (tlsMode != NoTls && !acceptsDomain(address) ==>
            r == Err(RelayRejected) && steps == [BuildTransport])
      && (tlsMode == NoTls || acceptsDomain(address) ==>
            && |steps| >= 2 && steps[..2] == [BuildTransport, TestConnection]
            && (testConnection(smtp).Unreachable? ==>
                  r == Err(ConnectionFailed(testConnection(smtp).reason)) && |steps| == 2)
            && (testConnection(smtp).Connected? ==>
                  && steps == [BuildTransport, TestConnection, ParseDefaultFrom]
                  && (parseMailbox(defaultFrom).None? ==> r == Err(MailboxInvalid))
                  && (parseMailbox(defaultFrom).Some? ==>
                        r == Ok(SmtpSender(smtp, parseMailbox(defaultFrom).value)))))
    ensures r.Ok? ==> steps == [BuildTransport, TestConnection, ParseDefaultFrom]
    ensures r.Ok? ==> r.value.smtp.relay == RelayFor(tlsMode)
  {
    steps := [BuildTransport];
    var smtp: SmtpTransport;
    match tlsMode {
      case StartTls =>
        if !acceptsDomain(address) {
          return Err(RelayRejected), steps;
        }
        smtp := SmtpTransport(StartTlsRelay, address, port, username, password);
      case ImplicitTls =>
        if !acceptsDomain(address) {
          return Err(RelayRejected), steps;
        }
        smtp := SmtpTransport(TlsRelay, address, port, username, password);
      case NoTls =>
        smtp := SmtpTransport(PlainRelay, address, port, username, password);
    }

    steps := steps + [TestConnection];
    var test := testConnection(smtp);
    if test.Unreachable? {
      return Err(ConnectionFailed(test.reason)), steps;
    }

    steps := steps + [ParseDefaultFrom];
    var mailbox := parseMailbox(defaultFrom);
    if mailbox.None? {
      return Err(MailboxInvalid), steps;
    }
    r := Ok(SmtpSender(smtp, mailbox.value));
  }

  /**
   * Sends a batch in order. `replies[i]` is what the transport does with
   * message `i` if it is handed over; `calls` lists the positions handed
   * over, in the order they were.
   */
  method Send(sender: SmtpSender, emails: seq<Template>, replies: seq<Reply>)
    returns (r: Result<nat>, calls: seq<nat>)
    requires |replies| == |emails|
    ensures r == SendResult(sender.defaultFrom, emails, replies)
    ensures calls == SendCalls(sender.defaultFrom, emails, replies)
  {
    ghost var ts := Stamped(emails, sender.defaultFrom);
    var sent := 0;
    calls := [];
    for i := 0 to |emails|
      invariant i <= HaltIndex(ts, replies)
      invariant sent == CountUpTo(ts, replies, i)
      invariant calls == CallsUpTo(ts, i)
    {
      var email := emails[i];
      if !HasFrom(email) {
        email := FromMailbox(email, sender.defaultFrom);
      }
      assert email == Stamp(emails[i], sender.defaultFrom);
      SendStep(sender.defaultFrom, emails, replies, i);

      if email.skipSend {
        sent := sent + 1;
        continue;
      }

      var message :- Render(email);

      calls := calls + [i];
      match replies[i] {
        case Positive =>
          sent := sent + 1;
        case Negative =>
        case TransportError(reason) =>
          return Err(SendFailed(reason)), calls;
      }
    }
    r := Ok(sent);
  }
}
