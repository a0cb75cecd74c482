/** What flask_email/backends/base.py does through `self.send_messages`,
    whichever backend `self` is: send, the context manager, send_mail,
    send_mass_mail, mail_admins and mail_managers, and EmailMessage.send,
    which hands the message to its `connection`. */
module Mailer {
  import opened Outcomes
  import opened AppConfig
  import opened Traversal
  import opened HeaderGuard
  import opened Message
  import opened BaseMail
  import SmtpBackend
  import ConsoleBackend
  import LocmemBackend
  import DummyBackend

  /** A mail object: an instance of one of the four backends. */
  datatype Backend =
    | Smtp(smtp: SmtpBackend.Mail)
    | Console(console: ConsoleBackend.Mail)
    | Locmem(locmem: LocmemBackend.Mail)
    | Dummy(dummy: DummyBackend.Mail)

  /** The objects a call on the backend may change. */
  function Footprint(b: Backend): set<object> {
    match b
    case Smtp(m) => {m, m.signal}
    case Console(m) => {m, m.stream}
    case Locmem(m) => {m.package}
    case Dummy(_) => {}
  }

  /** What lies outside the core during one call: the library functions
      message() uses, the application's configuration, the SMTP server,
      and the MIME generator behind `as_string()`. */
  datatype World = World(lib: Library, cfg: Config, net: SmtpBackend.Network, asString: Document -> Text)

  /** The part of a backend's state that sending reads or changes. */
  datatype State =
    | SmtpState(settings: SmtpBackend.Settings, connection: Option<SmtpBackend.Session>, log: seq<EmailMessage>)
    | ConsoleState(failSilently: bool, text: Text)
    | LocmemState(outbox: Option<seq<EmailMessage>>)
    | DummyState

  function StateOf(b: Backend): State
    reads Footprint(b)
  {
    match b
    case Smtp(m) => SmtpState(m.CurrentSettings(), m.connection, m.signal.log)
    case Console(m) => ConsoleState(m.failSilently, m.stream.text)
    case Locmem(m) => LocmemState(m.package.outbox)
    case Dummy(_) => DummyState
  }

  /** send_messages(ms) of each backend, on a batch `ms` whose attributes
      are `vs`: what it returns and the state it leaves (for SMTP the
      dispatch log, for the console the stream). */
  function Transition(w: World, st: State, vs: seq<MessageValue>, ms: seq<EmailMessage>): (Result<Option<nat>>, State)
    requires |vs| == |ms|
  {
    match st
    case SmtpState(s, c, log) =>
      var o := SmtpBackend.SendBatch(w.lib, w.cfg, w.net, s, c, vs, ms);
      (o.result, SmtpState(s, o.connection, log + o.sent))
    case ConsoleState(fs, text) =>
      var render := RenderStep(w.lib, w.cfg);
      (ConsoleBackend.Returned(render, w.asString, fs, vs),
       ConsoleState(fs, text + ConsoleBackend.Output(render, w.asString, vs).0))
    case LocmemState(outbox) =>
      var (r, after) := LocmemBackend.Delivered(RenderStep(w.lib, w.cfg), outbox, vs, ms);
      (r, LocmemState(after))
    case DummyState => (Ok(Some(|ms|)), DummyState)
  }

  /** open() of each backend: only SMTP opens anything; the others inherit
      the base open(), which does nothing. */
  function Opened(w: World, st: State): (Result<Option<bool>>, State) {
    match st
    case SmtpState(s, c, log) =>
      var (o, c') := SmtpBackend.OpenOutcome(s, c, w.net);
      (o, SmtpState(s, c', log))
    case _ => (Ok(None), st)
  }

  /** close() of each backend: only SMTP closes anything. */
  function Closed(w: World, st: State): (Result<()>, State) {
    match st
    case SmtpState(s, c, log) => (SmtpBackend.CloseOutcome(s.failSilently, c, w.net), SmtpState(s, None, log))
    case _ => (Ok(()), st)
  }

  /** An empty batch: SMTP and console return None and change nothing;
      dummy returns 0; local memory returns 0 when the outbox exists. */
  lemma EmptyBatch(w: World, st: State)
    ensures st.SmtpState? || st.ConsoleState? ==> Transition(w, st, [], []) == (Ok(None), st)
    ensures st.DummyState? ==> Transition(w, st, [], []) == (Ok(Some(0)), st)
    ensures st.LocmemState? && st.outbox.Some? ==> Transition(w, st, [], []) == (Ok(Some(0)), st)
    ensures st.LocmemState? && st.outbox.None? ==> Transition(w, st, [], []) == (Raised(MissingOutboxError), st)
  {
    if st.LocmemState? && st.outbox.Some? {
      assert st.outbox.value + [] == st.outbox.value;
    }
    if st.ConsoleState? {
      assert st.text + [] == st.text;
    }
    if st.SmtpState? {
      assert st.log + [] == st.log;
    }
  }

  /** Inside `with mail:` on an SMTP backend that had no session: when
      __enter__ opened one, every send_messages in the block keeps using it
      and leaves it open, and __exit__ closes it. The other backends'
      __enter__ and __exit__ change nothing. */
  lemma WithBlock(w: World, st: State, vs: seq<MessageValue>, ms: seq<EmailMessage>)
    requires |vs| == |ms|
    ensures !st.SmtpState? ==> Opened(w, st) == (Ok(None), st) && Closed(w, st) == (Ok(()), st)
    ensures st.SmtpState? && st.connection.None? && Opened(w, st).0 == Ok(Some(true)) ==>
      var inside := Opened(w, st).1;
      inside.connection.Some? &&
      Transition(w, inside, vs, ms).1.connection == inside.connection &&
      Closed(w, Transition(w, inside, vs, ms).1).1.connection.None?
  {
    if st.SmtpState? {
      SmtpBackend.ConnectionAccounting(w.lib, w.cfg, w.net, st.settings, Opened(w, st).1.connection, vs, ms);
    }
  }

  /** `connection.send_messages(ms)`, dispatched on the backend. */
  method SendMessages(b: Backend, w: World, ms: seq<EmailMessage>) returns (r: Result<Option<nat>>)
    modifies Footprint(b)
    ensures (r, StateOf(b)) == Transition(w, old(StateOf(b)), old(Values(ms)), ms)
  {
    match b {
      case Smtp(m) =>
        r := m.SendMessages(w.lib, w.cfg, w.net, ms);
      case Console(m) =>
        r := m.SendMessages(w.lib, w.cfg, w.asString, ms);
      case Locmem(m) =>
        r := m.SendMessages(w.lib, w.cfg, ms);
      case Dummy(m) =>
        r := m.SendMessages(ms);
    }
  }

  /** send(m), also bound as send_message: a batch of one. */
  method Send(b: Backend, w: World, m: EmailMessage) returns (r: Result<Option<nat>>)
    modifies Footprint(b)
    ensures (r, StateOf(b)) == Transition(w, old(StateOf(b)), [old(m.Value())], [m])
  {
    assert Values([m]) == [m.Value()];
    r := SendMessages(b, w, [m]);
  }

  /** A batch of one on the dummy backend is counted; on local memory it
      is appended when it renders. */
  lemma SingleMessage(w: World, st: State, v: MessageValue, m: EmailMessage)
    ensures st.DummyState? ==> Transition(w, st, [v], [m]) == (Ok(Some(1)), st)
    ensures st.LocmemState? && st.outbox.Some? && RenderStep(w.lib, w.cfg)(v).Ok? ==>
      Transition(w, st, [v], [m]) == (Ok(Some(1)), LocmemState(Some(st.outbox.value + [m])))
  {
    if st.LocmemState? && st.outbox.Some? && RenderStep(w.lib, w.cfg)(v).Ok? {
      LocmemBackend.DeliveredOne(RenderStep(w.lib, w.cfg), st.outbox.value, v, m);
    }
  }

  /** A batch of one over an open SMTP session: it is sent, counted and
      logged exactly when _send returns True; an exception from _send
      propagates and leaves the log as it was. */
  lemma SingleMessageSmtp(w: World, s: SmtpBackend.Settings, c: SmtpBackend.Session, log: seq<EmailMessage>,
                          v: MessageValue, m: EmailMessage)
    ensures var sent := SmtpBackend.SendStep(w.lib, w.cfg, w.net, s.failSilently)(v);
      var st := SmtpState(s, Some(c), log);
      (sent == Ok(true) ==> Transition(w, st, [v], [m]) == (Ok(Some(1)), SmtpState(s, Some(c), log + [m]))) &&
      (sent == Ok(false) ==> Transition(w, st, [v], [m]) == (Ok(Some(0)), st)) &&
      (sent.Raised? ==> Transition(w, st, [v], [m]) == (Raised(sent.error), st))
  {
    SmtpBackend.DispatchedSingle(SmtpBackend.SendStep(w.lib, w.cfg, w.net, s.failSilently), v, m);
    assert log + [] == log;
  }

  /** A batch of one that renders on the console: its block is written and
      1 is returned. */
  lemma SingleMessageConsole(w: World, fs: bool, text: Text, v: MessageValue, m: EmailMessage)
    ensures var doc := RenderStep(w.lib, w.cfg)(v);
      doc.Ok? ==>
      Transition(w, ConsoleState(fs, text), [v], [m]) ==
        (Ok(Some(1)), ConsoleState(fs, text + ConsoleBackend.Block(w.asString, doc.value)))
  {
    var render := RenderStep(w.lib, w.cfg);
    var vs := [v];
    assert vs[..0] == [] && vs[..1] == vs;
    ConsoleBackend.OutputSnoc(render, w.asString, vs, 0);
    if render(v).Ok? {
      assert [] + ConsoleBackend.Block(w.asString, render(v).value)
          == ConsoleBackend.Block(w.asString, render(v).value);
    }
  }

  /** __enter__, and connect() which does the same: open(), then the mail
      object itself; an exception from open() propagates. */
  method Enter(b: Backend, w: World) returns (r: Result<Backend>)
    modifies Footprint(b)
    ensures StateOf(b) == Opened(w, old(StateOf(b))).1
    ensures Opened(w, old(StateOf(b))).0.Ok? ==> r == Ok(b)
    ensures Opened(w, old(StateOf(b))).0.Raised? ==> r == Raised(Opened(w, old(StateOf(b))).0.error)
  {
    match b {
      case Smtp(m) =>
        var started := m.Open(w.net);
        if started.Raised? { return Raised(started.error); }
      case Console(m) =>
        var started := m.Open();
      case Locmem(_) =>
      case Dummy(_) =>
    }
    r := Ok(b);
  }

  /** __exit__: close(); its return value does not suppress an exception
      raised inside the block. */
  method Exit(b: Backend, w: World) returns (r: Result<()>)
    modifies Footprint(b)
    ensures (r, StateOf(b)) == Closed(w, old(StateOf(b)))
  {
    match b {
      case Smtp(m) =>
        r := m.Close(w.net);
      case Console(m) =>
        m.Close();
        r := Ok(());
      case Locmem(_) =>
        r := Ok(());
      case Dummy(_) =>
        r := Ok(());
    }
  }

  /** EmailMessage.send(fail_silently): with no recipient at all it returns
      0 and leaves the backend alone; otherwise it hands the message to its
      `connection`, whose send_messages decides. `fail_silently` is accepted
      and not used. */
  method SendEmail(m: EmailMessage, connection: Option<Backend>, w: World, failSilently: bool)
    returns (r: Result<Option<nat>>)
    modifies if connection.Some? then Footprint(connection.value) else {}
    ensures AllRecipients(m.Value()) == [] ==> r == Ok(Some(0))
    ensures connection.Some? && AllRecipients(m.Value()) == [] ==>
      StateOf(connection.value) == old(StateOf(connection.value))
    ensures connection.None? && AllRecipients(m.Value()) != [] ==> r == Raised(NoConnectionError)
    ensures connection.Some? && AllRecipients(m.Value()) != [] ==>
      (r, StateOf(connection.value)) == Transition(w, old(StateOf(connection.value)), [old(m.Value())], [m])
  {
    RecipientsEmpty(m.Value());
    if Recipients(m.Value()) == [] { return Ok(Some(0)); }
    if connection.None? { return Raised(NoConnectionError); }
    r := Send(connection.value, w, m);
  }

  /** send_mail(subject, body, from_email, to, **kwargs): one EmailMessage
      bound to this mail object, then its send(). The `fail_silently`
      keyword is removed and not used; `msgId` is make_msgid()'s result. */
  method SendMail(b: Backend, w: World, args: MessageArgs, msgId: Text, failSilently: Option<bool>)
    returns (r: Result<Option<nat>>, ghost message: EmailMessage)
    modifies Footprint(b)
    ensures fresh(message) && message.Value() == Construct(args, w.cfg, msgId)
    ensures AllRecipients(message.Value()) == [] ==> r == Ok(Some(0)) && StateOf(b) == old(StateOf(b))
    ensures AllRecipients(message.Value()) != [] ==>
      (r, StateOf(b)) == Transition(w, old(StateOf(b)), [Construct(args, w.cfg, msgId)], [message])
  {
    var m := new EmailMessage(args, w.cfg, msgId);
    message := m;
    r := SendEmail(m, Some(b), w, false);
  }

  /** One tuple of send_mass_mail's datatuple: subject, message, sender and
      recipient list. */
  datatype MassMessage = MassMessage(subject: Text, body: Text, sender: Sender, recipients: seq<Text>)

  /** `EmailMessage(subject, message, sender, recipient)`: four positional
      arguments and nothing else. */
  function MassArgs(t: MassMessage): MessageArgs {
    MessageArgs(t.subject, t.body, t.sender, Some(t.recipients), None, None, None, None, None, None, None, None,
                None, None, None)
  }

  /** The attributes of the messages send_mass_mail builds. */
  function MassValues(cfg: Config, datatuple: seq<MassMessage>, ids: nat -> Text): (r: seq<MessageValue>)
    ensures |r| == |datatuple|
    ensures forall i :: 0 <= i < |datatuple| ==> r[i] == Construct(MassArgs(datatuple[i]), cfg, ids(i))
  {
    seq(|datatuple|, i requires 0 <= i < |datatuple| => Construct(MassArgs(datatuple[i]), cfg, ids(i)))
  }

  /** The list comprehension of send_mass_mail: one fresh message per
      tuple, in tuple order. `ids(i)` is make_msgid()'s result for the
      i-th message. */
  method MassMessages(cfg: Config, datatuple: seq<MassMessage>, ids: nat -> Text) returns (ms: seq<EmailMessage>)
    ensures |ms| == |datatuple|
    ensures forall i :: 0 <= i < |datatuple| ==>
      fresh(ms[i]) && ms[i].Value() == Construct(MassArgs(datatuple[i]), cfg, ids(i))
    ensures Values(ms) == MassValues(cfg, datatuple, ids)
  {
    ms := [];
    var i := 0;
    while i < |datatuple|
      invariant 0 <= i <= |datatuple| && |ms| == i
      invariant forall j :: 0 <= j < i ==>
        fresh(ms[j]) && ms[j].Value() == Construct(MassArgs(datatuple[j]), cfg, ids(j))
    {
      var m := new EmailMessage(MassArgs(datatuple[i]), cfg, ids(i));
      ms := ms + [m];
      i := i + 1;
    }
    assert Values(ms) == MassValues(cfg, datatuple, ids);
  }

  /** send_mass_mail: the messages of the datatuple, sent as a single
      batch whose result is returned. */
  method SendMassMail(b: Backend, w: World, datatuple: seq<MassMessage>, ids: nat -> Text)
    returns (r: Result<Option<nat>>, ghost messages: seq<EmailMessage>)
    modifies Footprint(b)
    ensures |messages| == |datatuple| && forall i :: 0 <= i < |messages| ==> fresh(messages[i])
    ensures (r, StateOf(b)) == Transition(w, old(StateOf(b)), MassValues(w.cfg, datatuple, ids), messages)
  {
    ghost var before := StateOf(b);
    var ms := MassMessages(w.cfg, datatuple, ids);
    messages := ms;
    assert StateOf(b) == before;
    r := SendMessages(b, w, ms);
  }

  /** The two lists of recipients base.py broadcasts to. */
  datatype Audience = Admins | Managers

  /** `app.config.get('ADMINS')` or `app.config.get('MANAGERS')`. */
  function Listed(cfg: Config, a: Audience): Option<seq<(Text, Text)>> {
    match a
    case Admins => cfg.admins
    case Managers => cfg.managers
  }

  /** `[a[1] for a in pairs]`. */
  function Addresses(pairs: seq<(Text, Text)>): (r: seq<Text>)
    ensures |r| == |pairs|
    ensures forall i :: 0 <= i < |pairs| ==> r[i] == pairs[i].1
  {
    seq(|pairs|, i requires 0 <= i < |pairs| => pairs[i].1)
  }

  /** The arguments of the broadcast EmailMessage: the prefixed subject,
      the body, SERVER_EMAIL as sender and the addresses as `to`. */
  function BroadcastArgs(cfg: Config, pairs: seq<(Text, Text)>, subject: Text, body: Text): MessageArgs {
    MessageArgs(cfg.subjectPrefix.GetOr("[Flask] ") + subject, body,
                SenderAddress(cfg.serverEmail.GetOr("root@localhost")), Some(Addresses(pairs)),
                None, None, None, None, None, None, None, None, None, None, None)
  }

  /** The message mail_admins or mail_managers sends, after the html
      alternative, if any, was attached. */
  function BroadcastMessage(cfg: Config, pairs: seq<(Text, Text)>, subject: Text, body: Text, html: Option<Text>,
                            msgId: Text): MessageValue {
    var m := Construct(BroadcastArgs(cfg, pairs, subject, body), cfg, msgId);
    if html.Some? && html.value != [] then m.(alternatives := m.alternatives + [Alternative(html.value, "text/html")])
    else m
  }

  /** The broadcast message: its subject is the prefix ('[Flask] ' by
      default) and the subject; it goes to the second element of each
      configured pair, in order, and to no one else; a non-empty html
      message is its one alternative, of type text/html. */
  lemma BroadcastShape(cfg: Config, pairs: seq<(Text, Text)>, subject: Text, body: Text, html: Option<Text>,
                       msgId: Text)
    ensures var m := BroadcastMessage(cfg, pairs, subject, body, html, msgId);
      m.subject == cfg.subjectPrefix.GetOr("[Flask] ") + subject && m.body == body &&
      |m.to| == |pairs| && (forall i :: 0 <= i < |pairs| ==> m.to[i] == pairs[i].1) &&
      m.cc == [] && m.bcc == [] &&
      (pairs != [] <==> AllRecipients(m) != []) &&
      m.fromEmail == ResolveSender(SenderAddress(cfg.serverEmail.GetOr("root@localhost")), cfg) &&
      m.alternatives == (if html.Some? && html.value != [] then [Alternative(html.value, "text/html")] else []) &&
      m.extraHeaders == [] && m.attachments == []
  {
    var m := BroadcastMessage(cfg, pairs, subject, body, html, msgId);
    assert AllRecipients(m) == m.to + [] + [];
    assert [] + [Alternative(html.GetOr([]), "text/html")] == [Alternative(html.GetOr([]), "text/html")];
  }

  /** mail_admins and mail_managers, reading the configuration of the
      application init_app was given: nothing is built or sent when the
      list is absent or empty; otherwise the broadcast message goes through
      send(), whose count is discarded. `fail_silently` reaches send(),
      which does not use it. */
  method Broadcast(b: Backend, w: World, audience: Audience, subject: Text, body: Text, failSilently: bool,
                   html: Option<Text>, msgId: Text) returns (r: Result<()>, ghost mail: Option<EmailMessage>)
    modifies Footprint(b)
    ensures Listed(w.cfg, audience).None? || Listed(w.cfg, audience).value == [] ==>
      r == Ok(()) && mail.None? && StateOf(b) == old(StateOf(b))
    ensures Listed(w.cfg, audience).Some? && Listed(w.cfg, audience).value != [] ==>
      var sent := BroadcastMessage(w.cfg, Listed(w.cfg, audience).value, subject, body, html, msgId);
      mail.Some? && fresh(mail.value) && mail.value.Value() == sent &&
      var t := Transition(w, old(StateOf(b)), [sent], [mail.value]);
      StateOf(b) == t.1 && (t.0.Raised? <==> r.Raised?) && (r.Raised? ==> t.0 == Raised(r.error))
  {
    var pairs := Listed(w.cfg, audience);
    if pairs.None? || pairs.value == [] {
      mail := None;
      return Ok(()), mail;
    }
    var m := new EmailMessage(BroadcastArgs(w.cfg, pairs.value, subject, body), w.cfg, msgId);
    if html.Some? && html.value != [] {
      var attached := m.AttachAlternative(html, Some("text/html"));
    }
    mail := Some(m);
    BroadcastShape(w.cfg, pairs.value, subject, body, html, msgId);
    var sent := SendEmail(m, Some(b), w, failSilently);
    r := if sent.Raised? then Raised(sent.error) else Ok(());
  }

  /** The names base.py binds at module level: its imports and the class.
      `app` is not one of them, and it is not a builtin either. */
  const BaseGlobals: set<Text> := {"contextmanager", "email_dispatched", "EmailMessage", "SafeMIMEText",
    "SafeMIMEMultipart", "DEFAULT_ATTACHMENT_MIME_TYPE", "make_msgid", "forbid_multi_line_headers",
    "BadHeaderError", "BaseMail"}

  /** mail_admins and mail_managers as written: the first statement reads
      the global `app`, looked up among `globals`; when it is unbound, as
      in base.py, NameError is raised before anything is built or sent. */
  method BroadcastAsWritten(b: Backend, w: World, globals: set<Text>, audience: Audience, subject: Text, body: Text,
                            failSilently: bool, html: Option<Text>, msgId: Text) returns (r: Result<()>)
    modifies Footprint(b)
    ensures "app" !in globals ==> r == Raised(NameError("app")) && StateOf(b) == old(StateOf(b))
    ensures "app" in globals && (Listed(w.cfg, audience).None? || Listed(w.cfg, audience).value == []) ==>
      r == Ok(()) && StateOf(b) == old(StateOf(b))
  {
    if "app" !in globals { return Raised(NameError("app")); }
    ghost var mail;
    r, mail := Broadcast(b, w, audience, subject, body, failSilently, html, msgId);
  }

  /** base.py binds no global named `app`, by import or otherwise. */
  lemma AppUnboundInBase()
    ensures "app" !in BaseGlobals
  {
  }

  /** mail_admins and mail_managers with base.py's own globals: every call
      raises NameError and changes nothing, whatever the configuration. */
  method BroadcastInBase(b: Backend, w: World, audience: Audience, subject: Text, body: Text, failSilently: bool,
                         html: Option<Text>, msgId: Text) returns (r: Result<()>)
    modifies Footprint(b)
    ensures r == Raised(NameError("app"))
    ensures StateOf(b) == old(StateOf(b))
  {
    AppUnboundInBase();
    r := BroadcastAsWritten(b, w, BaseGlobals, audience, subject, body, failSilently, html, msgId);
  }
}
