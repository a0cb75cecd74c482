/** flask_email/backends/smtp.py: the backend that holds one SMTP session
    in its `connection` attribute.

    smtplib is not modelled: the server and the network during one call
    are a `Network` value that says whether connecting, starttls, login
    and quit succeed and which messages sendmail accepts. */
module SmtpBackend {
  import opened Outcomes
  import opened AppConfig
  import opened HeaderGuard
  import opened Message
  import opened BaseMail

  /** The session smtplib returned: SMTP or SMTP_SSL to host and port. */
  datatype Session = Session(host: Option<Text>, port: int, ssl: bool)

  /** What `quit()` does. */
  datatype QuitOutcome = QuitOk | QuitSslError | QuitFailed

  /** The arguments of sendmail: the sender and the recipient list. */
  datatype Envelope = Envelope(sender: Mailbox, recipients: seq<Mailbox>)

  /** The server during one call. */
  datatype Network = Network(
    connects: bool,                         // SMTP(...) or SMTP_SSL(...) returns
    starttls: bool,                         // ehlo, starttls, ehlo succeed
    login: bool,                            // login(username, password) succeeds
    quit: QuitOutcome,
    accepts: (Envelope, Document) -> bool)  // sendmail(...) returns

  /** The attributes init_app sets. */
  datatype Settings = Settings(
    host: Option<Text>,
    port: int,
    username: Option<Text>,
    password: Option<Text>,
    useTls: bool,
    useSsl: bool,
    failSilently: bool)

  predicate Truthy(t: Option<Text>) {
    t.Some? && t.value != []
  }

  /** init_app: `host or MAIL_HOST or MAIL_SERVER`, `port or MAIL_PORT`
      (25 when unset), and the other settings from their argument when it
      is not None, else from the configuration. */
  function InitSettings(cfg: Config, host: Option<Text>, port: Option<int>, username: Option<Text>,
                        password: Option<Text>, useTls: Option<bool>, useSsl: Option<bool>,
                        failSilently: Option<bool>): Settings
  {
    Settings(
      if Truthy(host) then host else if Truthy(cfg.mailHost) then cfg.mailHost else cfg.mailServer,
      if port.Some? && port.value != 0 then port.value else cfg.mailPort.GetOr(25),
      if username.Some? then username else cfg.mailUsername,
      if password.Some? then password else cfg.mailPassword,
      if useTls.Some? then useTls.value else cfg.mailUseTls.GetOr(false),
      if useSsl.Some? then useSsl.value else cfg.mailUseSsl.GetOr(false),
      FailSilently(failSilently, cfg))
  }

  /** Mail(app) calls init_app(app) with no other argument: everything
      comes from the configuration, with port 25 and plain SMTP by
      default. */
  lemma SettingsFromConfig(cfg: Config)
    ensures var s := InitSettings(cfg, None, None, None, None, None, None, None);
      (cfg.mailPort.None? ==> s.port == 25) &&
      (cfg.mailUseSsl.None? ==> !s.useSsl) && (cfg.mailUseTls.None? ==> !s.useTls) &&
      (Truthy(cfg.mailHost) ==> s.host == cfg.mailHost) &&
      (!Truthy(cfg.mailHost) ==> s.host == cfg.mailServer) &&
      s.username == cfg.mailUsername && s.password == cfg.mailPassword
  {
  }

  function NewSession(s: Settings): Session {
    Session(s.host, s.port, s.useSsl)
  }

  /** open() logs in only when both credentials are non-empty. */
  predicate Credentials(s: Settings) {
    Truthy(s.username) && Truthy(s.password)
  }

  /** The steps after SMTP() returned succeed: starttls when use_tls is on,
      login when there are credentials. */
  predicate Handshake(s: Settings, net: Network) {
    (s.useTls ==> net.starttls) && (Credentials(s) ==> net.login)
  }

  /** The bare `except:` of open(): None under fail_silently, the error
      otherwise. */
  function OpenFailure(s: Settings): Result<Option<bool>> {
    if s.failSilently then Ok(None) else Raised(TransportError)
  }

  /** open() as written, with the connection afterwards: a failure in
      starttls or login happens after `self.connection` was assigned and
      leaves the session there. */
  function OpenOutcomeAsWritten(s: Settings, conn: Option<Session>, net: Network): (Result<Option<bool>>, Option<Session>) {
    if conn.Some? then (Ok(Some(false)), conn)
    else if !net.connects then (OpenFailure(s), None)
    else if !Handshake(s, net) then (OpenFailure(s), Some(NewSession(s)))
    else (Ok(Some(true)), Some(NewSession(s)))
  }

  /** open(), with a failed open leaving no connection behind. */
  function OpenOutcome(s: Settings, conn: Option<Session>, net: Network): (r: (Result<Option<bool>>, Option<Session>))
    ensures conn.Some? ==> r == (Ok(Some(false)), conn)
    ensures conn.None? ==> (r.0 == Ok(Some(true)) <==> net.connects && Handshake(s, net))
    ensures conn.None? ==> (r.1.Some? <==> r.0 == Ok(Some(true)))
    ensures r.0 == Ok(Some(true)) ==> r.1 == Some(NewSession(s))
    ensures r.0.Raised? ==> !s.failSilently && r.0.error == TransportError
    ensures r.0 == Ok(None) ==> s.failSilently
    ensures conn.None? && !s.failSilently ==> r.0.Ok? == (net.connects && Handshake(s, net))
  {
    if conn.None? && net.connects && !Handshake(s, net) then (OpenFailure(s), None)
    else OpenOutcomeAsWritten(s, conn, net)
  }

  /** With use_tls on and a failing starttls, open() as written reports a
      silent failure but keeps the session, so send_messages' check
      `if not self.connection` passes and the batch goes out over it. */
  lemma HalfOpenSessionAsWritten(s: Settings, net: Network)
    requires s.failSilently && s.useTls && net.connects && !net.starttls
    ensures OpenOutcomeAsWritten(s, None, net) == (Ok(None), Some(NewSession(s)))
    ensures OpenOutcome(s, None, net) == (Ok(None), None)
  {
  }

  /** With fail_silently off, a starttls or login failure as written
      raises but still keeps the session, so the next open() reports it
      already open; the corrected open() stores nothing. */
  lemma FailedHandshakeKeptAsWritten(s: Settings, net: Network)
    requires !s.failSilently && net.connects && !Handshake(s, net)
    ensures OpenOutcomeAsWritten(s, None, net) == (Raised(TransportError), Some(NewSession(s)))
    ensures OpenOutcomeAsWritten(s, Some(NewSession(s)), net) == (Ok(Some(false)), Some(NewSession(s)))
    ensures OpenOutcome(s, None, net) == (Raised(TransportError), None)
  {
  }

  /** close(): quitting may raise an SSL error on a TLS session, which is
      answered by closing the socket; any other failure, and calling it
      with no connection at all, raises unless fail_silently. The
      connection is None afterwards in every case. */
  function CloseOutcome(failSilently: bool, conn: Option<Session>, net: Network): (r: Result<()>)
    ensures failSilently ==> r == Ok(())
    ensures r.Raised? <==> !failSilently && (conn.None? || net.quit == QuitFailed)
    ensures r.Raised? && conn.Some? ==> r.error == TransportError
  {
    if conn.None? then (if failSilently then Ok(()) else Raised(NoConnectionError))
    else
      match net.quit
      case QuitOk => Ok(())
      case QuitSslError => Ok(())
      case QuitFailed => if failSilently then Ok(()) else Raised(TransportError)
  }

  /** The sanitized sender and recipients _send hands to sendmail. */
  function EnvelopeOf(lib: Library, m: MessageValue, sender: Text): Envelope {
    var rs := Recipients(m);
    Envelope(SanitizeAddress(lib, Unparsed(sender), m.encoding),
             seq(|rs|, i requires 0 <= i < |rs| => SanitizeAddress(lib, Unparsed(rs[i]), m.encoding)))
  }

  /** _send: False without rendering or contacting the server when nobody
      is addressed or `to` is empty; no sender raises (sanitize_address
      unpacks None); rendering may raise; a refused sendmail is False under
      fail_silently and raises otherwise. */
  function SendOne(lib: Library, cfg: Config, net: Network, failSilently: bool, m: MessageValue): (r: Result<bool>)
    ensures m.to == [] ==> r == Ok(false)
    ensures r == Ok(true) <==>
      m.to != [] && m.fromEmail.Some? && Render(lib, m, cfg).Ok? &&
      net.accepts(EnvelopeOf(lib, m, m.fromEmail.value), Render(lib, m, cfg).value)
    ensures r.Raised? && failSilently ==> m.fromEmail.None? || Render(lib, m, cfg).Raised?
    ensures r.Raised? && m.fromEmail.Some? && Render(lib, m, cfg).Ok? ==> r.error == TransportError
    ensures (m.to != [] && m.fromEmail.Some? && Render(lib, m, cfg).Ok? &&
             !net.accepts(EnvelopeOf(lib, m, m.fromEmail.value), Render(lib, m, cfg).value)) ==>
      r == (if failSilently then Ok(false) else Raised(TransportError))
  {
    RecipientsEmpty(m);
    if Recipients(m) == [] then Ok(false)
    else if m.to == [] then Ok(false)
    else if m.fromEmail.None? then Raised(SenderTypeError)
    else
      match Render(lib, m, cfg)
      case Raised(e) => Raised(e)
      case Ok(doc) =>
        if net.accepts(EnvelopeOf(lib, m, m.fromEmail.value), doc) then Ok(true)
        else if failSilently then Ok(false)
        else Raised(TransportError)
  }

  /** _send as a step of the loop over a batch. */
  function SendStep(lib: Library, cfg: Config, net: Network, failSilently: bool): MessageValue -> Result<bool> {
    (m: MessageValue) => SendOne(lib, cfg, net, failSilently, m)
  }

  /** The loop of send_messages over a batch `ms` whose attributes are
      `vs`, with `step` sending one message: the messages sent, in batch
      order, and the exception that stopped the loop, if any. */
  function Dispatched(step: MessageValue -> Result<bool>, vs: seq<MessageValue>, ms: seq<EmailMessage>)
    : (r: (seq<EmailMessage>, Option<Error>))
    requires |vs| == |ms|
    ensures |r.0| <= |ms|
    decreases |ms|
  {
    if ms == [] then ([], None)
    else
      var (sent, err) := Dispatched(step, vs[..|vs| - 1], ms[..|ms| - 1]);
      if err.Some? then (sent, err)
      else
        match step(vs[|vs| - 1])
        case Raised(e) => (sent, Some(e))
        case Ok(b) => (if b then sent + [ms[|ms| - 1]] else sent, None)
  }

  /** Once the loop has stopped at an exception, later messages change
      nothing. */
  lemma {:induction false} DispatchedStops(step: MessageValue -> Result<bool>, vs: seq<MessageValue>,
                                           ms: seq<EmailMessage>, k: nat)
    requires |vs| == |ms| && k <= |ms| && Dispatched(step, vs[..k], ms[..k]).1.Some?
    ensures Dispatched(step, vs, ms) == Dispatched(step, vs[..k], ms[..k])
    decreases |ms| - k
  {
    if k < |ms| {
      var vinit, init := vs[..|vs| - 1], ms[..|ms| - 1];
      assert vinit[..k] == vs[..k] && init[..k] == ms[..k];
      DispatchedStops(step, vinit, init, k);
      assert Dispatched(step, vinit, init).1.Some?;
    } else {
      assert vs[..k] == vs && ms[..k] == ms;
    }
  }

  /** One more turn of the loop after `ms[..i]` went through without an
      exception. */
  lemma DispatchedSnoc(step: MessageValue -> Result<bool>, vs: seq<MessageValue>, ms: seq<EmailMessage>, i: nat)
    requires |vs| == |ms| && i < |ms| && Dispatched(step, vs[..i], ms[..i]).1.None?
    ensures var sent := Dispatched(step, vs[..i], ms[..i]).0;
      match step(vs[i])
      case Ok(b) => Dispatched(step, vs[..i + 1], ms[..i + 1]) == (if b then sent + [ms[i]] else sent, None)
      case Raised(e) => Dispatched(step, vs, ms) == (sent, Some(e))
  {
    assert vs[..i + 1][..i] == vs[..i] && ms[..i + 1][..i] == ms[..i];
    if step(vs[i]).Raised? {
      DispatchedStops(step, vs, ms, i + 1);
    }
  }

  /** A batch of one: sent when the step returns True, stopped by its
      exception. */
  lemma DispatchedSingle(step: MessageValue -> Result<bool>, v: MessageValue, m: EmailMessage)
    ensures Dispatched(step, [v], [m]) == match step(v)
                                          case Ok(b) => (if b then [m] else [], None)
                                          case Raised(e) => ([], Some(e))
  {
    assert [v][..0] == [] && [m][..0] == [];
    assert [] + [m] == [m];
  }

  /** Every message the loop sent is one of the batch, for which the step
      returned True. */
  lemma {:induction false} DispatchedAccepted(step: MessageValue -> Result<bool>, vs: seq<MessageValue>,
                                              ms: seq<EmailMessage>)
    requires |vs| == |ms|
    ensures forall x :: x in Dispatched(step, vs, ms).0 ==>
      exists i :: 0 <= i < |ms| && ms[i] == x && step(vs[i]) == Ok(true)
    decreases |ms|
  {
    if ms != [] {
      var vinit, init := vs[..|vs| - 1], ms[..|ms| - 1];
      DispatchedAccepted(step, vinit, init);
      forall x | x in Dispatched(step, vinit, init).0
        ensures exists i :: 0 <= i < |ms| && ms[i] == x && step(vs[i]) == Ok(true)
      {
        var i :| 0 <= i < |init| && init[i] == x && step(vinit[i]) == Ok(true);
        assert ms[i] == x && vs[i] == vinit[i];
      }
    }
  }

  /** How many messages of `vs` the step reports as sent. */
  function AcceptedCount(step: MessageValue -> Result<bool>, vs: seq<MessageValue>): nat
    decreases |vs|
  {
    if vs == [] then 0
    else AcceptedCount(step, vs[..|vs| - 1]) + (if step(vs[|vs| - 1]) == Ok(true) then 1 else 0)
  }

  /** The loop runs to the end exactly when no `_send` raises, and then it
      counts every message for which `_send` returned True. */
  lemma {:induction false} DispatchedCounts(step: MessageValue -> Result<bool>, vs: seq<MessageValue>,
                                            ms: seq<EmailMessage>)
    requires |vs| == |ms|
    ensures Dispatched(step, vs, ms).1.None? <==> forall i :: 0 <= i < |vs| ==> step(vs[i]).Ok?
    ensures Dispatched(step, vs, ms).1.None? ==> |Dispatched(step, vs, ms).0| == AcceptedCount(step, vs)
    decreases |ms|
  {
    if ms != [] {
      var vinit, init := vs[..|vs| - 1], ms[..|ms| - 1];
      DispatchedCounts(step, vinit, init);
      assert forall i :: 0 <= i < |vinit| ==> vinit[i] == vs[i];
    }
  }

  /** The first `_send` that raises ends the loop with its exception,
      having counted every earlier message for which `_send` returned
      True. */
  lemma DispatchedFirstError(step: MessageValue -> Result<bool>, vs: seq<MessageValue>, ms: seq<EmailMessage>,
                             k: nat)
    requires |vs| == |ms| && k < |vs| && step(vs[k]).Raised?
    requires forall i :: 0 <= i < k ==> step(vs[i]).Ok?
    ensures Dispatched(step, vs, ms).1 == Some(step(vs[k]).error)
    ensures |Dispatched(step, vs, ms).0| == AcceptedCount(step, vs[..k])
  {
    assert forall i :: 0 <= i < |vs[..k]| ==> vs[..k][i] == vs[i];
    DispatchedCounts(step, vs[..k], ms[..k]);
    DispatchedSnoc(step, vs, ms, k);
  }

  /** What one call of send_messages returns, which connection it leaves
      and which messages it sent. */
  datatype Outcome = Outcome(result: Result<Option<nat>>, connection: Option<Session>, sent: seq<EmailMessage>)

  /** send_messages after open() returned `start`: None when open failed
      silently and left no connection; otherwise the loop, which counts the
      messages sent, then close() only when this call opened the session.
      An exception from _send leaves before close(). */
  function AfterOpen(lib: Library, cfg: Config, net: Network, s: Settings,
                     start: (Result<Option<bool>>, Option<Session>), vs: seq<MessageValue>,
                     ms: seq<EmailMessage>): Outcome
    requires |vs| == |ms|
  {
    var (o, c) := start;
    if o.Raised? then Outcome(Raised(o.error), c, [])
    else if c.None? then Outcome(Ok(None), c, [])
    else
      var (sent, err) := Dispatched(SendStep(lib, cfg, net, s.failSilently), vs, ms);
      if err.Some? then Outcome(Raised(err.value), c, sent)
      else if o.value == Some(true) then
        match CloseOutcome(s.failSilently, c, net)
        case Raised(e) => Outcome(Raised(e), None, sent)
        case Ok(_) => Outcome(Ok(Some(|sent|)), None, sent)
      else Outcome(Ok(Some(|sent|)), c, sent)
  }

  /** send_messages on a batch `ms` whose attributes are `vs`: an empty
      batch returns None and opens nothing. */
  function SendBatch(lib: Library, cfg: Config, net: Network, s: Settings, conn: Option<Session>,
                     vs: seq<MessageValue>, ms: seq<EmailMessage>): Outcome
    requires |vs| == |ms|
  {
    if ms == [] then Outcome(Ok(None), conn, []) else AfterOpen(lib, cfg, net, s, OpenOutcome(s, conn, net), vs, ms)
  }

  /** send_messages with open() as written. */
  function SendBatchAsWritten(lib: Library, cfg: Config, net: Network, s: Settings, conn: Option<Session>,
                              vs: seq<MessageValue>, ms: seq<EmailMessage>): Outcome
    requires |vs| == |ms|
  {
    if ms == [] then Outcome(Ok(None), conn, [])
    else AfterOpen(lib, cfg, net, s, OpenOutcomeAsWritten(s, conn, net), vs, ms)
  }

  /** The count send_messages returns is the number of messages sent, at
      most the batch; every message sent was accepted by the server. */
  lemma SendBatchCounts(lib: Library, cfg: Config, net: Network, s: Settings, conn: Option<Session>,
                        ms: seq<EmailMessage>)
    ensures var o := SendBatch(lib, cfg, net, s, conn, Values(ms), ms);
      (o.result.Ok? && o.result.value.Some? ==> o.result.value.value == |o.sent| <= |ms|) &&
      (forall x :: x in o.sent ==> x in ms && SendOne(lib, cfg, net, s.failSilently, x.Value()) == Ok(true))
  {
    var vs := Values(ms);
    DispatchedAccepted(SendStep(lib, cfg, net, s.failSilently), vs, ms);
    forall x | x in SendBatch(lib, cfg, net, s, conn, vs, ms).sent
      ensures x in ms && SendOne(lib, cfg, net, s.failSilently, x.Value()) == Ok(true)
    {
      var i :| 0 <= i < |ms| && ms[i] == x && SendStep(lib, cfg, net, s.failSilently)(vs[i]) == Ok(true);
    }
  }

  /** Connection accounting: an empty batch or a session that was already
      open is left as it was; a session this call opened is closed again
      when the call returns normally, but a `_send` that raises leaves it
      open, since the exception skips close(); an open() that failed
      silently sends nothing. */
  lemma ConnectionAccounting(lib: Library, cfg: Config, net: Network, s: Settings, conn: Option<Session>,
                             vs: seq<MessageValue>, ms: seq<EmailMessage>)
    requires |vs| == |ms|
    ensures var o := SendBatch(lib, cfg, net, s, conn, vs, ms);
      (ms == [] ==> o == Outcome(Ok(None), conn, [])) &&
      (conn.Some? ==> o.connection == conn) &&
      (conn.None? && o.result.Ok? ==> o.connection.None?) &&
      (o.result == Ok(None) ==> o.sent == []) &&
      (conn.None? && ms != [] && OpenOutcome(s, None, net).0 == Ok(Some(true)) &&
       Dispatched(SendStep(lib, cfg, net, s.failSilently), vs, ms).1.Some? ==>
         o.result.Raised? && o.connection == Some(NewSession(s)))
  {
  }

  /** The half-open session of open() as written is used: the message goes
      out although open() reported a silent failure, and the session stays
      open afterwards. The corrected open() sends nothing. */
  lemma HalfOpenSessionSendsAsWritten(lib: Library, cfg: Config, net: Network, s: Settings, m: EmailMessage)
    requires s.failSilently && s.useTls && net.connects && !net.starttls
    requires SendOne(lib, cfg, net, s.failSilently, m.Value()) == Ok(true)
    ensures SendBatchAsWritten(lib, cfg, net, s, None, [m.Value()], [m]) == Outcome(Ok(Some(1)), Some(NewSession(s)), [m])
    ensures SendBatch(lib, cfg, net, s, None, [m.Value()], [m]) == Outcome(Ok(None), None, [])
  {
    var vs := [m.Value()];
    assert vs[..0] == [] && [m][..0] == [];
    assert Dispatched(SendStep(lib, cfg, net, s.failSilently), [], []) == ([], None);
    assert [] + [m] == [m];
    assert Dispatched(SendStep(lib, cfg, net, s.failSilently), vs, [m]) == ([m], None);
  }

  /** The SMTP backend. `connection` is the only state that changes after
      init_app. */
  class Mail {
    var failSilently: bool
    var debug: nat
    var host: Option<Text>
    var port: int
    var username: Option<Text>
    var password: Option<Text>
    var useTls: bool
    var useSsl: bool
    var connection: Option<Session>
    const signal: Signal

    function CurrentSettings(): Settings
      reads this
    {
      Settings(host, port, username, password, useTls, useSsl, failSilently)
    }

    /** Mail(app): init_app(app) with every setting from the
        configuration. */
    constructor (signal: Signal, cfg: Config, appDebug: bool)
      ensures CurrentSettings() == InitSettings(cfg, None, None, None, None, None, None, None)
      ensures debug == 0 && connection.None? && this.signal == signal
    {
      var s := InitSettings(cfg, None, None, None, None, None, None, None);
      failSilently := s.failSilently;
      debug := DebugLevel(appDebug, false);
      host := s.host;
      port := s.port;
      username := s.username;
      password := s.password;
      useTls := s.useTls;
      useSsl := s.useSsl;
      connection := None;
      this.signal := signal;
    }

    /** init_app(app, host, port, ...): the settings, and no connection. */
    method InitApp(cfg: Config, appDebug: bool, debugArg: bool, failSilentlyArg: Option<bool>,
                   hostArg: Option<Text>, portArg: Option<int>, usernameArg: Option<Text>,
                   passwordArg: Option<Text>, useTlsArg: Option<bool>, useSslArg: Option<bool>)
      modifies this
      ensures CurrentSettings() == InitSettings(cfg, hostArg, portArg, usernameArg, passwordArg, useTlsArg, useSslArg,
                                         failSilentlyArg)
      ensures debug == DebugLevel(appDebug, debugArg) && connection.None?
    {
      var s := InitSettings(cfg, hostArg, portArg, usernameArg, passwordArg, useTlsArg, useSslArg, failSilentlyArg);
      failSilently := s.failSilently;
      debug := DebugLevel(appDebug, debugArg);
      host := s.host;
      port := s.port;
      username := s.username;
      password := s.password;
      useTls := s.useTls;
      useSsl := s.useSsl;
      connection := None;
    }

    /** open(). */
    method Open(net: Network) returns (r: Result<Option<bool>>)
      modifies this
      ensures (r, connection) == OpenOutcome(CurrentSettings(), old(connection), net)
      ensures CurrentSettings() == old(CurrentSettings()) && debug == old(debug)
    {
      if connection.Some? { return Ok(Some(false)); }
      if !net.connects { return OpenFailure(CurrentSettings()); }
      var session := Session(host, port, useSsl);
      if (useTls && !net.starttls) || (Truthy(username) && Truthy(password) && !net.login) {
        return OpenFailure(CurrentSettings());
      }
      connection := Some(session);
      r := Ok(Some(true));
    }

    /** close(). */
    method Close(net: Network) returns (r: Result<()>)
      modifies this
      ensures r == CloseOutcome(failSilently, old(connection), net)
      ensures connection.None?
      ensures CurrentSettings() == old(CurrentSettings()) && debug == old(debug)
    {
      if connection.None? {
        r := if failSilently then Ok(()) else Raised(NoConnectionError);
      } else if net.quit == QuitFailed && !failSilently {
        r := Raised(TransportError);
      } else {
        r := Ok(());
      }
      connection := None;
    }

    /** _send, over an open connection; the dispatch signal fires after the
        server accepted the message and only then. */
    method Send(lib: Library, cfg: Config, net: Network, m: EmailMessage) returns (r: Result<bool>)
      requires connection.Some?
      modifies signal
      ensures r == SendOne(lib, cfg, net, failSilently, m.Value())
      ensures signal.log == old(signal.log) + (if r == Ok(true) then [m] else [])
      ensures signal.receivers == old(signal.receivers)
    {
      if Recipients(m.Value()) == [] { return Ok(false); }
      if m.to == [] { return Ok(false); }
      if m.fromEmail.None? { return Raised(SenderTypeError); }
      var envelope := EnvelopeOf(lib, m.Value(), m.fromEmail.value);
      var doc := m.Message(lib, cfg);
      if doc.Raised? { return Raised(doc.error); }
      if !net.accepts(envelope, doc.value) {
        if !failSilently { return Raised(TransportError); }
        return Ok(false);
      }
      signal.Send(m);
      r := Ok(true);
    }

    /** One turn of the counting loop: _send on the next message of the
        batch, as the loop function accounts for it. */
    method SendNext(lib: Library, cfg: Config, net: Network, ghost vs: seq<MessageValue>, ms: seq<EmailMessage>,
                    i: nat, ghost sent: seq<EmailMessage>) returns (ok: Result<bool>)
      requires connection.Some? && |vs| == |ms| && i < |ms| && vs[i] == ms[i].Value()
      requires Dispatched(SendStep(lib, cfg, net, failSilently), vs[..i], ms[..i]) == (sent, None)
      modifies signal
      ensures ok.Ok? ==> Dispatched(SendStep(lib, cfg, net, failSilently), vs[..i + 1], ms[..i + 1])
                         == (if ok.value then sent + [ms[i]] else sent, None)
      ensures ok.Raised? ==> Dispatched(SendStep(lib, cfg, net, failSilently), vs, ms) == (sent, Some(ok.error))
      ensures signal.log == old(signal.log) + (if ok == Ok(true) then [ms[i]] else [])
      ensures signal.receivers == old(signal.receivers)
    {
      DispatchedSnoc(SendStep(lib, cfg, net, failSilently), vs, ms, i);
      ok := Send(lib, cfg, net, ms[i]);
    }

    /** The counting loop of send_messages over an open connection. */
    method SendAll(lib: Library, cfg: Config, net: Network, ms: seq<EmailMessage>) returns (r: Result<nat>)
      requires connection.Some?
      modifies signal
      ensures var d := Dispatched(SendStep(lib, cfg, net, failSilently), old(Values(ms)), ms);
        signal.log == old(signal.log) + d.0 && r == (if d.1.None? then Ok(|d.0|) else Raised(d.1.value))
      ensures signal.receivers == old(signal.receivers)
    {
      ghost var vs := Values(ms);
      var numSent := 0;
      ghost var sent: seq<EmailMessage> := [];
      var i := 0;
      while i < |ms|
        invariant 0 <= i <= |ms|
        invariant Dispatched(SendStep(lib, cfg, net, failSilently), vs[..i], ms[..i]) == (sent, None)
        invariant numSent == |sent|
        invariant signal.log == old(signal.log) + sent
        invariant signal.receivers == old(signal.receivers)
      {
        var ok := SendNext(lib, cfg, net, vs, ms, i, sent);
        if ok.Raised? { return Raised(ok.error); }
        if ok.value {
          numSent := numSent + 1;
          sent := sent + [ms[i]];
        }
        i := i + 1;
      }
      assert vs[..i] == vs && ms[..i] == ms;
      r := Ok(numSent);
    }

    /** send_messages. */
    method SendMessages(lib: Library, cfg: Config, net: Network, ms: seq<EmailMessage>)
      returns (r: Result<Option<nat>>)
      modifies this, signal
      ensures var o := SendBatch(lib, cfg, net, old(CurrentSettings()), old(connection), old(Values(ms)), ms);
        r == o.result && connection == o.connection && signal.log == old(signal.log) + o.sent
      ensures CurrentSettings() == old(CurrentSettings()) && debug == old(debug)
      ensures signal.receivers == old(signal.receivers)
    {
      if ms == [] { return Ok(None); }
      ghost var vs := Values(ms);
      var created := Open(net);
      if created.Raised? { return Raised(created.error); }
      if connection.None? { return Ok(None); }
      assert Values(ms) == vs;
      var sent := SendAll(lib, cfg, net, ms);
      if sent.Raised? { return Raised(sent.error); }
      if created.value == Some(true) {
        var closed := Close(net);
        if closed.Raised? { return Raised(closed.error); }
      }
      r := Ok(Some(sent.value));
    }
  }
}
