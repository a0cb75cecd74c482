/** The parts of flask_email/backends/base.py every backend shares: the
    settings init_app reads, and the `email_dispatched` signal with the
    record_messages context manager. The operations that go through a
    backend's send_messages (send, send_mass_mail, mail_admins,
    mail_managers) are in module Mailer. */
module BaseMail {
  import opened Outcomes
  import opened AppConfig
  import opened Message

  /** `fail_silently` after init_app: the argument when it is given,
      otherwise MAIL_FAIL_SILENTLY, otherwise False. */
  function FailSilently(arg: Option<bool>, cfg: Config): bool {
    if arg.Some? then arg.value else cfg.mailFailSilently.GetOr(false)
  }

  /** `int(app.debug and debug)`. */
  function DebugLevel(appDebug: bool, debug: bool): nat {
    if appDebug && debug then 1 else 0
  }

  /** An explicit argument wins over the configuration, and with neither
      errors are not swallowed; debugging needs both switches. */
  lemma SettingsPrecedence(arg: Option<bool>, cfg: Config, appDebug: bool, debug: bool)
    ensures arg.Some? ==> FailSilently(arg, cfg) == arg.value
    ensures arg.None? && cfg.mailFailSilently.Some? ==> FailSilently(arg, cfg) == cfg.mailFailSilently.value
    ensures arg.None? && cfg.mailFailSilently.None? ==> !FailSilently(arg, cfg)
    ensures DebugLevel(appDebug, debug) == 1 <==> appDebug && debug
  {
  }

  /** The `email_dispatched` signal: every message sent through it, in
      order, and the record_messages blocks connected to it. */
  class Signal {
    var log: seq<EmailMessage>
    var receivers: set<Recording>

    constructor ()
      ensures log == [] && receivers == {}
    {
      log := [];
      receivers := {};
    }

    /** `email_dispatched.send(message)`: each connected `_record` sees the
        message once, at the end of its outbox. */
    method Send(m: EmailMessage)
      modifies this
      ensures log == old(log) + [m]
      ensures receivers == old(receivers)
      ensures forall rec :: rec in receivers && rec.signal == this && rec.start <= |old(log)| ==>
        rec.Outbox() == old(rec.Outbox()) + [m]
    {
      log := log + [m];
      forall rec | rec in receivers && rec.signal == this && rec.start <= |old(log)|
        ensures rec.Outbox() == old(rec.Outbox()) + [m]
      {
        OutboxGrows(old(log), rec.start, [m]);
      }
    }
  }

  /** One `with mail.record_messages() as outbox:` block. Its outbox is
      what the signal carried since the block was entered. */
  class Recording {
    const signal: Signal
    const start: nat

    /** Entering the block connects `_record` and starts an empty outbox. */
    constructor (signal: Signal)
      modifies signal
      ensures this.signal == signal && start == |signal.log|
      ensures signal.log == old(signal.log)
      ensures signal.receivers == old(signal.receivers) + {this}
      ensures Outbox() == []
    {
      this.signal := signal;
      start := |signal.log|;
      new;
      signal.receivers := signal.receivers + {this};
    }

    /** The outbox while the block runs. */
    function Outbox(): seq<EmailMessage>
      reads signal
      requires start <= |signal.log|
    {
      signal.log[start..]
    }

    /** Leaving the block, on a normal exit or an exception alike:
        `_record` is disconnected and the outbox keeps what it has. */
    method Stop() returns (outbox: seq<EmailMessage>)
      requires start <= |signal.log|
      modifies signal
      ensures outbox == old(Outbox())
      ensures signal.log == old(signal.log)
      ensures signal.receivers == old(signal.receivers) - {this}
    {
      outbox := Outbox();
      signal.receivers := signal.receivers - {this};
    }
  }

  /** Appending to the log appends to every outbox slice of it. */
  lemma OutboxGrows(log: seq<EmailMessage>, start: nat, sent: seq<EmailMessage>)
    requires start <= |log|
    ensures (log + sent)[start..] == log[start..] + sent
  {
  }

  /** A `with record_messages() as outbox:` block around one dispatch:
      the outbox holds exactly that message, and the receiver is gone
      afterwards. */
  method RecordOne(signal: Signal, m: EmailMessage) returns (outbox: seq<EmailMessage>)
    modifies signal
    ensures outbox == [m]
    ensures signal.log == old(signal.log) + [m]
    ensures signal.receivers == old(signal.receivers)
  {
    var rec := new Recording(signal);
    signal.Send(m);
    outbox := rec.Stop();
  }
}
