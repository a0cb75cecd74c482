/** flask_email/backends/dummy.py: the backend that sends nothing. */
module DummyBackend {
  import opened Outcomes
  import opened AppConfig
  import opened Message
  import opened BaseMail

  class Mail {
    var failSilently: bool
    var debug: nat

    /** Mail(app): the inherited init_app. */
    constructor (cfg: Config, appDebug: bool, debugArg: bool, failSilentlyArg: Option<bool>)
      ensures failSilently == FailSilently(failSilentlyArg, cfg) && debug == DebugLevel(appDebug, debugArg)
    {
      failSilently := FailSilently(failSilentlyArg, cfg);
      debug := DebugLevel(appDebug, debugArg);
    }

    /** send_messages: the batch's length, 0 for an empty batch; nothing
        is rendered, so no header is checked, and nothing changes. */
    method SendMessages(ms: seq<EmailMessage>) returns (r: Result<Option<nat>>)
      ensures r == Ok(Some(|ms|))
    {
      r := Ok(Some(|ms|));
    }
  }
}
