/** flask_email/backends/locmem.py: the backend for test sessions, which
    keeps every message it is given in an outbox shared by all its
    instances, the `outbox` attribute of the `flask_email.mail` module. */
module LocmemBackend {
  import opened Outcomes
  import opened AppConfig
  import opened Traversal
  import opened HeaderGuard
  import opened Message
  import opened BaseMail

  /** The `flask_email.mail` module: its `outbox` attribute, None until
      some init_app creates it. */
  class Package {
    var outbox: Option<seq<EmailMessage>>

    constructor ()
      ensures outbox.None?
    {
      outbox := None;
    }
  }

  /** send_messages on a batch `ms` whose attributes are `vs`, given the
      shared outbox before the call: what it returns and the outbox it
      leaves. Every message is rendered first; the first exception leaves
      the outbox as it was. */
  function Delivered(render: MessageValue -> Result<Document>, outbox: Option<seq<EmailMessage>>,
                     vs: seq<MessageValue>, ms: seq<EmailMessage>): (Result<Option<nat>>, Option<seq<EmailMessage>>)
  {
    match Traverse(vs, render)
    case Raised(e) => (Raised(e), outbox)
    case Ok(_) =>
      if outbox.None? then (Raised(MissingOutboxError), outbox)
      else (Ok(Some(|ms|)), Some(outbox.value + ms))
  }

  /** All or nothing: the batch is added, as the message objects themselves
      in batch order, exactly when every message renders (and so passes the
      header guard) and the outbox exists; the count is then the batch's
      length, 0 for an empty batch. Otherwise the outbox is unchanged and
      the exception is the first message's that raised. */
  lemma {:induction false} DeliveredAllOrNothing(render: MessageValue -> Result<Document>,
                                                 outbox: Option<seq<EmailMessage>>, vs: seq<MessageValue>,
                                                 ms: seq<EmailMessage>)
    ensures var (r, after) := Delivered(render, outbox, vs, ms);
      (r.Ok? <==> outbox.Some? && forall i :: 0 <= i < |vs| ==> render(vs[i]).Ok?) &&
      (r.Ok? ==> r.value == Some(|ms|) && after == Some(outbox.value + ms)) &&
      (r.Raised? ==> after == outbox) &&
      (forall k :: 0 <= k < |vs| && render(vs[k]).Raised? && (forall i :: 0 <= i < k ==> render(vs[i]).Ok?) ==>
         r == Raised(render(vs[k]).error))
  {
    TraverseOk(vs, render);
    forall k | 0 <= k < |vs| && render(vs[k]).Raised? && (forall i :: 0 <= i < k ==> render(vs[i]).Ok?)
      ensures Traverse(vs, render) == Raised(render(vs[k]).error)
    {
      TraverseFirstError(vs, render, k);
    }
  }

  /** The local-memory backend. */
  class Mail {
    var failSilently: bool
    var debug: nat
    const package: Package

    /** Mail(app): init_app, which creates the shared outbox only when it
        does not exist yet and never empties one that does. */
    constructor (package: Package, cfg: Config, appDebug: bool, debugArg: bool, failSilentlyArg: Option<bool>)
      modifies package
      ensures this.package == package
      ensures failSilently == FailSilently(failSilentlyArg, cfg) && debug == DebugLevel(appDebug, debugArg)
      ensures package.outbox == if old(package.outbox).None? then Some([]) else old(package.outbox)
    {
      this.package := package;
      failSilently := FailSilently(failSilentlyArg, cfg);
      debug := DebugLevel(appDebug, debugArg);
      new;
      if package.outbox.None? {
        package.outbox := Some([]);
      }
    }

    /** A later init_app on the same instance: the same rules. */
    method InitApp(cfg: Config, appDebug: bool, debugArg: bool, failSilentlyArg: Option<bool>)
      modifies this, package
      ensures failSilently == FailSilently(failSilentlyArg, cfg) && debug == DebugLevel(appDebug, debugArg)
      ensures package.outbox == if old(package.outbox).None? then Some([]) else old(package.outbox)
    {
      failSilently := FailSilently(failSilentlyArg, cfg);
      debug := DebugLevel(appDebug, debugArg);
      if package.outbox.None? {
        package.outbox := Some([]);
      }
    }

    /** send_messages: render every message, then extend the outbox with
        the whole batch. fail_silently is not consulted. */
    method SendMessages(lib: Library, cfg: Config, ms: seq<EmailMessage>) returns (r: Result<Option<nat>>)
      modifies package
      ensures (r, package.outbox) == Delivered(RenderStep(lib, cfg), old(package.outbox), old(Values(ms)), ms)
    {
      ghost var vs := Values(ms);
      ghost var f := RenderStep(lib, cfg);
      ghost var out := Delivered(f, package.outbox, vs, ms);
      ghost var docs: seq<Document> := [];
      var i := 0;
      while i < |ms|
        invariant 0 <= i <= |ms|
        invariant Traverse(vs[..i], f) == Ok(docs)
        invariant package.outbox == old(package.outbox)
      {
        var doc := ms[i].Message(lib, cfg);
        TraverseSnoc(vs, i, f, docs);
        if doc.Raised? { return Raised(doc.error); }
        docs := docs + [doc.value];
        i := i + 1;
      }
      assert vs[..i] == vs;
      if package.outbox.None? { return Raised(MissingOutboxError); }
      package.outbox := Some(package.outbox.value + ms);
      r := Ok(Some(|ms|));
      assert (r, package.outbox) == out;
    }
  }

  /** One message that renders is appended to an existing outbox. */
  lemma DeliveredOne(render: MessageValue -> Result<Document>, outbox: seq<EmailMessage>, v: MessageValue,
                     m: EmailMessage)
    requires render(v).Ok?
    ensures Delivered(render, Some(outbox), [v], [m]) == (Ok(Some(1)), Some(outbox + [m]))
  {
    DeliveredAllOrNothing(render, Some(outbox), [v], [m]);
  }

  /** Two instances on the same package each sending one message that
      renders leave both copies in the one outbox. */
  method SharedOutbox(lib: Library, cfg: Config, first: Mail, second: Mail, m: EmailMessage) returns (n: nat)
    requires first != second && first.package == second.package
    requires first.package.outbox == Some([])
    requires RenderStep(lib, cfg)(m.Value()).Ok?
    modifies first.package
    ensures first.package.outbox == Some([m, m])
    ensures n == 2
  {
    var package := first.package;
    ghost var f := RenderStep(lib, cfg);
    assert Values([m]) == [m.Value()];
    DeliveredOne(f, [], m.Value(), m);
    DeliveredOne(f, [m], m.Value(), m);
    assert [] + [m] == [m];
    var r := first.SendMessages(lib, cfg, [m]);
    assert package.outbox == Some([m]);
    r := second.SendMessages(lib, cfg, [m]);
    assert [m] + [m] == [m, m];
    n := |package.outbox.value|;
  }
}
