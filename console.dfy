/** flask_email/backends/console.py: the backend that writes every message
    to a stream instead of sending it. `as_string()` (the MIME generator)
    is not modelled: it is the `asString` argument. */
module ConsoleBackend {
  import opened Outcomes
  import opened AppConfig
  import opened Traversal
  import opened HeaderGuard
  import opened Message
  import opened BaseMail

  /** `'-' * 79`. */
  const Separator: Text := seq(79, _ => '-')

  /** What is written for one message: its text and a line break, the
      separator, and a line break. */
  function Block(asString: Document -> Text, d: Document): (r: Text)
    ensures |r| == |asString(d)| + 81
    ensures r[..|asString(d)|] == asString(d)
    ensures r[|asString(d)|] == '\n' && r[|r| - 1] == '\n'
    ensures forall i :: |asString(d)| < i < |r| - 1 ==> r[i] == '-'
  {
    asString(d) + "\n" + Separator + "\n"
  }

  /** Writing `a`, then `b`, then `c` leaves the text of writing `a`, then
      `b + c`. */
  lemma AppendAssoc(a: Text, b: Text, c: Text)
    ensures (a + b) + c == a + (b + c)
  {
  }

  /** The blocks of a list of rendered messages, in order. */
  function Blocks(asString: Document -> Text, ds: seq<Document>): (r: Text)
    ensures |r| == Sum(asString, ds) + 81 * |ds|
    decreases |ds|
  {
    if ds == [] then [] else Blocks(asString, ds[..|ds| - 1]) + Block(asString, ds[|ds| - 1])
  }

  /** The total length of the texts of a list of rendered messages. */
  function Sum(asString: Document -> Text, ds: seq<Document>): nat
    decreases |ds|
  {
    if ds == [] then 0 else Sum(asString, ds[..|ds| - 1]) + |asString(ds[|ds| - 1])|
  }

  /** The loop of send_messages: the text written, message by message, up
      to the first message whose rendering raises, and that exception. */
  function Output(render: MessageValue -> Result<Document>, asString: Document -> Text, vs: seq<MessageValue>)
    : (r: (Text, Option<Error>))
    decreases |vs|
  {
    if vs == [] then ([], None)
    else
      var (t, err) := Output(render, asString, vs[..|vs| - 1]);
      if err.Some? then (t, err)
      else
        match render(vs[|vs| - 1])
        case Raised(e) => (t, Some(e))
        case Ok(d) => (t + Block(asString, d), None)
  }

  /** The loop writes every message exactly when every message renders,
      and then the stream receives their blocks in batch order; otherwise
      it ends with the first exception message() raises. OutputPrefix says
      what was written by then. */
  lemma {:induction false} OutputIsRenderedBlocks(render: MessageValue -> Result<Document>,
                                                  asString: Document -> Text, vs: seq<MessageValue>)
    ensures var (t, err) := Output(render, asString, vs);
      match Traverse(vs, render)
      case Ok(ds) => err.None? && t == Blocks(asString, ds)
      case Raised(e) => err == Some(e)
    decreases |vs|
  {
    if vs != [] {
      var init := vs[..|vs| - 1];
      OutputIsRenderedBlocks(render, asString, init);
    }
  }

  /** One more turn of the loop after `vs[..i]` was written without an
      exception. */
  lemma OutputSnoc(render: MessageValue -> Result<Document>, asString: Document -> Text,
                   vs: seq<MessageValue>, i: nat)
    requires i < |vs| && Output(render, asString, vs[..i]).1.None?
    ensures var t := Output(render, asString, vs[..i]).0;
      match render(vs[i])
      case Ok(d) => Output(render, asString, vs[..i + 1]) == (t + Block(asString, d), None)
      case Raised(e) => Output(render, asString, vs) == (t, Some(e))
  {
    assert vs[..i + 1][..i] == vs[..i];
    if render(vs[i]).Raised? {
      OutputPrefix(render, asString, vs, i + 1);
    }
  }

  /** The written text only grows: what a failed batch wrote is a prefix
      of what the whole batch would have written. */
  lemma {:induction false} OutputPrefix(render: MessageValue -> Result<Document>, asString: Document -> Text,
                                        vs: seq<MessageValue>, k: nat)
    requires k <= |vs|
    ensures Output(render, asString, vs[..k]).1.None? ==>
      Output(render, asString, vs[..k]).0 <= Output(render, asString, vs).0
    ensures Output(render, asString, vs[..k]).1.Some? ==>
      Output(render, asString, vs) == Output(render, asString, vs[..k])
    decreases |vs| - k
  {
    if k < |vs| {
      var init := vs[..|vs| - 1];
      assert init[..k] == vs[..k];
      OutputPrefix(render, asString, init, k);
    } else {
      assert vs[..k] == vs;
    }
  }

  /** What send_messages returns: None for an empty batch, otherwise the
      batch's length, even when the loop raised and fail_silently swallowed
      the exception; the exception itself when fail_silently is off. */
  function Returned(render: MessageValue -> Result<Document>, asString: Document -> Text,
                    failSilently: bool, vs: seq<MessageValue>): (r: Result<Option<nat>>)
    ensures vs == [] ==> r == Ok(None)
    ensures vs != [] && r.Ok? ==> r.value == Some(|vs|)
    ensures r.Raised? <==> vs != [] && !failSilently && Output(render, asString, vs).1.Some?
    ensures r.Raised? ==> Output(render, asString, vs).1 == Some(r.error)
  {
    if vs == [] then Ok(None)
    else
      match Output(render, asString, vs).1
      case Some(e) => if failSilently then Ok(Some(|vs|)) else Raised(e)
      case None => Ok(Some(|vs|))
  }

  /** The stream given as `stream=`: what was written, and how much of it
      was flushed. */
  class Stream {
    var text: Text
    var flushed: nat

    constructor ()
      ensures text == [] && flushed == 0
    {
      text := [];
      flushed := 0;
    }

    method Write(t: Text)
      modifies this
      ensures text == old(text) + t && flushed == old(flushed)
    {
      text := text + t;
    }

    method Flush()
      modifies this
      ensures text == old(text) && flushed == |text|
    {
      flushed := |text|;
    }
  }

  /** The console backend. `held` counts the acquisitions of its
      reentrant lock. */
  class Mail {
    var failSilently: bool
    var debug: nat
    var held: nat
    const stream: Stream

    /** A mail object after init_app(app, stream=...), which stores the stream. */
    constructor (stream: Stream, cfg: Config, appDebug: bool, debugArg: bool, failSilentlyArg: Option<bool>)
      ensures this.stream == stream && held == 0
      ensures failSilently == FailSilently(failSilentlyArg, cfg) && debug == DebugLevel(appDebug, debugArg)
    {
      this.stream := stream;
      held := 0;
      failSilently := FailSilently(failSilentlyArg, cfg);
      debug := DebugLevel(appDebug, debugArg);
    }

    /** open(), inherited: it opens nothing and returns None. */
    method Open() returns (r: Option<bool>)
      ensures r.None?
    {
      r := None;
    }

    /** close(), inherited: it does nothing. */
    method Close()
    {
    }

    /** The loop of send_messages, inside its `try`. */
    method WriteAll(lib: Library, cfg: Config, asString: Document -> Text, ms: seq<EmailMessage>)
      returns (r: Option<Error>)
      modifies stream
      ensures r == Output(RenderStep(lib, cfg), asString, old(Values(ms))).1
      ensures stream.text == old(stream.text) + Output(RenderStep(lib, cfg), asString, old(Values(ms))).0
      ensures stream.text == old(stream.text) || stream.flushed == |stream.text|
      ensures stream.text == old(stream.text) ==> stream.flushed == old(stream.flushed)
    {
      ghost var vs := Values(ms);
      ghost var render := RenderStep(lib, cfg);
      var i := 0;
      while i < |ms|
        invariant 0 <= i <= |ms|
        invariant Output(render, asString, vs[..i]).1.None?
        invariant stream.text == old(stream.text) + Output(render, asString, vs[..i]).0
        invariant stream.text == old(stream.text) || stream.flushed == |stream.text|
        invariant stream.text == old(stream.text) ==> stream.flushed == old(stream.flushed)
      {
        var doc := ms[i].Message(lib, cfg);
        OutputSnoc(render, asString, vs, i);
        if doc.Raised? { return Some(doc.error); }
        ghost var written := Output(render, asString, vs[..i]).0;
        var line := asString(doc.value) + "\n";
        stream.Write(line);
        stream.Write(Separator);
        stream.Write("\n");
        stream.Flush();
        AppendAssoc(old(stream.text) + written, line, Separator);
        AppendAssoc(old(stream.text) + written, line + Separator, "\n");
        AppendAssoc(old(stream.text), written, Block(asString, doc.value));
        i := i + 1;
      }
      assert vs[..i] == vs;
      r := None;
    }

    /** send_messages: an empty batch writes nothing and returns None;
        otherwise the batch's length, even when an exception was swallowed
        under fail_silently. The lock is released on every path. */
    method SendMessages(lib: Library, cfg: Config, asString: Document -> Text, ms: seq<EmailMessage>)
      returns (r: Result<Option<nat>>)
      modifies this, stream
      ensures r == Returned(RenderStep(lib, cfg), asString, old(failSilently), old(Values(ms)))
      ensures stream.text == old(stream.text) + Output(RenderStep(lib, cfg), asString, old(Values(ms))).0
      ensures stream.text == old(stream.text) || stream.flushed == |stream.text|
      ensures stream.text == old(stream.text) ==> stream.flushed == old(stream.flushed)
      ensures held == old(held) && failSilently == old(failSilently) && debug == old(debug)
    {
      if ms == [] { return Ok(None); }
      ghost var out := Output(RenderStep(lib, cfg), asString, Values(ms));
      held := held + 1;
      var created := Open();
      var err := WriteAll(lib, cfg, asString, ms);
      assert err == out.1 && stream.text == old(stream.text) + out.0;
      assert ms != [];
      if err.None? && created == Some(true) { Close(); }
      held := held - 1;
      if err.Some? && !failSilently { return Raised(err.value); }
      r := Ok(Some(|ms|));
    }
  }
}
