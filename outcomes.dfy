/** Exceptions the core raises, and the value-or-exception type every
    operation that may raise returns. */
module Outcomes {

  type Text = seq<char>

  datatype Option<+T> = None | Some(value: T) {
    function GetOr(default: T): T {
      match this
      case Some(v) => v
      case None => default
    }
  }

  /** The exceptions that reach a caller of the core. */
  datatype Error =
    | BadHeaderError(name: Text, value: Text)  // a header value holding CR or LF
    | MimeTypeError(mimetype: Text)            // `mimetype.split('/', 1)` found no '/'
    | AssertionError                           // a failed `assert` on arguments
    | SenderTypeError                          // sanitize_address given no sender at all
    | GuessTypeError                           // mimetypes.guess_type(None)
    | ArgumentError                            // one argument bound twice by a call
    | NameError(name: Text)                    // a global name that was never bound
    | TransportError                           // connect, login, sendmail or quit failed
    | NoConnectionError                        // a method called on a connection that is None
    | MissingOutboxError                       // the shared outbox was never created

  /** Either the value an operation returned or the exception it raised. */
  datatype Result<+T> = Ok(value: T) | Raised(error: Error)
}

/** Applying a fallible step to every element of a list, stopping at the
    first exception: the shape of every loop in the core that builds a list
    and lets an exception escape. */
module Traversal {
  import opened Outcomes

  /** Defined on the last element, so that a loop which has handled
      `xs[..i]` extends it by one step. */
  function Traverse<A, B>(xs: seq<A>, f: A -> Result<B>): Result<seq<B>>
    decreases |xs|
  {
    if xs == [] then Ok([])
    else
      match Traverse(xs[..|xs| - 1], f)
      case Raised(e) => Raised(e)
      case Ok(ys) =>
        match f(xs[|xs| - 1])
        case Raised(e) => Raised(e)
        case Ok(y) => Ok(ys + [y])
  }

  /** Succeeds exactly when every step succeeds, and then holds each
      step's value at that step's position. */
  lemma {:induction false} TraverseOk<A, B>(xs: seq<A>, f: A -> Result<B>)
    ensures Traverse(xs, f).Ok? <==> forall i :: 0 <= i < |xs| ==> f(xs[i]).Ok?
    ensures Traverse(xs, f).Ok? ==>
      |Traverse(xs, f).value| == |xs| &&
      forall i :: 0 <= i < |xs| ==> Traverse(xs, f).value[i] == f(xs[i]).value
    decreases |xs|
  {
    if xs != [] {
      var init := xs[..|xs| - 1];
      TraverseOk(init, f);
      assert forall i :: 0 <= i < |init| ==> init[i] == xs[i];
    }
  }

  /** Once a prefix has raised, nothing after it is attempted. */
  lemma {:induction false} TraverseStopsAtError<A, B>(xs: seq<A>, ys: seq<A>, f: A -> Result<B>)
    requires Traverse(xs, f).Raised?
    ensures Traverse(xs + ys, f) == Traverse(xs, f)
    decreases |ys|
  {
    if ys != [] {
      var ys' := ys[..|ys| - 1];
      assert (xs + ys)[..|xs + ys| - 1] == xs + ys';
      TraverseStopsAtError(xs, ys', f);
    } else {
      assert xs + ys == xs;
    }
  }

  /** One more step of a loop that has handled `xs[..i]`: its value is
      appended, or its exception is the result for the whole list. */
  lemma TraverseSnoc<A, B>(xs: seq<A>, i: nat, f: A -> Result<B>, ys: seq<B>)
    requires i < |xs| && Traverse(xs[..i], f) == Ok(ys)
    ensures f(xs[i]).Ok? ==> Traverse(xs[..i + 1], f) == Ok(ys + [f(xs[i]).value])
    ensures f(xs[i]).Raised? ==> Traverse(xs, f) == Raised(f(xs[i]).error)
  {
    assert xs[..i + 1][..i] == xs[..i];
    if f(xs[i]).Raised? {
      TraverseStopsAtError(xs[..i + 1], xs[i + 1..], f);
      assert xs[..i + 1] + xs[i + 1..] == xs;
    }
  }

  /** The exception raised is the one of the first step that fails. */
  lemma {:induction false} TraverseFirstError<A, B>(xs: seq<A>, f: A -> Result<B>, k: nat)
    requires k < |xs| && f(xs[k]).Raised?
    requires forall i :: 0 <= i < k ==> f(xs[i]).Ok?
    ensures Traverse(xs, f) == Raised(f(xs[k]).error)
  {
    var pre := xs[..k];
    assert forall i :: 0 <= i < |pre| ==> pre[i] == xs[i];
    TraverseOk(pre, f);
    assert xs[..k + 1][..k] == pre;
    assert Traverse(xs[..k + 1], f) == Raised(f(xs[k]).error);
    TraverseStopsAtError(xs[..k + 1], xs[k + 1..], f);
    assert xs[..k + 1] + xs[k + 1..] == xs;
  }
}

/** The application's configuration, read through `app.config.get(key,
    default)`: `None` stands for a key that is not set. */
module AppConfig {
  import opened Outcomes

  datatype Config = Config(
    defaultCharset: Option<Text>,            // DEFAULT_CHARSET
    defaultFromEmail: Option<Text>,          // DEFAULT_FROM_EMAIL
    mailFailSilently: Option<bool>,          // MAIL_FAIL_SILENTLY
    admins: Option<seq<(Text, Text)>>,       // ADMINS, (name, address) pairs
    managers: Option<seq<(Text, Text)>>,     // MANAGERS, (name, address) pairs
    subjectPrefix: Option<Text>,             // MAIL_EMAIL_SUBJECT_PREFIX
    serverEmail: Option<Text>,               // SERVER_EMAIL
    mailHost: Option<Text>,                  // MAIL_HOST
    mailServer: Option<Text>,                // MAIL_SERVER
    mailPort: Option<int>,                   // MAIL_PORT
    mailUsername: Option<Text>,              // MAIL_USERNAME
    mailPassword: Option<Text>,              // MAIL_PASSWORD
    mailUseTls: Option<bool>,                // MAIL_USE_TLS
    mailUseSsl: Option<bool>)                // MAIL_USE_SSL
}
