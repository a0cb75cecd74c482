/** The message container of flask_email/message.py: EmailMessage (the
    BaseEmailMessage fields with the FlaskEmailMessageCompat behaviour in
    front of them, as the class's method order makes it), the MIME tree
    that message() builds and the ordered list of headers it sets. */
module Message {
  import opened Outcomes
  import opened Traversal
  import opened AppConfig
  import opened HeaderGuard

  /** The nodes of the MIME tree (RFC 2046). */
  datatype Part =
    | TextPart(subtype: Text, content: Text, charset: Text)    // SafeMIMEText
    | Multipart(subtype: Text, parts: seq<Part>)                // SafeMIMEMultipart
    | BasePart(maintype: Text, subtype: Text, content: Text)    // MIMEBase, base64 payload
    | Disposition(part: Part, filename: Text)                   // Content-Disposition: attachment

  /** An entry of `attachments`: a ready MIME part, or the
      (filename, content, mimetype) triple. */
  datatype Attachment =
    | Prebuilt(part: Part)
    | FileAttachment(filename: Option<Text>, content: Text, mimetype: Option<Text>)

  /** An entry of `alternatives`: (content, mimetype). */
  datatype Alternative = Alternative(content: Text, mimetype: Text)

  /** What message() returns: the tree and the headers set on its root. */
  datatype Document = Document(root: Part, headers: seq<Header>)

  /** The attributes of an EmailMessage that message() reads. */
  datatype MessageValue = MessageValue(
    subject: Text,
    body: Text,
    fromEmail: Option<Text>,
    to: seq<Text>,
    cc: seq<Text>,
    bcc: seq<Text>,
    replyTo: Option<Text>,
    attachments: seq<Attachment>,
    alternatives: seq<Alternative>,
    extraHeaders: seq<(Text, Text)>,   // a dict, in its iteration order
    encoding: Text,
    msgId: Text,
    date: Option<real>)

  const ContentSubtype: Text := "plain"
  const MixedSubtype: Text := "mixed"
  const AlternativeSubtype: Text := "alternative"
  const DefaultAttachmentMimeType: Text := "application/octet-stream"

  // ---------------------------------------------------------------------
  // Recipients

  /** BaseEmailMessage.recipients(): to, then cc, then bcc. */
  function AllRecipients(m: MessageValue): seq<Text> {
    m.to + m.cc + m.bcc
  }

  /** The `send_to` property: the set of every address in to, bcc and cc. */
  function SendTo(m: MessageValue): set<Text> {
    (set x | x in m.to) + (set x | x in m.bcc) + (set x | x in m.cc)
  }

  predicate NoDuplicates(s: seq<Text>) {
    forall i, j :: 0 <= i < j < |s| ==> s[i] != s[j]
  }

  /** The elements of `s`, each once, in the order they first appear. */
  function Dedup(s: seq<Text>): (r: seq<Text>)
    ensures NoDuplicates(r)
    ensures forall x :: x in r <==> x in s
    decreases |s|
  {
    if s == [] then []
    else
      var d := Dedup(s[..|s| - 1]);
      if s[|s| - 1] in d then d else d + [s[|s| - 1]]
  }

  /** The recipients() of EmailMessage: `list(self.send_to)`. A Python set
      has no specified order; this model lists each address at its first
      appearance in to, bcc, cc. */
  function Recipients(m: MessageValue): seq<Text> {
    Dedup(m.to + m.bcc + m.cc)
  }

  lemma {:induction false} DistinctCard(s: seq<Text>)
    requires NoDuplicates(s)
    ensures |set x | x in s| == |s|
    decreases |s|
  {
    if s != [] {
      var init := s[..|s| - 1];
      DistinctCard(init);
      assert (set x | x in s) == (set x | x in init) + {s[|s| - 1]};
      assert s[|s| - 1] !in init;
    }
  }

  /** The emptiness test of send() on recipients() agrees with to+cc+bcc. */
  lemma RecipientsEmpty(m: MessageValue)
    ensures Recipients(m) == [] <==> AllRecipients(m) == []
  {
    RecipientsAreSendTo(m);
  }

  /** EmailMessage.recipients() lists every address of send_to exactly once,
      and is empty exactly when BaseEmailMessage.recipients() is. */
  lemma RecipientsAreSendTo(m: MessageValue)
    ensures NoDuplicates(Recipients(m))
    ensures forall x :: x in Recipients(m) <==> x in SendTo(m)
    ensures |Recipients(m)| == |SendTo(m)|
    ensures forall x :: x in Recipients(m) <==> x in AllRecipients(m)
    ensures Recipients(m) == [] <==> AllRecipients(m) == []
  {
    var r := Recipients(m);
    DistinctCard(r);
    assert (set x | x in r) == SendTo(m);
    if AllRecipients(m) != [] {
      assert AllRecipients(m)[0] in r;
    }
  }

  // ---------------------------------------------------------------------
  // MIME tree

  /** The (maintype, subtype) of `mimetype.split('/', 1)`. */
  function MainType(mimetype: Text): Text
    requires '/' in mimetype
  {
    SplitFirst(mimetype, '/').value.0
  }

  function SubType(mimetype: Text): Text
    requires '/' in mimetype
  {
    SplitFirst(mimetype, '/').value.1
  }

  /** _create_mime_attachment: a text part for the text main type, a base64 MIMEBase
      part otherwise; a mimetype without '/' cannot be unpacked. */
  function CreateMimeAttachment(content: Text, mimetype: Text, encoding: Text, cfg: Config): (r: Result<Part>)
    ensures r.Raised? <==> '/' !in mimetype
    ensures r.Raised? ==> r.error == MimeTypeError(mimetype)
    ensures r.Ok? ==>
      mimetype == MainType(mimetype) + "/" + SubType(mimetype) && '/' !in MainType(mimetype)
    ensures r.Ok? && MainType(mimetype) == "text" ==>
      r.value == TextPart(SubType(mimetype), content, EffectiveCharset(encoding, cfg))
    ensures r.Ok? && MainType(mimetype) != "text" ==>
      r.value == BasePart(MainType(mimetype), SubType(mimetype), content)
  {
    match SplitFirst(mimetype, '/')
    case None => Raised(MimeTypeError(mimetype))
    case Some(p) =>
      if p.0 == "text" then Ok(TextPart(p.1, content, EffectiveCharset(encoding, cfg)))
      else Ok(BasePart(p.0, p.1, content))
  }

  /** The mime type _create_attachment uses: the given one, else the guess
      from the file name, else application/octet-stream. */
  function AttachmentMimeType(lib: Library, filename: Option<Text>, mimetype: Option<Text>): Text {
    match mimetype
    case Some(t) => t
    case None =>
      match filename
      case Some(f) => lib.guessType(f).GetOr(DefaultAttachmentMimeType)
      case None => DefaultAttachmentMimeType
  }

  /** _create_attachment, with a missing file name treated as "nothing to
      guess from" (see CreateAttachmentAsWritten for the code as written). */
  function CreateAttachment(lib: Library, filename: Option<Text>, content: Text, mimetype: Option<Text>,
                            encoding: Text, cfg: Config): Result<Part>
  {
    match CreateMimeAttachment(content, AttachmentMimeType(lib, filename, mimetype), encoding, cfg)
    case Raised(e) => Raised(e)
    case Ok(p) =>
      if filename.Some? && filename.value != [] then Ok(Disposition(p, filename.value)) else Ok(p)
  }

  /** _create_attachment as written: with neither a file name nor a mime
      type it calls `mimetypes.guess_type(None)`, which raises TypeError. */
  function CreateAttachmentAsWritten(lib: Library, filename: Option<Text>, content: Text, mimetype: Option<Text>,
                                     encoding: Text, cfg: Config): Result<Part>
  {
    if mimetype.None? && filename.None? then Raised(GuessTypeError)
    else CreateAttachment(lib, filename, content, mimetype, encoding, cfg)
  }

  /** An attachment added with content only (`attach(content=...)`, which the
      docstring allows) makes message() fail as written. */
  lemma ContentOnlyAttachmentFailsAsWritten(lib: Library, content: Text, encoding: Text, cfg: Config)
    ensures CreateAttachmentAsWritten(lib, None, content, None, encoding, cfg) == Raised(GuessTypeError)
  {
  }

  /** The fallback chain of the mime type, and the attachment that a
      content-only entry becomes in the corrected definition. */
  lemma {:induction false} AttachmentTypeFallback(lib: Library, filename: Option<Text>, content: Text,
                                                  mimetype: Option<Text>, encoding: Text, cfg: Config)
    ensures mimetype.Some? ==> AttachmentMimeType(lib, filename, mimetype) == mimetype.value
    ensures mimetype.None? && filename.Some? && lib.guessType(filename.value).Some? ==>
      AttachmentMimeType(lib, filename, mimetype) == lib.guessType(filename.value).value
    ensures mimetype.None? && (filename.None? || lib.guessType(filename.value).None?) ==>
      CreateAttachment(lib, filename, content, mimetype, encoding, cfg).Ok? &&
      CreateAttachment(lib, filename, content, mimetype, encoding, cfg).value ==
        (var p := BasePart("application", "octet-stream", content);
         if filename.Some? && filename.value != [] then Disposition(p, filename.value) else p)
  {
    if mimetype.None? && (filename.None? || lib.guessType(filename.value).None?) {
      OctetStreamPart(content, encoding, cfg);
    }
  }

  /** The default type is not a text type: its part is a base64 MIMEBase. */
  lemma OctetStreamPart(content: Text, encoding: Text, cfg: Config)
    ensures CreateMimeAttachment(content, DefaultAttachmentMimeType, encoding, cfg)
         == Ok(BasePart("application", "octet-stream", content))
  {
    assert DefaultAttachmentMimeType == "application" + ['/'] + "octet-stream";
    SplitFirstJoin("application", '/', "octet-stream");
  }

  /** One alternative as the alternatives loop converts it. */
  function AlternativeStep(encoding: Text, cfg: Config): Alternative -> Result<Part> {
    (a: Alternative) => CreateMimeAttachment(a.content, a.mimetype, encoding, cfg)
  }

  /** One attachment as the attachments loop converts it. */
  function AttachmentStep(lib: Library, encoding: Text, cfg: Config): Attachment -> Result<Part> {
    (a: Attachment) => match a
         case Prebuilt(p) => Ok(p)
         case FileAttachment(f, c, t) => CreateAttachment(lib, f, c, t, encoding, cfg)
  }

  /** The body part leads a multipart only when the body is not empty. */
  function BodyFirst(body: Text, p: Part): seq<Part> {
    if body != [] then [p] else []
  }

  /** _create_alternatives. */
  function WithAlternatives(m: MessageValue, cfg: Config, inner: Part): Result<Part> {
    if m.alternatives == [] then Ok(inner)
    else
      match Traverse(m.alternatives, AlternativeStep(m.encoding, cfg))
      case Raised(e) => Raised(e)
      case Ok(ps) => Ok(Multipart(AlternativeSubtype, BodyFirst(m.body, inner) + ps))
  }

  /** _create_attachments. */
  function WithAttachments(lib: Library, m: MessageValue, cfg: Config, inner: Part): Result<Part> {
    if m.attachments == [] then Ok(inner)
    else
      match Traverse(m.attachments, AttachmentStep(lib, m.encoding, cfg))
      case Raised(e) => Raised(e)
      case Ok(ps) => Ok(Multipart(MixedSubtype, BodyFirst(m.body, inner) + ps))
  }

  function BodyPart(m: MessageValue): Part {
    TextPart(ContentSubtype, m.body, m.encoding)
  }

  /** _create_message: alternatives first, then attachments around them. */
  function BodyTree(lib: Library, m: MessageValue, cfg: Config): Result<Part> {
    match WithAlternatives(m, cfg, BodyPart(m))
    case Raised(e) => Raised(e)
    case Ok(inner) => WithAttachments(lib, m, cfg, inner)
  }

  /** The nesting of RFC 2046 sections 5.1.3 and 5.1.4 that message() builds:
      a lone text part; a multipart/alternative of the body (when not empty)
      and the alternatives in order; a multipart/mixed of that (when the body
      is not empty) and the attachments in order. */
  lemma MimeShape(lib: Library, m: MessageValue, cfg: Config)
    ensures m.alternatives == [] && m.attachments == [] ==>
      BodyTree(lib, m, cfg) == Ok(BodyPart(m))
    ensures BodyTree(lib, m, cfg).Ok? && m.alternatives != [] && m.attachments == [] ==>
      var root := BodyTree(lib, m, cfg).value;
      var k := |BodyFirst(m.body, BodyPart(m))|;
      root.Multipart? && root.subtype == "alternative" &&
      |root.parts| == k + |m.alternatives| &&
      (m.body != [] ==> root.parts[0] == BodyPart(m)) &&
      forall j :: 0 <= j < |m.alternatives| ==>
        Ok(root.parts[k + j]) == CreateMimeAttachment(m.alternatives[j].content, m.alternatives[j].mimetype, m.encoding, cfg)
    ensures BodyTree(lib, m, cfg).Ok? && m.attachments != [] ==>
      var root := BodyTree(lib, m, cfg).value;
      var inner := WithAlternatives(m, cfg, BodyPart(m));
      var k := if m.body != [] then 1 else 0;
      inner.Ok? && root.Multipart? && root.subtype == "mixed" &&
      |root.parts| == k + |m.attachments| &&
      (m.body != [] ==> root.parts[0] == inner.value) &&
      forall j :: 0 <= j < |m.attachments| ==>
        Ok(root.parts[k + j]) == AttachmentStep(lib, m.encoding, cfg)(m.attachments[j])
  {
    AlternativesShape(m, cfg, BodyPart(m));
    var inner := WithAlternatives(m, cfg, BodyPart(m));
    if inner.Ok? {
      AttachmentsShape(lib, m, cfg, inner.value);
    }
  }

  /** _create_alternatives around a given inner part. */
  lemma AlternativesShape(m: MessageValue, cfg: Config, inner: Part)
    ensures WithAlternatives(m, cfg, inner).Ok? && m.alternatives != [] ==>
      var root := WithAlternatives(m, cfg, inner).value;
      var k := |BodyFirst(m.body, inner)|;
      root.Multipart? && root.subtype == "alternative" &&
      |root.parts| == k + |m.alternatives| &&
      (m.body != [] ==> root.parts[0] == inner) &&
      forall j :: 0 <= j < |m.alternatives| ==>
        Ok(root.parts[k + j]) == CreateMimeAttachment(m.alternatives[j].content, m.alternatives[j].mimetype, m.encoding, cfg)
  {
    TraverseOk(m.alternatives, AlternativeStep(m.encoding, cfg));
  }

  /** _create_attachments around a given inner part. */
  lemma AttachmentsShape(lib: Library, m: MessageValue, cfg: Config, inner: Part)
    ensures WithAttachments(lib, m, cfg, inner).Ok? && m.attachments != [] ==>
      var root := WithAttachments(lib, m, cfg, inner).value;
      var k := if m.body != [] then 1 else 0;
      root.Multipart? && root.subtype == "mixed" &&
      |root.parts| == k + |m.attachments| &&
      (m.body != [] ==> root.parts[0] == inner) &&
      forall j :: 0 <= j < |m.attachments| ==>
        Ok(root.parts[k + j]) == AttachmentStep(lib, m.encoding, cfg)(m.attachments[j])
  {
    TraverseOk(m.attachments, AttachmentStep(lib, m.encoding, cfg));
  }

  /** The tree fails exactly when an alternative or a file attachment has a
      mime type without '/'. */
  lemma BodyTreeFails(lib: Library, m: MessageValue, cfg: Config)
    ensures BodyTree(lib, m, cfg).Ok? <==>
      (forall j :: 0 <= j < |m.alternatives| ==> '/' in m.alternatives[j].mimetype) &&
      (forall j :: 0 <= j < |m.attachments| ==> m.attachments[j].FileAttachment? ==>
         '/' in AttachmentMimeType(lib, m.attachments[j].filename, m.attachments[j].mimetype))
  {
    var fa := AlternativeStep(m.encoding, cfg);
    var ft := AttachmentStep(lib, m.encoding, cfg);
    TraverseOk(m.alternatives, fa);
    TraverseOk(m.attachments, ft);
    assert (forall j :: 0 <= j < |m.alternatives| ==> fa(m.alternatives[j]).Ok?) <==>
      (forall j :: 0 <= j < |m.alternatives| ==> '/' in m.alternatives[j].mimetype);
  }

  // ---------------------------------------------------------------------
  // Headers

  /** `', '.join(xs)`. */
  function Join(xs: seq<Text>): Text {
    if xs == [] then []
    else if |xs| == 1 then xs[0]
    else Join(xs[..|xs| - 1]) + ", " + xs[|xs| - 1]
  }

  /** `str(v)` of an optional header value: Python's None prints as "None". */
  function Str(v: Option<Text>): Text {
    match v
    case Some(t) => t
    case None => "None"
  }

  /** `dict.get(key)`: an exact, case-sensitive key match. */
  function Lookup(hs: seq<(Text, Text)>, key: Text): Option<Text> {
    if hs == [] then None
    else if hs[0].0 == key then Some(hs[0].1)
    else Lookup(hs[1..], key)
  }

  /** `lname in [key.lower() for key in extra_headers]`. */
  predicate NamedIn(hs: seq<(Text, Text)>, lname: Text)
    decreases |hs|
  {
    hs != [] && (Lower(hs[0].0) == lname || NamedIn(hs[1..], lname))
  }

  lemma {:induction false} NamedInSpec(hs: seq<(Text, Text)>, lname: Text)
    ensures NamedIn(hs, lname) <==> exists i :: 0 <= i < |hs| && Lower(hs[i].0) == lname
    decreases |hs|
  {
    if hs != [] {
      NamedInSpec(hs[1..], lname);
      if NamedIn(hs[1..], lname) {
        var i :| 0 <= i < |hs[1..]| && Lower(hs[1..][i].0) == lname;
        assert Lower(hs[i + 1].0) == lname;
      }
    }
  }

  /** Extra headers other than from and to, whatever their case. */
  predicate KeepExtra(h: (Text, Text)) {
    Lower(h.0) != "from" && Lower(h.0) != "to"
  }

  /** The extra headers that message() copies, in dict order. */
  function Kept(hs: seq<(Text, Text)>): seq<(Text, Text)>
    decreases |hs|
  {
    if hs == [] then []
    else Kept(hs[..|hs| - 1]) + (if KeepExtra(hs[|hs| - 1]) then [hs[|hs| - 1]] else [])
  }

  /** The headers message() sets before the extra ones, one segment per
      assignment (empty when the assignment is skipped). */
  function HeaderSegment(lib: Library, m: MessageValue, j: nat): seq<(Text, Text)>
  {
    match j
    case 0 => [("Subject", m.subject)]
    case 1 => [("From", Lookup(m.extraHeaders, "From").GetOr(Str(m.fromEmail)))]
    case 2 => [("To", Lookup(m.extraHeaders, "To").GetOr(Join(m.to)))]
    case 3 => if m.cc != [] then [("Cc", Join(m.cc))] else []
    case 4 => if m.bcc != [] then [("Bcc", Join(m.bcc))] else []
    case 5 => if m.replyTo.Some? && m.replyTo.value != [] then [("Reply-To", m.replyTo.value)] else []
    case 6 => if !NamedIn(m.extraHeaders, "date") then [("Date", lib.formatdate(m.date))] else []
    case 7 => if !NamedIn(m.extraHeaders, "message-id") then [("Message-ID", m.msgId)] else []
    case _ => []
  }

  /** The first `n` segments. */
  function FixedHeaders(lib: Library, m: MessageValue, n: nat): seq<(Text, Text)>
  {
    if n == 0 then [] else FixedHeaders(lib, m, n - 1) + HeaderSegment(lib, m, n - 1)
  }

  /** Every (name, value) that message() assigns, in assignment order. */
  function HeaderPlan(lib: Library, m: MessageValue): seq<(Text, Text)> {
    FixedHeaders(lib, m, 8) + Kept(m.extraHeaders)
  }

  /** `msg[name] = value` on a SafeMIMEText or SafeMIMEMultipart. */
  function GuardStep(lib: Library, encoding: Text, cfg: Config): ((Text, Text)) -> Result<Header> {
    (h: (Text, Text)) => ForbidMultiLineHeaders(lib, h.0, h.1, encoding, cfg)
  }

  /** message(): the tree first, then every header through the guard. */
  function Render(lib: Library, m: MessageValue, cfg: Config): Result<Document> {
    match BodyTree(lib, m, cfg)
    case Raised(e) => Raised(e)
    case Ok(root) =>
      match Traverse(HeaderPlan(lib, m), GuardStep(lib, m.encoding, cfg))
      case Raised(e) => Raised(e)
      case Ok(hs) => Ok(Document(root, hs))
  }

  lemma {:induction false} KeptSpec(hs: seq<(Text, Text)>)
    ensures forall h :: h in Kept(hs) <==> h in hs && KeepExtra(h)
    ensures |Kept(hs)| <= |hs|
    decreases |hs|
  {
    if hs != [] {
      KeptSpec(hs[..|hs| - 1]);
      assert hs == hs[..|hs| - 1] + [hs[|hs| - 1]];
    }
  }

  lemma KeptSnoc(hs: seq<(Text, Text)>, i: nat)
    requires i < |hs|
    ensures KeepExtra(hs[i]) ==> Kept(hs[..i + 1]) == Kept(hs[..i]) + [hs[i]]
    ensures !KeepExtra(hs[i]) ==> Kept(hs[..i + 1]) == Kept(hs[..i])
  {
    assert hs[..i + 1][..i] == hs[..i];
  }

  lemma {:induction false} KeptAppend(xs: seq<(Text, Text)>, ys: seq<(Text, Text)>)
    ensures Kept(xs + ys) == Kept(xs) + Kept(ys)
    decreases |ys|
  {
    if ys == [] {
      assert xs + ys == xs;
    } else {
      var ys' := ys[..|ys| - 1];
      assert (xs + ys)[..|xs + ys| - 1] == xs + ys';
      KeptAppend(xs, ys');
    }
  }

  lemma FixedHeadersUnfold(lib: Library, m: MessageValue)
    ensures FixedHeaders(lib, m, 8) ==
      HeaderSegment(lib, m, 0) + HeaderSegment(lib, m, 1) + HeaderSegment(lib, m, 2) +
      HeaderSegment(lib, m, 3) + HeaderSegment(lib, m, 4) + HeaderSegment(lib, m, 5) +
      HeaderSegment(lib, m, 6) + HeaderSegment(lib, m, 7)
  {
    assert FixedHeaders(lib, m, 1) == HeaderSegment(lib, m, 0);
    assert FixedHeaders(lib, m, 2) == FixedHeaders(lib, m, 1) + HeaderSegment(lib, m, 1);
    assert FixedHeaders(lib, m, 3) == FixedHeaders(lib, m, 2) + HeaderSegment(lib, m, 2);
    assert FixedHeaders(lib, m, 4) == FixedHeaders(lib, m, 3) + HeaderSegment(lib, m, 3);
    assert FixedHeaders(lib, m, 5) == FixedHeaders(lib, m, 4) + HeaderSegment(lib, m, 4);
    assert FixedHeaders(lib, m, 6) == FixedHeaders(lib, m, 5) + HeaderSegment(lib, m, 5);
    assert FixedHeaders(lib, m, 7) == FixedHeaders(lib, m, 6) + HeaderSegment(lib, m, 6);
  }

  /** The order of the headers: Subject, From, To; Cc, Bcc and Reply-To only
      when set; Date and Message-ID only when no extra header has that name
      in any case; then the extra headers except from and to. */
  lemma HeaderOrder(lib: Library, m: MessageValue)
    ensures var p := HeaderPlan(lib, m);
      var k := |FixedHeaders(lib, m, 8)|;
      |p| >= 3 && p[0] == ("Subject", m.subject) && p[1].0 == "From" && p[2].0 == "To" &&
      k == 3 + (if m.cc != [] then 1 else 0) + (if m.bcc != [] then 1 else 0) +
           (if m.replyTo.Some? && m.replyTo.value != [] then 1 else 0) +
           (if NamedIn(m.extraHeaders, "date") then 0 else 1) +
           (if NamedIn(m.extraHeaders, "message-id") then 0 else 1) &&
      Names(p[..k]) ==
        ["Subject", "From", "To"] + (if m.cc != [] then ["Cc"] else []) + (if m.bcc != [] then ["Bcc"] else []) +
        (if m.replyTo.Some? && m.replyTo.value != [] then ["Reply-To"] else []) +
        (if NamedIn(m.extraHeaders, "date") then [] else ["Date"]) +
        (if NamedIn(m.extraHeaders, "message-id") then [] else ["Message-ID"]) &&
      p[k..] == Kept(m.extraHeaders)
  {
    FixedHeadersUnfold(lib, m);
    FixedHeaderNames(lib, m);
    assert HeaderPlan(lib, m)[..|FixedHeaders(lib, m, 8)|] == FixedHeaders(lib, m, 8);
  }

  /** The names of the fixed assignments, segment by segment. */
  lemma FixedHeaderNames(lib: Library, m: MessageValue)
    ensures Names(FixedHeaders(lib, m, 8)) ==
      ["Subject", "From", "To"] + (if m.cc != [] then ["Cc"] else []) + (if m.bcc != [] then ["Bcc"] else []) +
      (if m.replyTo.Some? && m.replyTo.value != [] then ["Reply-To"] else []) +
      (if NamedIn(m.extraHeaders, "date") then [] else ["Date"]) +
      (if NamedIn(m.extraHeaders, "message-id") then [] else ["Message-ID"])
  {
    FixedNamesSplit(lib, m, 8);
    SegmentNamesUnfold(lib, m);
    SegmentName(lib, m, 0);
    SegmentName(lib, m, 1);
    SegmentName(lib, m, 2);
    SegmentName(lib, m, 3);
    SegmentName(lib, m, 4);
    SegmentName(lib, m, 5);
    SegmentName(lib, m, 6);
    SegmentName(lib, m, 7);
    var c, b, r := m.cc != [], m.bcc != [], m.replyTo.Some? && m.replyTo.value != [];
    var d, i := NamedIn(m.extraHeaders, "date"), NamedIn(m.extraHeaders, "message-id");
    assert Names(FixedHeaders(lib, m, 8)) ==
      ["Subject"] + ["From"] + ["To"] + (if c then ["Cc"] else []) + (if b then ["Bcc"] else []) +
      (if r then ["Reply-To"] else []) + (if d then [] else ["Date"]) + (if i then [] else ["Message-ID"]);
    assert ["Subject"] + ["From"] + ["To"] == ["Subject", "From", "To"];
  }

  lemma SegmentNamesUnfold(lib: Library, m: MessageValue)
    ensures SegmentNames(lib, m, 8) ==
      Names(HeaderSegment(lib, m, 0)) + Names(HeaderSegment(lib, m, 1)) + Names(HeaderSegment(lib, m, 2)) +
      Names(HeaderSegment(lib, m, 3)) + Names(HeaderSegment(lib, m, 4)) + Names(HeaderSegment(lib, m, 5)) +
      Names(HeaderSegment(lib, m, 6)) + Names(HeaderSegment(lib, m, 7))
  {
    assert SegmentNames(lib, m, 1) == Names(HeaderSegment(lib, m, 0));
    assert SegmentNames(lib, m, 2) == SegmentNames(lib, m, 1) + Names(HeaderSegment(lib, m, 1));
    assert SegmentNames(lib, m, 3) == SegmentNames(lib, m, 2) + Names(HeaderSegment(lib, m, 2));
    assert SegmentNames(lib, m, 4) == SegmentNames(lib, m, 3) + Names(HeaderSegment(lib, m, 3));
    assert SegmentNames(lib, m, 5) == SegmentNames(lib, m, 4) + Names(HeaderSegment(lib, m, 4));
    assert SegmentNames(lib, m, 6) == SegmentNames(lib, m, 5) + Names(HeaderSegment(lib, m, 5));
    assert SegmentNames(lib, m, 7) == SegmentNames(lib, m, 6) + Names(HeaderSegment(lib, m, 6));
  }

  lemma SegmentName(lib: Library, m: MessageValue, j: nat)
    requires j < 8
    ensures j == 0 ==> Names(HeaderSegment(lib, m, j)) == ["Subject"]
    ensures j == 1 ==> Names(HeaderSegment(lib, m, j)) == ["From"]
    ensures j == 2 ==> Names(HeaderSegment(lib, m, j)) == ["To"]
    ensures j == 3 ==> Names(HeaderSegment(lib, m, j)) == (if m.cc != [] then ["Cc"] else [])
    ensures j == 4 ==> Names(HeaderSegment(lib, m, j)) == (if m.bcc != [] then ["Bcc"] else [])
    ensures j == 5 ==> Names(HeaderSegment(lib, m, j)) == (if m.replyTo.Some? && m.replyTo.value != [] then ["Reply-To"] else [])
    ensures j == 6 ==> Names(HeaderSegment(lib, m, j)) == (if NamedIn(m.extraHeaders, "date") then [] else ["Date"])
    ensures j == 7 ==> Names(HeaderSegment(lib, m, j)) == (if NamedIn(m.extraHeaders, "message-id") then [] else ["Message-ID"])
  {
  }

  /** The names of the first `n` segments are the segments' names in turn. */
  lemma {:induction false} FixedNamesSplit(lib: Library, m: MessageValue, n: nat)
    ensures Names(FixedHeaders(lib, m, n)) == SegmentNames(lib, m, n)
  {
    if n > 0 {
      FixedNamesSplit(lib, m, n - 1);
      NamesAppend(FixedHeaders(lib, m, n - 1), HeaderSegment(lib, m, n - 1));
    }
  }

  function SegmentNames(lib: Library, m: MessageValue, n: nat): seq<Text> {
    if n == 0 then [] else SegmentNames(lib, m, n - 1) + Names(HeaderSegment(lib, m, n - 1))
  }

  /** The names of a list of (name, value) headers, in order. */
  function Names(hs: seq<(Text, Text)>): seq<Text> {
    seq(|hs|, i requires 0 <= i < |hs| => hs[i].0)
  }

  lemma NamesAppend(xs: seq<(Text, Text)>, ys: seq<(Text, Text)>)
    ensures Names(xs + ys) == Names(xs) + Names(ys)
  {
  }

  lemma FixedNamesLower()
    ensures Lower("Cc") == "cc" && Lower("Bcc") == "bcc" && Lower("Reply-To") == "reply-to"
    ensures Lower("Date") == "date" && Lower("Message-ID") == "message-id"
  {
  }

  /** From and To come from the extra headers when they hold exactly those
      keys; no extra header named from or to in any case is copied again, so
      a lower-case "from" extra header is dropped altogether. */
  lemma FromAndToOnce(lib: Library, m: MessageValue)
    ensures var p := HeaderPlan(lib, m);
      |p| >= 3 &&
      p[1] == ("From", if Lookup(m.extraHeaders, "From").Some? then Lookup(m.extraHeaders, "From").value
                       else Str(m.fromEmail)) &&
      p[2] == ("To", if Lookup(m.extraHeaders, "To").Some? then Lookup(m.extraHeaders, "To").value
                     else Join(m.to)) &&
      forall i :: 3 <= i < |p| ==> Lower(p[i].0) != "from" && Lower(p[i].0) != "to"
  {
    FixedHeadersUnfold(lib, m);
    FixedNamesLower();
    var p := HeaderPlan(lib, m);
    var k := |FixedHeaders(lib, m, 8)|;
    KeptSpec(m.extraHeaders);
    LaterFixedNames(lib, m);
    forall i | 3 <= i < |p|
      ensures Lower(p[i].0) != "from" && Lower(p[i].0) != "to"
    {
      if i >= k {
        assert p[i] == Kept(m.extraHeaders)[i - k];
        assert p[i] in Kept(m.extraHeaders);
      } else {
        assert p[i] == FixedHeaders(lib, m, 8)[i];
        assert KeepExtra(p[i]);
      }
    }
  }

  /** Every fixed assignment after To is kept by the copy loop's own test:
      none of them is named from or to in any case. */
  lemma LaterFixedNames(lib: Library, m: MessageValue)
    ensures var f := FixedHeaders(lib, m, 8);
      |f| >= 3 && forall i :: 3 <= i < |f| ==> KeepExtra(f[i])
  {
    FixedHeadersUnfold(lib, m);
    FixedNamesLower();
    var f := FixedHeaders(lib, m, 8);
    var rest := HeaderSegment(lib, m, 3) + HeaderSegment(lib, m, 4) + HeaderSegment(lib, m, 5) +
                HeaderSegment(lib, m, 6) + HeaderSegment(lib, m, 7);
    assert f == HeaderSegment(lib, m, 0) + HeaderSegment(lib, m, 1) + HeaderSegment(lib, m, 2) + rest;
    assert forall h :: h in rest ==> KeepExtra(h);
    forall i | 3 <= i < |f|
      ensures KeepExtra(f[i])
    {
      assert f[i] == rest[i - 3];
    }
  }

  /** An extra header other than from and to is among the assignments. */
  lemma ExtraHeaderPlanned(lib: Library, m: MessageValue, lname: Text)
    requires NamedIn(m.extraHeaders, lname) && lname != "from" && lname != "to"
    ensures exists i :: 0 <= i < |HeaderPlan(lib, m)| && Lower(HeaderPlan(lib, m)[i].0) == lname
  {
    NamedInSpec(m.extraHeaders, lname);
    var j :| 0 <= j < |m.extraHeaders| && Lower(m.extraHeaders[j].0) == lname;
    KeptSpec(m.extraHeaders);
    assert m.extraHeaders[j] in Kept(m.extraHeaders);
    var i :| 0 <= i < |Kept(m.extraHeaders)| && Kept(m.extraHeaders)[i] == m.extraHeaders[j];
    var fixed := FixedHeaders(lib, m, 8);
    assert HeaderPlan(lib, m)[|fixed| + i] == m.extraHeaders[j];
  }

  /** Every rendered message has a Date and a Message-ID header: its own, or
      the extra header of that name. */
  lemma DateAndMessageIdPresent(lib: Library, m: MessageValue)
    ensures exists i :: 0 <= i < |HeaderPlan(lib, m)| && Lower(HeaderPlan(lib, m)[i].0) == "date"
    ensures exists i :: 0 <= i < |HeaderPlan(lib, m)| && Lower(HeaderPlan(lib, m)[i].0) == "message-id"
  {
    var p := HeaderPlan(lib, m);
    FixedNamesLower();
    assert FixedHeaders(lib, m, 8) ==
      FixedHeaders(lib, m, 6) + HeaderSegment(lib, m, 6) + HeaderSegment(lib, m, 7);
    if NamedIn(m.extraHeaders, "date") {
      ExtraHeaderPlanned(lib, m, "date");
    } else {
      assert p[|FixedHeaders(lib, m, 6)|] == ("Date", lib.formatdate(m.date));
    }
    if NamedIn(m.extraHeaders, "message-id") {
      ExtraHeaderPlanned(lib, m, "message-id");
    } else {
      assert p[|FixedHeaders(lib, m, 7)|] == ("Message-ID", m.msgId);
    }
  }

  /** Header injection: message() succeeds exactly when the tree can be built
      and no assigned value holds CR or LF; then every rendered header is the
      guard's output for the planned one, in order, with no raw line break
      (in the addresses too, given a `getaddresses` that adds none);
      otherwise the first offending header is the one reported. */
  lemma RenderRejectsInjection(lib: Library, m: MessageValue, cfg: Config)
    ensures var p := HeaderPlan(lib, m);
      Render(lib, m, cfg).Ok? <==>
        BodyTree(lib, m, cfg).Ok? && forall i :: 0 <= i < |p| ==> !HasNewline(p[i].1)
    ensures var p := HeaderPlan(lib, m);
      Render(lib, m, cfg).Ok? ==>
        |Render(lib, m, cfg).value.headers| == |p| &&
        forall i :: 0 <= i < |p| ==>
          var h := Render(lib, m, cfg).value.headers[i];
          h.name == p[i].0 && (AddressParserKeepsLines(lib) ==> NoRawNewline(h.value)) &&
          Ok(h) == ForbidMultiLineHeaders(lib, p[i].0, p[i].1, m.encoding, cfg)
    ensures var p := HeaderPlan(lib, m);
      forall k :: (0 <= k < |p| && BodyTree(lib, m, cfg).Ok? && HasNewline(p[k].1) &&
                   (forall i :: 0 <= i < k ==> !HasNewline(p[i].1))) ==>
        Render(lib, m, cfg) == Raised(BadHeaderError(p[k].0, p[k].1))
  {
    var p := HeaderPlan(lib, m);
    var f := GuardStep(lib, m.encoding, cfg);
    TraverseOk(p, f);
    assert (forall i :: 0 <= i < |p| ==> f(p[i]).Ok?) <==> (forall i :: 0 <= i < |p| ==> !HasNewline(p[i].1));
    forall k | 0 <= k < |p| && BodyTree(lib, m, cfg).Ok? && HasNewline(p[k].1) &&
        (forall i :: 0 <= i < k ==> !HasNewline(p[i].1))
      ensures Render(lib, m, cfg) == Raised(BadHeaderError(p[k].0, p[k].1))
    {
      assert forall i :: 0 <= i < k ==> f(p[i]).Ok?;
      TraverseFirstError(p, f, k);
    }
  }

  /** An extra header refused at position `i` ends message() with its error. */
  lemma ExtraRaised(fixed: seq<(Text, Text)>, hs: seq<(Text, Text)>, i: nat, f: ((Text, Text)) -> Result<Header>)
    requires i < |hs| && Traverse(fixed + Kept(hs[..i + 1]), f).Raised?
    ensures Traverse(fixed + Kept(hs), f) == Traverse(fixed + Kept(hs[..i + 1]), f)
  {
    TraverseStopsAtError(fixed + Kept(hs[..i + 1]), Kept(hs[i + 1..]), f);
    KeptAppend(hs[..i + 1], hs[i + 1..]);
    assert hs[..i + 1] + hs[i + 1..] == hs;
    assert fixed + Kept(hs[..i + 1]) + Kept(hs[i + 1..]) == fixed + Kept(hs);
  }

  /** A fixed assignment refused means message() raises its error. */
  lemma PlanRaised(lib: Library, m: MessageValue, cfg: Config, n: nat)
    requires n <= 8
    requires Traverse(FixedHeaders(lib, m, n), GuardStep(lib, m.encoding, cfg)).Raised?
    ensures Traverse(HeaderPlan(lib, m), GuardStep(lib, m.encoding, cfg)) ==
            Traverse(FixedHeaders(lib, m, n), GuardStep(lib, m.encoding, cfg))
  {
    FixedRaised(lib, m, cfg, n, 8);
    TraverseStopsAtError(FixedHeaders(lib, m, 8), Kept(m.extraHeaders), GuardStep(lib, m.encoding, cfg));
  }

  /** A header refused part-way through the fixed assignments ends them
      with that header's error. */
  lemma {:induction false} FixedRaised(lib: Library, m: MessageValue, cfg: Config, n: nat, t: nat)
    requires n <= t
    requires Traverse(FixedHeaders(lib, m, n), GuardStep(lib, m.encoding, cfg)).Raised?
    ensures Traverse(FixedHeaders(lib, m, t), GuardStep(lib, m.encoding, cfg)) ==
            Traverse(FixedHeaders(lib, m, n), GuardStep(lib, m.encoding, cfg))
    decreases t - n
  {
    if n < t {
      TraverseStopsAtError(FixedHeaders(lib, m, n), HeaderSegment(lib, m, n), GuardStep(lib, m.encoding, cfg));
      FixedRaised(lib, m, cfg, n + 1, t);
    }
  }

  // ---------------------------------------------------------------------
  // Construction

  /** The sender argument: absent, an address string, or a (name, address)
      tuple. */
  datatype Sender = NoSender | SenderAddress(address: Text) | SenderPair(name: Text, address: Text)

  /** The keyword arguments of EmailMessage(...). `to`, `cc` and `bcc` are
      lists by their type here, so the source's "not a bare string"
      assertion always holds. */
  datatype MessageArgs = MessageArgs(
    subject: Text,
    body: Text,
    fromEmail: Sender,
    to: Option<seq<Text>>,
    cc: Option<seq<Text>>,
    bcc: Option<seq<Text>>,
    replyTo: Option<Text>,
    attachments: Option<seq<Attachment>>,
    alternatives: Option<seq<Alternative>>,
    extraHeaders: Option<seq<(Text, Text)>>,  // the compat keyword `extra_headers`
    headers: Option<seq<(Text, Text)>>,       // the base keyword `headers`
    charset: Option<Text>,                    // the compat keyword `charset`
    encoding: Option<Text>,                   // the base keyword `encoding`
    html: Option<Text>,
    date: Option<real>)

  /** `from_email or DEFAULT_FROM_EMAIL`, then a tuple becomes "name <addr>". */
  function ResolveSender(s: Sender, cfg: Config): (r: Option<Text>)
    ensures s.SenderPair? ==> r == Some(s.name + " <" + s.address + ">")
    ensures s.SenderAddress? && s.address != [] ==> r == Some(s.address)
    ensures s.NoSender? || (s.SenderAddress? && s.address == []) ==> r == cfg.defaultFromEmail
  {
    match s
    case SenderPair(n, a) => Some(n + " <" + a + ">")
    case SenderAddress(a) => if a != [] then Some(a) else cfg.defaultFromEmail
    case NoSender => cfg.defaultFromEmail
  }

  /** `x or []`. */
  function ListOr<T>(x: Option<seq<T>>): seq<T> {
    match x
    case Some(s) => s
    case None => []
  }

  /** The first of two keyword values that is given and not empty. */
  function Either<T>(a: Option<seq<T>>, b: Option<seq<T>>): Option<seq<T>> {
    if a.Some? && a.value != [] then a else b
  }

  /** The html setter: a non-empty html body is attached as a text/html
      alternative. */
  function HtmlAlternative(html: Option<Text>): seq<Alternative> {
    if html.Some? && html.value != [] then [Alternative(html.value, "text/html")] else []
  }

  /** The attributes after EmailMessage.__init__ as written: the compat
      constructor replaces `encoding` by `charset` and `headers` by
      `extra_headers` even when only the base keyword was given. */
  function ConstructAsWritten(args: MessageArgs, cfg: Config, msgId: Text): MessageValue {
    MessageValue(
      args.subject, args.body, ResolveSender(args.fromEmail, cfg),
      ListOr(args.to), ListOr(args.cc), ListOr(args.bcc), args.replyTo,
      ListOr(args.attachments), ListOr(args.alternatives) + HtmlAlternative(args.html),
      ListOr(args.extraHeaders),
      if args.charset.Some? && args.charset.value != [] then args.charset.value
      else cfg.defaultCharset.GetOr("utf-8"),
      msgId, args.date)
  }

  /** The attributes after EmailMessage.__init__, with `charset` and
      `extra_headers` taken as aliases of the base keywords. */
  function Construct(args: MessageArgs, cfg: Config, msgId: Text): MessageValue {
    var enc := Either(args.charset, args.encoding);
    MessageValue(
      args.subject, args.body, ResolveSender(args.fromEmail, cfg),
      ListOr(args.to), ListOr(args.cc), ListOr(args.bcc), args.replyTo,
      ListOr(args.attachments), ListOr(args.alternatives) + HtmlAlternative(args.html),
      ListOr(Either(args.extraHeaders, args.headers)),
      if enc.Some? && enc.value != [] then enc.value else cfg.defaultCharset.GetOr("utf-8"),
      msgId, args.date)
  }

  /** EmailMessage(..., headers={'From': ...}) as written keeps no extra
      header at all, and `encoding=` is ignored the same way. */
  lemma BaseKeywordsDroppedAsWritten(args: MessageArgs, cfg: Config, msgId: Text)
    requires args.extraHeaders.None? && args.headers.Some? && args.headers.value != []
    requires args.charset.None? && args.encoding.Some? && args.encoding.value != []
    ensures ConstructAsWritten(args, cfg, msgId).extraHeaders == []
    ensures ConstructAsWritten(args, cfg, msgId).encoding == cfg.defaultCharset.GetOr("utf-8")
    ensures Construct(args, cfg, msgId).extraHeaders == args.headers.value
    ensures Construct(args, cfg, msgId).encoding == args.encoding.value
  {
  }

  /** After construction: to, cc and bcc are the given lists or empty; the
      sender falls back to DEFAULT_FROM_EMAIL and a tuple sender is
      formatted; the charset falls back to DEFAULT_CHARSET, then utf-8; an
      html body is the last alternative; either spelling of the extra headers
      and of the charset is kept. */
  lemma ConstructedMessage(args: MessageArgs, cfg: Config, msgId: Text)
    ensures var m := Construct(args, cfg, msgId);
      (args.to.None? ==> m.to == []) && (args.cc.None? ==> m.cc == []) && (args.bcc.None? ==> m.bcc == []) &&
      (args.to.Some? ==> m.to == args.to.value) &&
      (args.fromEmail.SenderPair? ==> m.fromEmail == Some(args.fromEmail.name + " <" + args.fromEmail.address + ">")) &&
      (cfg.defaultCharset.None? || cfg.defaultCharset.value != [] ==> m.encoding != []) &&
      (args.html.Some? && args.html.value != [] ==>
        |m.alternatives| > 0 && m.alternatives[|m.alternatives| - 1] == Alternative(args.html.value, "text/html")) &&
      (args.html.None? ==> m.alternatives == ListOr(args.alternatives)) &&
      (args.extraHeaders.Some? && args.extraHeaders.value != [] ==> m.extraHeaders == args.extraHeaders.value) &&
      (args.extraHeaders.None? && args.headers.Some? ==> m.extraHeaders == args.headers.value)
  {
  }

  // ---------------------------------------------------------------------
  // FlaskEmailMessageCompat.attach

  /** How the `mimetype` parameter of BaseEmailMessage.attach gets bound: a
      third positional argument, or the keyword (outer None: not passed). */
  datatype AttachCall = AttachCall(
    positional: Option<Option<Text>>,
    keyword: Option<Option<Text>>,
    contentType: Option<Option<Text>>)

  /** Python's binding of BaseEmailMessage.attach's own parameter. */
  function BaseMimetypeBinding(positional: Option<Option<Text>>, keyword: Option<Option<Text>>): Result<Option<Text>> {
    if positional.Some? && keyword.Some? then Raised(ArgumentError)
    else if positional.Some? then Ok(positional.value)
    else Ok(keyword.GetOr(None))
  }

  /** FlaskEmailMessageCompat.attach as written:
      `kwargs.setdefault('mimetype', kwargs.pop('content_type', None))` always
      puts a `mimetype` keyword in, so a positional mimetype is bound twice. */
  function CompatMimetypeAsWritten(c: AttachCall): Result<Option<Text>> {
    var kw := if c.keyword.Some? then c.keyword.value else c.contentType.GetOr(None);
    BaseMimetypeBinding(c.positional, Some(kw))
  }

  /** `content_type` as an alias of `mimetype`, positional arguments bound as
      the base method binds them. */
  function CompatMimetype(c: AttachCall): Result<Option<Text>> {
    var kw := if c.keyword.Some? then c.keyword else c.contentType;
    BaseMimetypeBinding(c.positional, kw)
  }

  /** `msg.attach("a.txt", "data", "text/plain")` raises as written. */
  lemma PositionalMimetypeRejectedAsWritten(t: Option<Text>)
    ensures CompatMimetypeAsWritten(AttachCall(Some(t), None, None)) == Raised(ArgumentError)
    ensures BaseMimetypeBinding(Some(t), None) == Ok(t)
  {
  }

  /** The corrected binding accepts every call the base method accepts,
      with the same mimetype, and reads `content_type` when `mimetype` is
      not given. */
  lemma CompatMimetypeAgreesWithBase(c: AttachCall)
    ensures c.contentType.None? ==> CompatMimetype(c) == BaseMimetypeBinding(c.positional, c.keyword)
    ensures c.positional.None? && c.keyword.None? && c.contentType.Some? ==>
      CompatMimetype(c) == Ok(c.contentType.value)
    ensures c.positional.None? ==> CompatMimetype(c) == CompatMimetypeAsWritten(c)
  {
  }

  // ---------------------------------------------------------------------
  // make_msgid

  function DigitChar(d: nat): char
    requires d < 10
  {
    ['0', '1', '2', '3', '4', '5', '6', '7', '8', '9'][d]
  }

  /** `str(n)` of a natural number. */
  function NatText(n: nat): (r: Text)
    ensures |r| >= 1
    ensures forall i :: 0 <= i < |r| ==> '0' <= r[i] <= '9'
  {
    if n < 10 then [DigitChar(n)] else NatText(n / 10) + [DigitChar(n % 10)]
  }

  predicate IsSpace(c: char) {
    c == ' ' || c == '\t' || c == '\n' || c == '\r' || c == '\U{B}' || c == '\U{C}'
  }

  predicate NoSpace(s: Text) {
    forall i :: 0 <= i < |s| ==> !IsSpace(s[i])
  }

  /** make_msgid with its clock, process id, random number and host name
      as arguments: `<utcdate.pid.randint[.idstring]@idhost>`. With no
      whitespace in its inputs it matches the RFC 5322 shape `<\S+@\S+>`. */
  function MakeMsgid(utcdate: Text, pid: nat, randint: nat, idstring: Option<Text>, idhost: Text): (r: Text)
    ensures |r| >= 2 && r[0] == '<' && r[|r| - 1] == '>'
    ensures |r| >= |idhost| + 3 && r[|r| - |idhost| - 2] == '@' && r[|r| - |idhost| - 1..|r| - 1] == idhost
    ensures NoSpace(utcdate) && NoSpace(idhost) && (idstring.Some? ==> NoSpace(idstring.value)) ==>
      NoSpace(r)
  {
    var ids := if idstring.Some? then "." + idstring.value else "";
    var left := "<" + utcdate + "." + NatText(pid) + "." + NatText(randint) + ids;
    assert NoSpace(NatText(pid)) && NoSpace(NatText(randint));
    left + "@" + idhost + ">"
  }

  // ---------------------------------------------------------------------
  // The message object

  /** The first argument of attach(): a ready MIME part or a file name. */
  datatype AttachTarget = PartTarget(part: Part) | NameTarget(filename: Option<Text>)

  class EmailMessage {
    var subject: Text
    var body: Text
    var fromEmail: Option<Text>
    var to: seq<Text>
    var cc: seq<Text>
    var bcc: seq<Text>
    var replyTo: Option<Text>
    var attachments: seq<Attachment>
    var alternatives: seq<Alternative>
    var extraHeaders: seq<(Text, Text)>
    var encoding: Text
    var msgId: Text
    var date: Option<real>
    var html: Option<Text>

    function Value(): MessageValue
      reads this
    {
      MessageValue(subject, body, fromEmail, to, cc, bcc, replyTo, attachments, alternatives,
                   extraHeaders, encoding, msgId, date)
    }

    /** EmailMessage(...): the compat constructor around the base one, then
        the html setter. `msgId` is make_msgid()'s result. */
    constructor (args: MessageArgs, cfg: Config, msgId: Text)
      ensures Value() == Construct(args, cfg, msgId)
      ensures html == args.html
    {
      date := args.date;
      var enc := Either(args.charset, args.encoding);
      to := ListOr(args.to);
      cc := ListOr(args.cc);
      bcc := ListOr(args.bcc);
      fromEmail := ResolveSender(args.fromEmail, cfg);
      replyTo := args.replyTo;
      subject := args.subject;
      body := args.body;
      attachments := ListOr(args.attachments);
      alternatives := ListOr(args.alternatives);
      extraHeaders := ListOr(Either(args.extraHeaders, args.headers));
      encoding := if enc.Some? && enc.value != [] then enc.value else cfg.defaultCharset.GetOr("utf-8");
      this.msgId := msgId;
      html := args.html;
      if args.html.Some? && args.html.value != [] {
        alternatives := alternatives + [Alternative(args.html.value, "text/html")];
      }
    }

    /** add_recipient: appends to `to`. */
    method AddRecipient(recipient: Text)
      modifies this
      ensures Value() == old(Value()).(to := old(to) + [recipient])
      ensures html == old(html)
    {
      to := to + [recipient];
    }

    /** attach: a MIME part is stored as it is (content and mimetype must be
        None); otherwise the triple is stored (content must not be None). A
        failed assertion stores nothing. */
    method Attach(target: AttachTarget, content: Option<Text>, mimetype: Option<Text>) returns (r: Result<()>)
      modifies this
      ensures r.Ok? <==> (if target.PartTarget? then content.None? && mimetype.None? else content.Some?)
      ensures r.Raised? ==> r.error == AssertionError && Value() == old(Value())
      ensures r.Ok? ==> Value() == old(Value()).(attachments := old(attachments) + [
        match target
        case PartTarget(p) => Prebuilt(p)
        case NameTarget(f) => FileAttachment(f, content.value, mimetype)])
      ensures html == old(html)
    {
      match target {
        case PartTarget(p) =>
          if !(content.None? && mimetype.None?) { return Raised(AssertionError); }
          attachments := attachments + [Prebuilt(p)];
        case NameTarget(f) =>
          if content.None? { return Raised(AssertionError); }
          attachments := attachments + [FileAttachment(f, content.value, mimetype)];
      }
      r := Ok(());
    }

    /** attach_alternative: both arguments are required. */
    method AttachAlternative(content: Option<Text>, mimetype: Option<Text>) returns (r: Result<()>)
      modifies this
      ensures r.Ok? <==> content.Some? && mimetype.Some?
      ensures r.Raised? ==> r.error == AssertionError && Value() == old(Value())
      ensures r.Ok? ==>
        Value() == old(Value()).(alternatives := old(alternatives) + [Alternative(content.value, mimetype.value)])
      ensures html == old(html)
    {
      if content.None? || mimetype.None? { return Raised(AssertionError); }
      alternatives := alternatives + [Alternative(content.value, mimetype.value)];
      r := Ok(());
    }

    /** The html setter: every non-empty value set adds one more text/html
        alternative. */
    method SetHtml(value: Option<Text>)
      modifies this
      ensures html == value
      ensures Value() == old(Value()).(alternatives := old(alternatives) + HtmlAlternative(value))
    {
      html := value;
      if value.Some? && value.value != [] {
        alternatives := alternatives + [Alternative(value.value, "text/html")];
      }
    }

    /** _create_message: the body part, then _create_alternatives, then
        _create_attachments. */
    method CreateMessage(lib: Library, cfg: Config) returns (r: Result<Part>)
      ensures r == BodyTree(lib, Value(), cfg)
    {
      var msg := TextPart(ContentSubtype, body, encoding);
      var inner := CreateAlternatives(cfg, msg);
      if inner.Raised? { return inner; }
      r := CreateAttachments(lib, cfg, inner.value);
    }

    /** _create_alternatives: with alternatives present, a
        multipart/alternative of `msg` (when the body is not empty) and each
        alternative's part in order; the first bad mime type ends it. */
    method CreateAlternatives(cfg: Config, msg: Part) returns (r: Result<Part>)
      ensures r == WithAlternatives(Value(), cfg, msg)
    {
      if alternatives == [] { return Ok(msg); }
      ghost var f := AlternativeStep(encoding, cfg);
      var parts: seq<Part> := [];
      var i := 0;
      while i < |alternatives|
        invariant 0 <= i <= |alternatives|
        invariant Traverse(alternatives[..i], f) == Ok(parts)
      {
        var p := CreateMimeAttachment(alternatives[i].content, alternatives[i].mimetype, encoding, cfg);
        TraverseSnoc(alternatives, i, f, parts);
        if p.Raised? { return Raised(p.error); }
        parts := parts + [p.value];
        i := i + 1;
      }
      assert alternatives[..i] == alternatives;
      r := Ok(Multipart(AlternativeSubtype, BodyFirst(body, msg) + parts));
    }

    /** _create_attachments: with attachments present, a multipart/mixed of
        `msg` (when the body is not empty) and each attachment in order. */
    method CreateAttachments(lib: Library, cfg: Config, msg: Part) returns (r: Result<Part>)
      ensures r == WithAttachments(lib, Value(), cfg, msg)
    {
      if attachments == [] { return Ok(msg); }
      ghost var f := AttachmentStep(lib, encoding, cfg);
      var parts: seq<Part> := [];
      var i := 0;
      while i < |attachments|
        invariant 0 <= i <= |attachments|
        invariant Traverse(attachments[..i], f) == Ok(parts)
      {
        var p: Result<Part>;
        match attachments[i] {
          case Prebuilt(part) => p := Ok(part);
          case FileAttachment(fname, content, mimetype) =>
            p := CreateAttachment(lib, fname, content, mimetype, encoding, cfg);
        }
        assert p == f(attachments[i]);
        TraverseSnoc(attachments, i, f, parts);
        if p.Raised? { return Raised(p.error); }
        parts := parts + [p.value];
        i := i + 1;
      }
      assert attachments[..i] == attachments;
      r := Ok(Multipart(MixedSubtype, BodyFirst(body, msg) + parts));
    }

    /** The loop of message() over the extra headers, after the fixed
        assignments succeeded. */
    method SetExtraHeaders(lib: Library, cfg: Config, fixedHeaders: seq<Header>) returns (r: Result<seq<Header>>)
      requires Traverse(FixedHeaders(lib, Value(), 8), GuardStep(lib, encoding, cfg)) == Ok(fixedHeaders)
      ensures r == Traverse(HeaderPlan(lib, Value()), GuardStep(lib, encoding, cfg))
    {
      r := CopyExtraHeaders(lib, cfg, encoding, fixedHeaders, FixedHeaders(lib, Value(), 8), extraHeaders);
    }

    /** message(): builds the tree, then sets each header through the guard
        in order; the first refused header ends it. Nothing is modified, so
        calling it again gives the same result. */
    method Message(lib: Library, cfg: Config) returns (r: Result<Document>)
      ensures r == Render(lib, Value(), cfg)
    {
      var tree := CreateMessage(lib, cfg);
      if tree.Raised? { return Raised(tree.error); }
      var v := Value();
      var s := SetSubjectFromTo(lib, cfg, v);
      if s.Raised? { PlanRaised(lib, v, cfg, 3); return Raised(s.error); }
      s := SetCc(lib, cfg, v, s.value);
      if s.Raised? { PlanRaised(lib, v, cfg, 4); return Raised(s.error); }
      s := SetBcc(lib, cfg, v, s.value);
      if s.Raised? { PlanRaised(lib, v, cfg, 5); return Raised(s.error); }
      s := SetReplyTo(lib, cfg, v, s.value);
      if s.Raised? { PlanRaised(lib, v, cfg, 6); return Raised(s.error); }
      s := SetDate(lib, cfg, v, s.value);
      if s.Raised? { PlanRaised(lib, v, cfg, 7); return Raised(s.error); }
      s := SetMessageId(lib, cfg, v, s.value);
      if s.Raised? { PlanRaised(lib, v, cfg, 8); return Raised(s.error); }
      s := SetExtraHeaders(lib, cfg, s.value);
      if s.Raised? { return Raised(s.error); }
      r := Ok(Document(tree.value, s.value));
    }
  }

  /** The attributes of each message of a batch, in batch order. */
  function Values(ms: seq<EmailMessage>): (r: seq<MessageValue>)
    reads ms
    ensures |r| == |ms|
    ensures forall i :: 0 <= i < |ms| ==> r[i] == ms[i].Value()
  {
    if ms == [] then [] else Values(ms[..|ms| - 1]) + [ms[|ms| - 1].Value()]
  }

  /** message() of one message value, as a step of a loop over a batch. */
  function RenderStep(lib: Library, cfg: Config): MessageValue -> Result<Document> {
    (m: MessageValue) => Render(lib, m, cfg)
  }

  /** `msg[name] = value`: the guard, then the header joins those already
      set; `done` is the list of assignments made so far. */
  method SetHeader(lib: Library, cfg: Config, encoding: Text, headers: seq<Header>, ghost done: seq<(Text, Text)>,
                   name: Text, value: Text) returns (r: Result<seq<Header>>)
    requires Traverse(done, GuardStep(lib, encoding, cfg)) == Ok(headers)
    ensures r == Traverse(done + [(name, value)], GuardStep(lib, encoding, cfg))
  {
    var h := ForbidMultiLineHeaders(lib, name, value, encoding, cfg);
    assert (done + [(name, value)])[..|done|] == done;
    if h.Raised? {
      r := Raised(h.error);
    } else {
      r := Ok(headers + [h.value]);
    }
  }

  /** The loop of message() over the extra headers, after the assignments
      `fixed` produced `headers`: from and to in any case are skipped, every
      other header goes through the guard, and the first refusal ends it. */
  method CopyExtraHeaders(lib: Library, cfg: Config, encoding: Text, headers: seq<Header>,
                          ghost fixed: seq<(Text, Text)>, extraHeaders: seq<(Text, Text)>)
    returns (r: Result<seq<Header>>)
    requires Traverse(fixed, GuardStep(lib, encoding, cfg)) == Ok(headers)
    ensures r == Traverse(fixed + Kept(extraHeaders), GuardStep(lib, encoding, cfg))
  {
    ghost var f := GuardStep(lib, encoding, cfg);
    var out := headers;
    assert fixed + Kept(extraHeaders[..0]) == fixed;
    var i := 0;
    while i < |extraHeaders|
      invariant 0 <= i <= |extraHeaders|
      invariant Traverse(fixed + Kept(extraHeaders[..i]), f) == Ok(out)
    {
      var (name, value) := extraHeaders[i];
      KeptSnoc(extraHeaders, i);
      if Lower(name) == "from" || Lower(name) == "to" {
        i := i + 1;
        continue;
      }
      ghost var done := fixed + Kept(extraHeaders[..i]);
      var s := SetHeader(lib, cfg, encoding, out, done, name, value);
      assert done + [(name, value)] == fixed + Kept(extraHeaders[..i + 1]);
      if s.Raised? {
        ExtraRaised(fixed, extraHeaders, i, f);
        return Raised(s.error);
      }
      out := s.value;
      i := i + 1;
    }
    assert extraHeaders[..i] == extraHeaders;
    r := Ok(out);
  }

  /** `if present: msg[name] = value`, as the `n`-th fixed assignment. */
  method SetOptional(lib: Library, cfg: Config, m: MessageValue, headers: seq<Header>, n: nat,
                     present: bool, name: Text, value: Text) returns (r: Result<seq<Header>>)
    requires Traverse(FixedHeaders(lib, m, n), GuardStep(lib, m.encoding, cfg)) == Ok(headers)
    requires HeaderSegment(lib, m, n) == if present then [(name, value)] else []
    ensures r == Traverse(FixedHeaders(lib, m, n + 1), GuardStep(lib, m.encoding, cfg))
  {
    ghost var done := FixedHeaders(lib, m, n);
    assert FixedHeaders(lib, m, n + 1) == done + HeaderSegment(lib, m, n);
    if present {
      r := SetHeader(lib, cfg, m.encoding, headers, done, name, value);
    } else {
      assert done + [] == done;
      r := Ok(headers);
    }
  }

  /** The first assignments of message(): Subject, From and To. */
  method SetSubjectFromTo(lib: Library, cfg: Config, m: MessageValue) returns (r: Result<seq<Header>>)
    ensures r == Traverse(FixedHeaders(lib, m, 3), GuardStep(lib, m.encoding, cfg))
  {
    assert FixedHeaders(lib, m, 0) == [];
    var s := SetHeader(lib, cfg, m.encoding, [], [], "Subject", m.subject);
    if s.Raised? { FixedRaised(lib, m, cfg, 1, 3); return s; }
    var fromValue := Lookup(m.extraHeaders, "From").GetOr(Str(m.fromEmail));
    s := SetHeader(lib, cfg, m.encoding, s.value, FixedHeaders(lib, m, 1), "From", fromValue);
    if s.Raised? { FixedRaised(lib, m, cfg, 2, 3); return s; }
    var toValue := Lookup(m.extraHeaders, "To").GetOr(Join(m.to));
    r := SetHeader(lib, cfg, m.encoding, s.value, FixedHeaders(lib, m, 2), "To", toValue);
  }

  /** Then Cc, when set. */
  method SetCc(lib: Library, cfg: Config, m: MessageValue, headers: seq<Header>) returns (r: Result<seq<Header>>)
    requires Traverse(FixedHeaders(lib, m, 3), GuardStep(lib, m.encoding, cfg)) == Ok(headers)
    ensures r == Traverse(FixedHeaders(lib, m, 4), GuardStep(lib, m.encoding, cfg))
  {
    r := SetOptional(lib, cfg, m, headers, 3, m.cc != [], "Cc", Join(m.cc));
  }

  /** Then Bcc, when set. */
  method SetBcc(lib: Library, cfg: Config, m: MessageValue, headers: seq<Header>) returns (r: Result<seq<Header>>)
    requires Traverse(FixedHeaders(lib, m, 4), GuardStep(lib, m.encoding, cfg)) == Ok(headers)
    ensures r == Traverse(FixedHeaders(lib, m, 5), GuardStep(lib, m.encoding, cfg))
  {
    r := SetOptional(lib, cfg, m, headers, 4, m.bcc != [], "Bcc", Join(m.bcc));
  }

  /** Then Reply-To, when set and not empty. */
  method SetReplyTo(lib: Library, cfg: Config, m: MessageValue, headers: seq<Header>) returns (r: Result<seq<Header>>)
    requires Traverse(FixedHeaders(lib, m, 5), GuardStep(lib, m.encoding, cfg)) == Ok(headers)
    ensures r == Traverse(FixedHeaders(lib, m, 6), GuardStep(lib, m.encoding, cfg))
  {
    r := SetOptional(lib, cfg, m, headers, 5, m.replyTo.Some? && m.replyTo.value != [], "Reply-To",
                     m.replyTo.GetOr([]));
  }

  /** Then Date, unless an extra header of that name exists. */
  method SetDate(lib: Library, cfg: Config, m: MessageValue, headers: seq<Header>)
    returns (r: Result<seq<Header>>)
    requires Traverse(FixedHeaders(lib, m, 6), GuardStep(lib, m.encoding, cfg)) == Ok(headers)
    ensures r == Traverse(FixedHeaders(lib, m, 7), GuardStep(lib, m.encoding, cfg))
  {
    r := SetOptional(lib, cfg, m, headers, 6, !NamedIn(m.extraHeaders, "date"), "Date", lib.formatdate(m.date));
  }

  /** Then Message-ID, unless an extra header of that name exists. */
  method SetMessageId(lib: Library, cfg: Config, m: MessageValue, headers: seq<Header>)
    returns (r: Result<seq<Header>>)
    requires Traverse(FixedHeaders(lib, m, 7), GuardStep(lib, m.encoding, cfg)) == Ok(headers)
    ensures r == Traverse(FixedHeaders(lib, m, 8), GuardStep(lib, m.encoding, cfg))
  {
    r := SetOptional(lib, cfg, m, headers, 7, !NamedIn(m.extraHeaders, "message-id"), "Message-ID",
                     m.msgId);
  }
}
