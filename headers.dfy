/** The header-injection guard and the address sanitizer of
    flask_email/message.py.

    The encoders the source calls into are kept uninterpreted: an RFC 2047
    encoded word (`Header(text, charset).encode()`), the IDNA ToASCII form of
    a domain (section 4.1 of RFC 3490) and `formataddr` are free constructors
    of the values below, and the parsers and the codec registry the source
    consults (`parseaddr`, `getaddresses`, whether a text is encodable in a
    charset, `mimetypes.guess_type`, `formatdate`) are the fields of a
    `Library` value that every operation receives. */
module HeaderGuard {
  import opened Outcomes
  import opened AppConfig

  /** The standard-library services the core consults, as oracles. */
  datatype Library = Library(
    parseaddr: Text -> (Text, Text),          // "Name <a@b>" to (name, address)
    getaddresses: Text -> seq<(Text, Text)>,  // a comma-separated list of addresses
    encodable: (Text, Text) -> bool,          // text can be encoded in charset
    guessType: Text -> Option<Text>,          // mime type guessed from a file name
    formatdate: Option<real> -> Text)         // RFC 2822 date; None reads the clock

  /** `Header(text, charset).encode()`: an RFC 2047 encoded word, or the text
      itself when the charset needs no encoding. `None` is the default
      charset (us-ascii). */
  datatype Word = Word(text: Text, charset: Option<Text>)

  /** The address part of a sanitized address. */
  datatype AddrSpec =
    | AsIs(address: Text)                 // an ASCII address, unchanged
    | Idn(local: Word, domain: Text)      // local part encoded, domain IDNA-encoded
    | WholeWord(word: Word)               // a non-ASCII address without '@'

  /** `formataddr((name, address))`. */
  datatype Mailbox = Mailbox(name: Word, spec: AddrSpec)

  /** An address as sanitize_address receives it: a header-ready string or a
      (display name, address) pair. */
  datatype AddressInput = Unparsed(raw: Text) | Pair(name: Text, address: Text)

  /** A header value after the guard. */
  datatype HeaderValue =
    | Plain(text: Text)            // stored as given
    | Encoded(word: Word)          // run through Header(...).encode()
    | Addresses(boxes: seq<Mailbox>)

  datatype Header = Header(name: Text, value: HeaderValue)

  predicate IsAscii(s: Text) {
    forall i :: 0 <= i < |s| ==> s[i] < 128 as char
  }

  predicate HasNewline(s: Text) {
    '\n' in s || '\r' in s
  }

  function LowerChar(c: char): char {
    if 'A' <= c <= 'Z' then (c as int + 32) as char else c
  }

  /** `str.lower()`, on the ASCII letters. */
  function Lower(s: Text): Text {
    seq(|s|, i requires 0 <= i < |s| => LowerChar(s[i]))
  }

  /** Header names that carry structured address data (RFC 5322). */
  const AddressHeaders: set<Text> := {
    "from", "sender", "reply-to", "to", "cc", "bcc",
    "resent-from", "resent-sender", "resent-to", "resent-cc", "resent-bcc"
  }

  /** `s.split(c, 1)` when `c` occurs in `s`, and `None` otherwise: the
      split is at the first occurrence. */
  function SplitFirst(s: Text, c: char): (r: Option<(Text, Text)>)
    ensures r.None? <==> c !in s
    ensures r.Some? ==> s == r.value.0 + [c] + r.value.1 && c !in r.value.0
  {
    if s == [] then None
    else if s[0] == c then Some(([], s[1..]))
    else
      match SplitFirst(s[1..], c)
      case None => None
      case Some(p) =>
        assert s == [s[0]] + s[1..];
        Some(([s[0]] + p.0, p.1))
  }

  /** The split is determined by the position of the first `c`. */
  lemma SplitFirstAt(s: Text, c: char, k: nat)
    requires k < |s| && s[k] == c && c !in s[..k]
    ensures SplitFirst(s, c) == Some((s[..k], s[k + 1..]))
  {
    var p := SplitFirst(s, c).value;
    assert forall i :: 0 <= i < |p.0| ==> s[i] == p.0[i];
    assert s[|p.0|] == c;
    assert forall i :: 0 <= i < k ==> s[..k][i] == s[i];
    assert |p.0| == k;
    assert p.0 == s[..k];
    assert p.1 == s[k + 1..];
  }

  /** Splitting a joined pair gives the pair back. */
  lemma SplitFirstJoin(a: Text, c: char, b: Text)
    requires c !in a
    ensures SplitFirst(a + [c] + b, c) == Some((a, b))
  {
    var s := a + [c] + b;
    assert s[..|a|] == a;
    assert s[|a| + 1..] == b;
    SplitFirstAt(s, c, |a|);
  }

  /** `encoding or app.config.get('DEFAULT_CHARSET', 'utf-8')`. */
  function EffectiveCharset(encoding: Text, cfg: Config): Text {
    if encoding != [] then encoding else cfg.defaultCharset.GetOr("utf-8")
  }

  /** The (name, address) pair sanitize_address works on. */
  function ParsedAddress(lib: Library, addr: AddressInput): (Text, Text) {
    match addr
    case Unparsed(raw) => lib.parseaddr(raw)
    case Pair(n, a) => (n, a)
  }

  /** sanitize_address: the display name is always encoded, in the message's
      charset or, when the name cannot be encoded in it, in utf-8; the
      address part is encoded only when it is not ASCII. */
  function SanitizeAddress(lib: Library, addr: AddressInput, encoding: Text): Mailbox
  {
    var (nm, a) := ParsedAddress(lib, addr);
    var name := Word(nm, Some(if lib.encodable(nm, encoding) then encoding else "utf-8"));
    if IsAscii(a) then Mailbox(name, AsIs(a))
    else
      match SplitFirst(a, '@')
      case Some(p) => Mailbox(name, Idn(Word(p.0, Some(encoding)), p.1))
      case None => Mailbox(name, WholeWord(Word(a, Some(encoding))))
  }

  /** The three branches of sanitize_address on the address part, and the
      charset fallback of the display name. */
  lemma SanitizeAddressCases(lib: Library, addr: AddressInput, encoding: Text)
    ensures var (nm, a) := ParsedAddress(lib, addr);
      var r := SanitizeAddress(lib, addr, encoding);
      r.name.text == nm &&
      r.name.charset == Some(if lib.encodable(nm, encoding) then encoding else "utf-8") &&
      (IsAscii(a) ==> r.spec == AsIs(a)) &&
      (!IsAscii(a) && '@' in a ==>
        r.spec.Idn? && r.spec.local.charset == Some(encoding) &&
        a == r.spec.local.text + "@" + r.spec.domain && '@' !in r.spec.local.text) &&
      (!IsAscii(a) && '@' !in a ==> r.spec == WholeWord(Word(a, Some(encoding))))
  {
  }

  function SanitizeAll(lib: Library, pairs: seq<(Text, Text)>, encoding: Text): seq<Mailbox> {
    seq(|pairs|, i requires 0 <= i < |pairs| => SanitizeAddress(lib, Pair(pairs[i].0, pairs[i].1), encoding))
  }

  /** No text of a formatted address holds a line break. */
  predicate MailboxNoNewline(b: Mailbox) {
    !HasNewline(b.name.text) &&
    match b.spec
    case AsIs(a) => !HasNewline(a)
    case Idn(local, domain) => !HasNewline(local.text) && !HasNewline(domain)
    case WholeWord(w) => !HasNewline(w.text)
  }

  /** True when the guard's output has no raw line break of its own. */
  predicate NoRawNewline(v: HeaderValue) {
    match v
    case Plain(t) => !HasNewline(t)
    case Encoded(w) => !HasNewline(w.text)
    case Addresses(boxes) => forall i :: 0 <= i < |boxes| ==> MailboxNoNewline(boxes[i])
  }

  /** `getaddresses` as the standard library implements it: the names and
      addresses it finds in a value without line breaks have none either. */
  ghost predicate AddressParserKeepsLines(lib: Library) {
    forall t: Text, i :: !HasNewline(t) && 0 <= i < |lib.getaddresses(t)| ==>
      !HasNewline(lib.getaddresses(t)[i].0) && !HasNewline(lib.getaddresses(t)[i].1)
  }

  /** A part of a text without line breaks has none. */
  lemma NoNewlineInParts(a: Text, p: (Text, Text), c: char)
    requires a == p.0 + [c] + p.1 && !HasNewline(a)
    ensures !HasNewline(p.0) && !HasNewline(p.1)
  {
    assert forall i :: 0 <= i < |p.0| ==> p.0[i] == a[i];
    assert forall i :: 0 <= i < |p.1| ==> p.1[i] == a[|p.0| + 1 + i];
  }

  /** sanitize_address adds no line break to a (name, address) pair that
      has none. */
  lemma SanitizeKeepsLines(lib: Library, name: Text, address: Text, encoding: Text)
    requires !HasNewline(name) && !HasNewline(address)
    ensures MailboxNoNewline(SanitizeAddress(lib, Pair(name, address), encoding))
  {
    if !IsAscii(address) && '@' in address {
      NoNewlineInParts(address, SplitFirst(address, '@').value, '@');
    }
  }

  /** Sanitizing the addresses of a value without line breaks. */
  lemma SanitizeAllKeepsLines(lib: Library, val: Text, encoding: Text)
    requires !HasNewline(val)
    ensures AddressParserKeepsLines(lib) ==>
      NoRawNewline(Addresses(SanitizeAll(lib, lib.getaddresses(val), encoding)))
  {
    if AddressParserKeepsLines(lib) {
      var pairs := lib.getaddresses(val);
      forall i | 0 <= i < |pairs|
        ensures MailboxNoNewline(SanitizeAll(lib, pairs, encoding)[i])
      {
        SanitizeKeepsLines(lib, pairs[i].0, pairs[i].1, encoding);
      }
    }
  }

  /** forbid_multi_line_headers: refuses any value with a line break, leaves
      ASCII values alone (except Subject, which is always encoded), re-splits
      non-ASCII values of address headers into sanitized addresses and
      encodes every other non-ASCII value whole. */
  function ForbidMultiLineHeaders(lib: Library, name: Text, val: Text, encoding: Text, cfg: Config): (r: Result<Header>)
    ensures r.Raised? <==> HasNewline(val)
    ensures r.Raised? ==> r.error == BadHeaderError(name, val)
    ensures r.Ok? ==> r.value.name == name
    ensures r.Ok? && AddressParserKeepsLines(lib) ==> NoRawNewline(r.value.value)
    ensures r.Ok? && IsAscii(val) && Lower(name) != "subject" ==> r.value.value == Plain(val)
    ensures r.Ok? && IsAscii(val) && Lower(name) == "subject" ==> r.value.value == Encoded(Word(val, None))
    ensures r.Ok? && !IsAscii(val) && Lower(name) in AddressHeaders ==>
      r.value.value == Addresses(SanitizeAll(lib, lib.getaddresses(val), EffectiveCharset(encoding, cfg)))
    ensures r.Ok? && !IsAscii(val) && Lower(name) !in AddressHeaders ==>
      r.value.value == Encoded(Word(val, Some(EffectiveCharset(encoding, cfg))))
  {
    var enc := EffectiveCharset(encoding, cfg);
    if HasNewline(val) then Raised(BadHeaderError(name, val))
    else if !IsAscii(val) then
      if Lower(name) in AddressHeaders then
        SanitizeAllKeepsLines(lib, val, enc);
        Ok(Header(name, Addresses(SanitizeAll(lib, lib.getaddresses(val), enc))))
      else
        Ok(Header(name, Encoded(Word(val, Some(enc)))))
    else if Lower(name) == "subject" then Ok(Header(name, Encoded(Word(val, None))))
    else Ok(Header(name, Plain(val)))
  }
}
