/**
 * The URL-encoded form extractor of src/types/form.rs: `FormConfig`, the
 * `UrlEncoded` body future (validation in `new`, the declared-length check and
 * the bounded drain in `poll`) and `Form::from_request`.
 */
module Form {
  import opened Wrappers
  import opened Http
  import Service

  /** The only accepted media type, compared after lower-casing. */
  const FORM_CONTENT_TYPE: string := "application/x-www-form-urlencoded"

  /** The header name `CONTENT_LENGTH`. */
  const CONTENT_LENGTH: string := "content-length"

  /** `FormConfig::default().limit`. */
  const DEFAULT_CONFIG_LIMIT: nat := 16384

  /** The limit `UrlEncoded::new` and `UrlEncoded::err` start with. */
  const DEFAULT_URLENCODED_LIMIT: nat := 32768

  /** The largest `usize` (a 64-bit target). */
  const USIZE_MAX: nat := 0xFFFF_FFFF_FFFF_FFFF

  /** The type names under which a configuration is looked up in app data. */
  const FORM_CONFIG_TYPE: TypeTag := "actix_web::types::form::FormConfig"
  const DATA_FORM_CONFIG_TYPE: TypeTag := "actix_web::data::Data<actix_web::types::form::FormConfig>"

  /** The errors of the form extractor (the variants this code produces). */
  datatype UrlencodedError =
    | ContentType
    | UnknownLength
    | Overflow(size: nat, limit: nat)
    | Parse
    | Payload(cause: PayloadError)

  /** A user error handler (`Rc<dyn Fn(UrlencodedError, &HttpRequest) -> Error>`), by identity. */
  datatype ErrorHandler = ErrorHandler(id: nat)

  /** `FormConfig`: the body limit and the optional error handler. */
  datatype FormConfig = FormConfig(limit: nat, errHandler: Option<ErrorHandler>)
  {
    /** `FormConfig::limit`: a new limit; the handler is kept. */
    function Limit(limit: nat): (c: FormConfig)
      ensures c.limit == limit && c.errHandler == errHandler
    {
      this.(limit := limit)
    }

    /** `FormConfig::error_handler`: a new handler; the limit is kept. */
    function WithErrorHandler(h: ErrorHandler): (c: FormConfig)
      ensures c.errHandler == Some(h) && c.limit == limit
    {
      this.(errHandler := Some(h))
    }
  }

  /** `FormConfig::default()`: 16384 bytes and no handler. */
  function DefaultFormConfig(): (c: FormConfig)
    ensures c.limit == 16384 && c.errHandler == None
  {
    FormConfig(DEFAULT_CONFIG_LIMIT, None)
  }

  /**
   * A value stored in an app data container, as far as this extractor sees it:
   * a bare `FormConfig`, a `web::Data<FormConfig>`, or a value of another type.
   */
  datatype AppDatum =
    | FormConfigValue(config: FormConfig)
    | DataFormConfigValue(config: FormConfig)
    | OtherValue(typeName: TypeTag)

  /** The type a stored value has, as the key it is stored under. */
  function TypeOf(d: AppDatum): TypeTag
  {
    match d
    case FormConfigValue(_) => FORM_CONFIG_TYPE
    case DataFormConfigValue(_) => DATA_FORM_CONFIG_TYPE
    case OtherValue(t) => t
  }

  /**
   * Containers keyed by type identity hold each value under its own type, and
   * no other type shares a configuration type's identity.
   */
  ghost predicate WellTyped(containers: seq<map<TypeTag, AppDatum>>)
  {
    forall i, t :: 0 <= i < |containers| && t in containers[i] ==>
      TypeOf(containers[i][t]) == t &&
      (containers[i][t].OtherValue? ==> t != FORM_CONFIG_TYPE && t != DATA_FORM_CONFIG_TYPE)
  }

  /** A value found under `tag` in well-typed containers has type `tag`. */
  lemma {:induction false} LookupWellTyped(containers: seq<map<TypeTag, AppDatum>>, tag: TypeTag)
    requires WellTyped(containers)
    ensures var d := Service.AppDataLookup(containers, tag);
            d.Some? ==> TypeOf(d.value) == tag && (d.value.OtherValue? ==> tag != FORM_CONFIG_TYPE && tag != DATA_FORM_CONFIG_TYPE)
    decreases |containers|
  {
    if containers != [] && tag !in containers[|containers| - 1] {
      var prefix := containers[..|containers| - 1];
      assert forall i :: 0 <= i < |prefix| ==> prefix[i] == containers[i];
      LookupWellTyped(prefix, tag);
    }
  }

  /**
   * The configuration `Form::from_request` uses, as `(limit, handler)`: a bare
   * `FormConfig` if one is found, else a `web::Data<FormConfig>`, else the
   * compiled-in default.
   */
  function ResolveConfig(containers: seq<map<TypeTag, AppDatum>>): (nat, Option<ErrorHandler>)
  {
    var bare := Service.AppDataLookup(containers, FORM_CONFIG_TYPE);
    if bare.Some? && bare.value.FormConfigValue? then (bare.value.config.limit, bare.value.config.errHandler)
    else
      var wrapped := Service.AppDataLookup(containers, DATA_FORM_CONFIG_TYPE);
      if wrapped.Some? && wrapped.value.DataFormConfigValue? then (wrapped.value.config.limit, wrapped.value.config.errHandler)
      else (DEFAULT_CONFIG_LIMIT, None)
  }

  /**
   * The resolution order: a bare configuration wins over the `Data` wrapper,
   * which wins over the default `(16384, None)`.
   */
  lemma ResolveConfigOrder(containers: seq<map<TypeTag, AppDatum>>)
    requires WellTyped(containers)
    ensures var bare := Service.AppDataLookup(containers, FORM_CONFIG_TYPE);
            bare.Some? ==>
              bare.value.FormConfigValue? &&
              ResolveConfig(containers) == (bare.value.config.limit, bare.value.config.errHandler)
    ensures var bare := Service.AppDataLookup(containers, FORM_CONFIG_TYPE);
            var wrapped := Service.AppDataLookup(containers, DATA_FORM_CONFIG_TYPE);
            bare.None? && wrapped.Some? ==>
              wrapped.value.DataFormConfigValue? &&
              ResolveConfig(containers) == (wrapped.value.config.limit, wrapped.value.config.errHandler)
    ensures Service.AppDataLookup(containers, FORM_CONFIG_TYPE).None? &&
            Service.AppDataLookup(containers, DATA_FORM_CONFIG_TYPE).None? ==>
            ResolveConfig(containers) == (16384, None)
  {
    LookupWellTyped(containers, FORM_CONFIG_TYPE);
    LookupWellTyped(containers, DATA_FORM_CONFIG_TYPE);
  }

  // ------------------------------------------------------------------------
  // Header checks in `UrlEncoded::new`
  // ------------------------------------------------------------------------

  predicate IsUpper(c: char) { 'A' <= c <= 'Z' }

  /** ASCII lower-casing of one character. */
  function LowerChar(c: char): char
  {
    if IsUpper(c) then (c as int + 32) as char else c
  }

  /** ASCII upper-casing of one character. */
  function UpperChar(c: char): char
  {
    if 'a' <= c <= 'z' then (c as int - 32) as char else c
  }

  /** `str::to_lowercase` on ASCII letters. */
  function ToLower(s: string): (r: string)
    ensures |r| == |s| && forall i :: 0 <= i < |s| ==> r[i] == LowerChar(s[i])
  {
    seq(|s|, i requires 0 <= i < |s| => LowerChar(s[i]))
  }

  /** The content-type check of `new`. */
  predicate IsFormContentType(ct: string)
  {
    ToLower(ct) == FORM_CONTENT_TYPE
  }

  /**
   * Lower-casing then comparing with a target that has no upper-case letter
   * is a character-by-character case-insensitive comparison.
   */
  lemma {:induction false} ToLowerMatches(ct: string, target: string)
    requires forall i :: 0 <= i < |target| ==> !IsUpper(target[i])
    ensures ToLower(ct) == target <==>
            |ct| == |target| && forall i :: 0 <= i < |ct| ==> ct[i] == target[i] || ct[i] == UpperChar(target[i])
  {
    if |ct| == |target| {
      forall i | 0 <= i < |ct|
        ensures LowerChar(ct[i]) == target[i] <==> ct[i] == target[i] || ct[i] == UpperChar(target[i])
      {
      }
      if forall i :: 0 <= i < |ct| ==> ct[i] == target[i] || ct[i] == UpperChar(target[i]) {
        assert forall i :: 0 <= i < |ct| ==> ToLower(ct)[i] == target[i];
      }
    }
  }

  /** The media type is compared case-insensitively, character by character. */
  lemma FormContentTypeCaseInsensitive(ct: string)
    ensures IsFormContentType(ct) <==>
            |ct| == |FORM_CONTENT_TYPE| &&
            forall i :: 0 <= i < |ct| ==> ct[i] == FORM_CONTENT_TYPE[i] || ct[i] == UpperChar(FORM_CONTENT_TYPE[i])
  {
    ToLowerMatches(ct, FORM_CONTENT_TYPE);
  }

  /** Whether a header byte is visible ASCII or a tab (`HeaderValue::to_str`). */
  predicate IsVisibleAscii(b: byte)
  {
    b == 9 || (32 <= b && b < 127)
  }

  /** `HeaderValue::to_str`: the text of a value made of visible ASCII only. */
  function HeaderToStr(v: HeaderValue): (r: Option<string>)
    ensures r.Some? <==> forall i :: 0 <= i < |v.bytes| ==> IsVisibleAscii(v.bytes[i])
    ensures r.Some? ==> |r.value| == |v.bytes| && forall i :: 0 <= i < |v.bytes| ==> r.value[i] as int == v.bytes[i]
  {
    if forall i :: 0 <= i < |v.bytes| ==> IsVisibleAscii(v.bytes[i])
    then Some(seq(|v.bytes|, i requires 0 <= i < |v.bytes| => v.bytes[i] as char))
    else None
  }

  /** The bytes of an ASCII string (any other character becomes 0). */
  function AsciiBytes(s: string): seq<byte>
  {
    seq(|s|, i requires 0 <= i < |s| => if s[i] as int < 256 then s[i] as int else 0)
  }

  /** A header value made of visible ASCII text reads back as that same text. */
  lemma AsciiHeaderText(s: string)
    requires forall i :: 0 <= i < |s| ==> 32 <= s[i] as int < 127
    ensures HeaderToStr(HeaderValue(AsciiBytes(s))) == Some(s)
  {
    var v := HeaderValue(AsciiBytes(s));
    assert forall i :: 0 <= i < |v.bytes| ==> IsVisibleAscii(v.bytes[i]);
    assert HeaderToStr(v).value == s;
  }

  predicate IsDigit(c: char) { '0' <= c <= '9' }

  predicate AllDigits(s: string)
  {
    forall i :: 0 <= i < |s| ==> IsDigit(s[i])
  }

  /** The value of a string of decimal digits, most significant first. */
  function DecimalValue(ds: string): nat
    requires AllDigits(ds)
    decreases |ds|
  {
    if ds == [] then 0
    else 10 * DecimalValue(ds[..|ds| - 1]) + (ds[|ds| - 1] as int - '0' as int)
  }

  /**
   * `str::parse::<usize>`: an optional `+`, then at least one decimal digit,
   * with a value that fits in a `usize`.
   */
  function ParseUsize(s: string): (r: Option<nat>)
    ensures r.Some? ==> r.value <= USIZE_MAX
    ensures r.Some? ==> s != [] && (s[0] == '+' || IsDigit(s[0])) && AllDigits(s[1..])
  {
    var digits := if |s| > 0 && s[0] == '+' then s[1..] else s;
    if digits != [] && AllDigits(digits) && DecimalValue(digits) <= USIZE_MAX
    then Some(DecimalValue(digits))
    else None
  }

  /** The decimal notation of `n`, without sign or leading zeros. */
  function DecimalString(n: nat): (s: string)
    decreases n
  {
    if n < 10 then [('0' as int + n) as char]
    else DecimalString(n / 10) + [('0' as int + n % 10) as char]
  }

  lemma {:induction false} DecimalStringValue(n: nat)
    ensures DecimalString(n) != [] && AllDigits(DecimalString(n)) && DecimalValue(DecimalString(n)) == n
    decreases n
  {
    if n >= 10 {
      DecimalStringValue(n / 10);
      var s := DecimalString(n);
      assert s[..|s| - 1] == DecimalString(n / 10);
    }
  }

  /** Every `usize` written in decimal parses back to itself. */
  lemma ParseUsizeRoundTrip(n: nat)
    requires n <= USIZE_MAX
    ensures ParseUsize(DecimalString(n)) == Some(n)
  {
    DecimalStringValue(n);
    assert IsDigit(DecimalString(n)[0]);
  }

  /** Text that is not a number does not parse (the `"xxxx"` header). */
  lemma ParseUsizeRejectsNonDigits(s: string)
    requires s != [] && s[0] != '+' && !IsDigit(s[0])
    ensures ParseUsize(s) == None
  {
  }

  /** The declared length: absent, a `usize`, or unparsable (`None` inside). */
  function ContentLengthValue(v: HeaderValue): Option<nat>
  {
    match HeaderToStr(v)
    case None => None
    case Some(s) => ParseUsize(s)
  }

  // ------------------------------------------------------------------------
  // UrlEncoded
  // ------------------------------------------------------------------------

  /** The captured state of the body-reading `async` block: stream, limit and encoding. */
  datatype DrainFuture = DrainFuture(stream: Payload, limit: nat, encoding: Encoding)

  /** The `UrlEncoded` struct, by value. */
  datatype UrlEncoded = UrlEncoded(
    stream: Option<Payload>,
    limit: nat,
    length: Option<nat>,
    encoding: Encoding,
    err: Option<UrlencodedError>,
    fut: Option<DrainFuture>)
  {
    /** `UrlEncoded::limit`: the limit replaced, all else kept. */
    function Limit(limit: nat): (u: UrlEncoded)
      ensures u.limit == limit
      ensures u.(limit := this.limit) == this
    {
      this.(limit := limit)
    }
  }

  /** `UrlEncoded::err`: a future that only reports `e`; no stream, UTF-8, the default limit. */
  function UrlEncodedErr(e: UrlencodedError): (u: UrlEncoded)
    ensures u.err == Some(e) && u.stream == None && u.fut == None
    ensures u.length == None && u.encoding == Utf8 && u.limit == DEFAULT_URLENCODED_LIMIT
  {
    UrlEncoded(None, DEFAULT_URLENCODED_LIMIT, None, Utf8, Some(e), None)
  }

  /**
   * `UrlEncoded::new`: the content type, then the charset, then the
   * `Content-Length` header are checked, in that order; the first failure is
   * stored and the payload is left where it was. Otherwise the payload is
   * taken out of its slot (which is left `Payload::None`). Returns the future
   * and the slot's new content.
   */
  function New(head: RequestHead, payload: Payload): (r: (UrlEncoded, Payload))
    ensures !IsFormContentType(head.contentType) ==> r.0.err == Some(ContentType)
    ensures IsFormContentType(head.contentType) && head.encoding.None? ==> r.0.err == Some(ContentType)
    ensures IsFormContentType(head.contentType) && head.encoding.Some? ==>
              (r.0.err == Some(UnknownLength) <==>
               CONTENT_LENGTH in head.headers && ContentLengthValue(head.headers[CONTENT_LENGTH]).None?)
    ensures r.0.err.None? <==>
              IsFormContentType(head.contentType) && head.encoding.Some? &&
              !(CONTENT_LENGTH in head.headers && ContentLengthValue(head.headers[CONTENT_LENGTH]).None?)
    ensures r.0.err.Some? ==> r.0 == UrlEncodedErr(r.0.err.value) && r.1 == payload
    ensures r.0.err.None? ==> r.0.stream == Some(payload) && r.1 == Empty && r.0.fut == None
    ensures r.0.err.None? ==> r.0.limit == DEFAULT_URLENCODED_LIMIT && Some(r.0.encoding) == head.encoding
    ensures r.0.err.None? ==> r.0.length == if CONTENT_LENGTH in head.headers then ContentLengthValue(head.headers[CONTENT_LENGTH]) else None
  {
    if !IsFormContentType(head.contentType) then (UrlEncodedErr(ContentType), payload)
    else if head.encoding.None? then (UrlEncodedErr(ContentType), payload)
    else if CONTENT_LENGTH in head.headers && ContentLengthValue(head.headers[CONTENT_LENGTH]).None? then
      (UrlEncodedErr(UnknownLength), payload)
    else
      var len := if CONTENT_LENGTH in head.headers then ContentLengthValue(head.headers[CONTENT_LENGTH]) else None;
      (UrlEncoded(Some(payload), DEFAULT_URLENCODED_LIMIT, len, head.encoding.value, None, None), Empty)
  }

  /** A future fresh from `new` (and `limit`) can be polled: it holds an error or a stream. */
  lemma NewIsPollable(head: RequestHead, payload: Payload, limit: nat)
    ensures var u := New(head, payload).0.Limit(limit); u.fut == None && (u.err.Some? || u.stream.Some?)
  {
  }

  // ------------------------------------------------------------------------
  // Draining the body
  // ------------------------------------------------------------------------

  /**
   * The body-reading loop from a partial `body`: each chunk is appended whole
   * unless the running total would exceed `limit`, which aborts with
   * `Overflow`; a read error aborts with `Payload`.
   */
  function Accumulate(body: seq<byte>, items: seq<StreamItem>, limit: nat): Result<seq<byte>, UrlencodedError>
    decreases |items|
  {
    if items == [] then Ok(body)
    else match items[0]
      case Failed(e) => Err(Payload(e))
      case Chunk(c) =>
        if |body| + |c| > limit then Err(Overflow(|body| + |c|, limit))
        else Accumulate(body + c, items[1..], limit)
  }

  /** The chunk bytes of `items`, in order (read errors contribute nothing). */
  function Flatten(items: seq<StreamItem>): seq<byte>
    decreases |items|
  {
    if items == [] then []
    else (if items[0].Chunk? then items[0].data else []) + Flatten(items[1..])
  }

  predicate AllChunks(items: seq<StreamItem>)
  {
    forall i :: 0 <= i < |items| ==> items[i].Chunk?
  }

  /** Reading `a` then `b`: an error in `a` ends the drain; otherwise `b` is read from where `a` stopped. */
  lemma {:induction false} AccumulateAppend(body: seq<byte>, a: seq<StreamItem>, b: seq<StreamItem>, limit: nat)
    ensures Accumulate(body, a, limit).Err? ==> Accumulate(body, a + b, limit) == Accumulate(body, a, limit)
    ensures Accumulate(body, a, limit).Ok? ==> Accumulate(body, a + b, limit) == Accumulate(Accumulate(body, a, limit).value, b, limit)
    decreases |a|
  {
    if a == [] {
      assert a + b == b;
    } else {
      assert (a + b)[0] == a[0];
      assert (a + b)[1..] == a[1..] + b;
      match a[0]
      case Failed(e) =>
      case Chunk(c) =>
        if |body| + |c| <= limit {
          AccumulateAppend(body + c, a[1..], b, limit);
        }
    }
  }

  lemma {:induction false} FlattenAppend(a: seq<StreamItem>, b: seq<StreamItem>)
    ensures Flatten(a + b) == Flatten(a) + Flatten(b)
    decreases |a|
  {
    if a == [] {
      assert a + b == b;
    } else {
      assert (a + b)[0] == a[0];
      assert (a + b)[1..] == a[1..] + b;
      FlattenAppend(a[1..], b);
    }
  }

  /**
   * The drain succeeds exactly when every item is a chunk and the whole body
   * fits in the limit; it then returns all the chunks' bytes in order.
   */
  lemma {:induction false} AccumulateSucceeds(body: seq<byte>, items: seq<StreamItem>, limit: nat)
    requires |body| <= limit
    ensures Accumulate(body, items, limit).Ok? <==> AllChunks(items) && |body| + |Flatten(items)| <= limit
    ensures Accumulate(body, items, limit).Ok? ==> Accumulate(body, items, limit).value == body + Flatten(items)
    decreases |items|
  {
    if items != [] {
      match items[0]
      case Failed(e) =>
      case Chunk(c) =>
        if |body| + |c| <= limit {
          AccumulateSucceeds(body + c, items[1..], limit);
          assert body + c + Flatten(items[1..]) == body + Flatten(items);
          if AllChunks(items[1..]) {
            assert AllChunks(items) by {
              forall i | 0 <= i < |items| ensures items[i].Chunk? {
                if i > 0 { assert items[i] == items[1..][i - 1]; }
              }
            }
          }
        }
    }
  }

  /**
   * A stream delivered in two parts that drains successfully yields the
   * first part's bytes followed by the second part's.
   */
  lemma DrainConcatenates(a: seq<StreamItem>, b: seq<StreamItem>, limit: nat)
    requires Accumulate([], a + b, limit).Ok?
    ensures Accumulate([], a + b, limit).value == Flatten(a) + Flatten(b)
  {
    AccumulateSucceeds([], a + b, limit);
    FlattenAppend(a, b);
    assert [] + Flatten(a + b) == Flatten(a + b);
  }

  /** A successful drain never holds more than the limit. */
  lemma AccumulateBounded(items: seq<StreamItem>, limit: nat)
    ensures Accumulate([], items, limit).Ok? ==> |Accumulate([], items, limit).value| <= limit
  {
    AccumulateSucceeds([], items, limit);
  }

  /**
   * The first chunk that takes the running total past the limit ends the
   * drain with `Overflow` reporting that total; nothing after it is read.
   */
  lemma AccumulateOverflowAt(a: seq<StreamItem>, c: seq<byte>, rest: seq<StreamItem>, limit: nat)
    requires AllChunks(a) && |Flatten(a)| <= limit && |Flatten(a)| + |c| > limit
    ensures Accumulate([], a + [Chunk(c)] + rest, limit) == Err(Overflow(|Flatten(a)| + |c|, limit))
  {
    AccumulateSucceeds([], a, limit);
    assert a + [Chunk(c)] + rest == a + ([Chunk(c)] + rest);
    AccumulateAppend([], a, [Chunk(c)] + rest, limit);
    assert ([] + Flatten(a)) == Flatten(a);
  }

  /** A read error before the limit is reached ends the drain with that error; nothing after it is read. */
  lemma AccumulateFailsAt(a: seq<StreamItem>, e: PayloadError, rest: seq<StreamItem>, limit: nat)
    requires AllChunks(a) && |Flatten(a)| <= limit
    ensures Accumulate([], a + [Failed(e)] + rest, limit) == Err(Payload(e))
  {
    AccumulateSucceeds([], a, limit);
    assert a + [Failed(e)] + rest == a + ([Failed(e)] + rest);
    AccumulateAppend([], a, [Failed(e)] + rest, limit);
  }

  /**
   * A failed drain reports either an `Overflow` of a total above the limit or
   * a read error that the stream produced.
   */
  lemma {:induction false} AccumulateErrorShape(body: seq<byte>, items: seq<StreamItem>, limit: nat)
    ensures var r := Accumulate(body, items, limit);
            r.Err? ==> (r.error.Overflow? && r.error.limit == limit && r.error.size > limit) ||
                       (r.error.Payload? && Failed(r.error.cause) in items)
    decreases |items|
  {
    if items != [] && items[0].Chunk? && |body| + |items[0].data| <= limit {
      AccumulateErrorShape(body + items[0].data, items[1..], limit);
      var r := Accumulate(body + items[0].data, items[1..], limit);
      if r.Err? && r.error.Payload? {
        assert Failed(r.error.cause) in items[1..];
      }
    }
  }

  /** The body-reading loop of the `async` block in `poll`. */
  method Drain(stream: Payload, limit: nat) returns (r: Result<seq<byte>, UrlencodedError>)
    ensures r == Accumulate([], stream.Items(), limit)
    ensures r.Ok? ==> |r.value| <= limit
  {
    var items := stream.Items();
    var body: seq<byte> := [];
    var i := 0;
    while i < |items|
      invariant 0 <= i <= |items|
      invariant |body| <= limit
      invariant Accumulate([], items, limit) == Accumulate(body, items[i..], limit)
    {
      assert items[i..][1..] == items[i + 1..];
      match items[i]
      case Failed(e) =>
        return Err(Payload(e));
      case Chunk(chunk) =>
        if |body| + |chunk| > limit {
          return Err(Overflow(|body| + |chunk|, limit));
        }
        body := body + chunk;
      i := i + 1;
    }
    return Ok(body);
  }

  // ------------------------------------------------------------------------
  // Decoding, parsing and polling
  // ------------------------------------------------------------------------

  /**
   * The foreign decoders: `serde_urlencoded::from_bytes` and `from_str` into
   * the target type, and `encoding_rs` decoding without replacement.
   */
  datatype Codec<T> = Codec(
    fromBytes: seq<byte> -> Option<T>,
    fromStr: string -> Option<T>,
    decode: (Encoding, seq<byte>) -> Option<string>)

  /** The end of the `async` block: UTF-8 bodies are parsed as bytes, others decoded first. */
  function DecodeAndParse<T>(body: seq<byte>, encoding: Encoding, codec: Codec<T>): (r: Result<T, UrlencodedError>)
    ensures r.Err? ==> r.error == Parse
  {
    if encoding == Utf8 then
      match codec.fromBytes(body)
      case Some(t) => Ok(t)
      case None => Err(Parse)
    else
      match codec.decode(encoding, body)
      case None => Err(Parse)
      case Some(text) =>
        match codec.fromStr(text)
        case Some(t) => Ok(t)
        case None => Err(Parse)
  }

  /** What the `async` block resolves to. */
  function DrainFutureOutput<T>(f: DrainFuture, codec: Codec<T>): Result<T, UrlencodedError>
  {
    match Accumulate([], f.stream.Items(), f.limit)
    case Err(e) => Err(e)
    case Ok(body) => DecodeAndParse(body, f.encoding, codec)
  }

  /** Runs the `async` block to completion. */
  method RunDrainFuture<T>(f: DrainFuture, codec: Codec<T>) returns (r: Result<T, UrlencodedError>)
    ensures r == DrainFutureOutput(f, codec)
  {
    var body := Drain(f.stream, f.limit);
    match body
    case Err(e) =>
      r := Err(e);
    case Ok(b) =>
      r := DecodeAndParse(b, f.encoding, codec);
  }

  /**
   * What the first poll of a future resolves to: the stored error; else
   * `Overflow` when the declared length exceeds the limit; else the output of
   * the body-reading block.
   */
  function PollOutcome<T>(u: UrlEncoded, codec: Codec<T>): Result<T, UrlencodedError>
    requires u.err.Some? || u.stream.Some?
  {
    if u.err.Some? then Err(u.err.value)
    else if u.length.Some? && u.length.value > u.limit then Err(Overflow(u.length.value, u.limit))
    else DrainFutureOutput(DrainFuture(u.stream.value, u.limit, u.encoding), codec)
  }

  /** The fields after the first poll: taken `err`, taken `length`, and on the reading path taken `stream` and set `fut`. */
  function AfterPoll(u: UrlEncoded): UrlEncoded
    requires u.err.Some? || u.stream.Some?
  {
    if u.err.Some? then u.(err := None)
    else if u.length.Some? && u.length.value > u.limit then u.(length := None)
    else u.(length := None, stream := None, fut := Some(DrainFuture(u.stream.value, u.limit, u.encoding)))
  }

  /** The `UrlEncoded` future once pinned: `poll` updates its fields. */
  class UrlEncodedFuture {
    var inner: UrlEncoded

    constructor (u: UrlEncoded)
      ensures inner == u
    {
      inner := u;
    }

    /**
     * `poll`, resolved in one call (the model's stream never makes it wait).
     * It is the first poll (`fut` is unset) and there is a stored error or a
     * stream (the source's `unwrap` panics otherwise).
     */
    method Poll<T>(codec: Codec<T>) returns (r: Result<T, UrlencodedError>)
      requires inner.fut == None
      requires inner.err.Some? || inner.stream.Some?
      modifies this
      ensures r == PollOutcome(old(inner), codec)
      ensures inner == AfterPoll(old(inner))
    {
      if inner.err.Some? {
        r := Err(inner.err.value);
        inner := inner.(err := None);
        return;
      }
      var limit := inner.limit;
      if inner.length.Some? {
        var len := inner.length.value;
        inner := inner.(length := None);
        if len > limit {
          r := Err(Overflow(len, limit));
          return;
        }
      }
      var encoding := inner.encoding;
      var stream := inner.stream.value;
      inner := inner.(stream := None, fut := Some(DrainFuture(stream, limit, encoding)));
      r := RunDrainFuture(inner.fut.value, codec);
    }
  }

  /** A stored error is reported first, and the stream is not touched. */
  lemma StoredErrorFirst<T>(u: UrlEncoded, codec: Codec<T>)
    requires u.err.Some?
    ensures PollOutcome(u, codec) == Err(u.err.value)
    ensures AfterPoll(u).err == None && AfterPoll(u).stream == u.stream && AfterPoll(u).fut == u.fut
  {
  }

  /**
   * A declared length over the limit fails with `Overflow` of that length
   * whatever the stream holds, and the stream is not taken; a declared length
   * equal to the limit passes on to reading.
   */
  lemma DeclaredLengthChecked<T>(head: RequestHead, p1: Payload, p2: Payload, limit: nat, codec: Codec<T>)
    requires New(head, p1).0.err.None?
    ensures var u1 := New(head, p1).0.Limit(limit);
            var u2 := New(head, p2).0.Limit(limit);
            u1.length.Some? && u1.length.value > limit ==>
              PollOutcome(u1, codec) == PollOutcome(u2, codec) == Err(Overflow(u1.length.value, limit)) &&
              AfterPoll(u1).stream == Some(p1)
    ensures var u1 := New(head, p1).0.Limit(limit);
            u1.length == Some(limit) ==>
              PollOutcome(u1, codec) == DrainFutureOutput(DrainFuture(p1, limit, u1.encoding), codec)
  {
  }

  // ------------------------------------------------------------------------
  // Form::from_request
  // ------------------------------------------------------------------------

  /** `Form<T>`: the extracted value. */
  datatype Form<T> = Form(value: T)

  /**
   * The outer error of `from_request`: the default conversion of the form
   * error, or what the configured handler made of the error and the request.
   */
  datatype FormError =
    | Converted(err: UrlencodedError)
    | Handled(handler: ErrorHandler, err: UrlencodedError, req: HttpRequest<AppDatum>)

  /** The error as `from_request` reports it. */
  function MapError(e: UrlencodedError, handler: Option<ErrorHandler>, req: HttpRequest<AppDatum>): FormError
  {
    match handler
    case Some(h) => Handled(h, e, req)
    case None => Converted(e)
  }

  /** What `Form::from_request` resolves to. */
  function FormOutcome<T>(req: HttpRequest<AppDatum>, payload: Payload, codec: Codec<T>): Result<Form<T>, FormError>
  {
    var (limit, handler) := ResolveConfig(req.appData);
    match PollOutcome(New(req.head, payload).0.Limit(limit), codec)
    case Ok(t) => Ok(Form(t))
    case Err(e) => Err(MapError(e, handler, req))
  }

  /**
   * `Form::from_request`: resolve the configuration, build and await the
   * future, map its error. Returns the outcome and the payload slot's new
   * content.
   */
  method FromRequest<T>(req: HttpRequest<AppDatum>, payload: Payload, codec: Codec<T>) returns (r: Result<Form<T>, FormError>, slot: Payload)
    ensures r == FormOutcome(req, payload, codec)
    ensures slot == New(req.head, payload).1
  {
    var (limit, handler) := ResolveConfig(req.appData);
    var (u, rest) := New(req.head, payload);
    slot := rest;
    var fut := new UrlEncodedFuture(u.Limit(limit));
    var res := fut.Poll(codec);
    match res
    case Ok(t) =>
      r := Ok(Form(t));
    case Err(e) =>
      r := Err(MapError(e, handler, req));
  }

  /**
   * The mapping `from_request` applies to the future's outcome: success is
   * wrapped in `Form`; an error goes to the configured handler together with
   * the request, or through the default conversion when there is none.
   */
  lemma FormOutcomeMapsResult<T>(req: HttpRequest<AppDatum>, payload: Payload, codec: Codec<T>)
    ensures var (limit, handler) := ResolveConfig(req.appData);
            var inner := PollOutcome(New(req.head, payload).0.Limit(limit), codec);
            var outer := FormOutcome(req, payload, codec);
            (outer.Ok? <==> inner.Ok?) &&
            (inner.Ok? ==> outer.value == Form(inner.value)) &&
            (inner.Err? && handler.Some? ==> outer.error == Handled(handler.value, inner.error, req)) &&
            (inner.Err? && handler.None? ==> outer.error == Converted(inner.error))
  {
  }

  /** A content type other than the form media type fails with `ContentType` and the payload stays in its slot. */
  lemma WrongContentTypeRejected<T>(req: HttpRequest<AppDatum>, payload: Payload, codec: Codec<T>)
    requires !IsFormContentType(req.head.contentType)
    ensures FormOutcome(req, payload, codec) == Err(MapError(ContentType, ResolveConfig(req.appData).1, req))
    ensures New(req.head, payload).1 == payload
  {
  }

  /**
   * A request that passes the header checks, with a declared length (if any)
   * and a body within the limit and no read error, yields exactly what parsing
   * the whole body gives.
   */
  lemma WellFormedRequestParsesBody<T>(req: HttpRequest<AppDatum>, payload: Payload, codec: Codec<T>)
    requires New(req.head, payload).0.err.None?
    requires var limit := ResolveConfig(req.appData).0;
             var len := New(req.head, payload).0.length;
             (len.Some? ==> len.value <= limit) &&
             AllChunks(payload.Items()) && |Flatten(payload.Items())| <= limit
    ensures var parsed := DecodeAndParse(Flatten(payload.Items()), req.head.encoding.value, codec);
            FormOutcome(req, payload, codec) ==
              match parsed
              case Ok(t) => Ok(Form(t))
              case Err(e) => Err(MapError(e, ResolveConfig(req.appData).1, req))
  {
    var limit := ResolveConfig(req.appData).0;
    AccumulateSucceeds([], payload.Items(), limit);
    assert [] + Flatten(payload.Items()) == Flatten(payload.Items());
  }

  /**
   * The declared length is only compared with the limit, never with the body:
   * a body longer than declared is read and parsed all the same.
   */
  lemma DeclaredLengthNotReconciled<T>(req: HttpRequest<AppDatum>, payload: Payload, codec: Codec<T>)
    requires New(req.head, payload).0.err.None?
    requires New(req.head, payload).0.length.Some?
    requires New(req.head, payload).0.length.value <= ResolveConfig(req.appData).0
    ensures FormOutcome(req, payload, codec) ==
            match DrainFutureOutput(DrainFuture(payload, ResolveConfig(req.appData).0, req.head.encoding.value), codec)
            case Ok(t) => Ok(Form(t))
            case Err(e) => Err(MapError(e, ResolveConfig(req.appData).1, req))
  {
  }
}
