/**
 * The scenarios of the unit tests in src/types/form.rs, stated over the model.
 */
module FormExamples {
  import opened Wrappers
  import opened Http
  import opened Form

  /** The header text of a decimal number parses back to the number. */
  lemma DecimalHeader(n: nat)
    requires n <= USIZE_MAX
    ensures ContentLengthValue(HeaderValue(AsciiBytes(DecimalString(n)))) == Some(n)
  {
    DecimalStringValue(n);
    AsciiHeaderText(DecimalString(n));
    ParseUsizeRoundTrip(n);
  }

  lemma MillionText()
    ensures DecimalString(1000000) == "1000000"
  {
    assert DecimalString(1) == "1";
    assert DecimalString(10) == "10";
    assert DecimalString(100) == "100";
    assert DecimalString(1000) == "1000";
    assert DecimalString(10000) == "10000";
    assert DecimalString(100000) == "100000";
  }

  /** A request head with the given media type, charset and optional `Content-Length` text. */
  function FormHead(contentType: string, encoding: Option<Encoding>, contentLength: Option<string>): RequestHead
  {
    RequestHead("GET", Uri("/", None), "HTTP/1.1",
                if contentLength.Some? then map[CONTENT_LENGTH := HeaderValue(AsciiBytes(contentLength.value))] else map[],
                None, contentType, encoding)
  }

  /** A request with no app data. */
  function Plain(head: RequestHead): HttpRequest<AppDatum>
  {
    HttpRequest(head, [], [], true)
  }

  lemma FormMediaTypeAccepted()
    ensures IsFormContentType(FORM_CONTENT_TYPE)
    ensures IsFormContentType("Application/X-WWW-Form-Urlencoded")
  {
    FormContentTypeCaseInsensitive("Application/X-WWW-Form-Urlencoded");
  }

  /** A `Content-Length` of `xxxx` is `UnknownLength`. */
  lemma UnparsableLengthIsUnknown(payload: Payload)
    ensures New(FormHead(FORM_CONTENT_TYPE, Some(Utf8), Some("xxxx")), payload).0.err == Some(UnknownLength)
  {
    FormMediaTypeAccepted();
    AsciiHeaderText("xxxx");
    ParseUsizeRejectsNonDigits("xxxx");
  }

  /** A declared length of 1000000 against the default 32768 is `Overflow`. */
  lemma LargeDeclaredLengthOverflows<T>(payload: Payload, codec: Codec<T>)
    ensures var u := New(FormHead(FORM_CONTENT_TYPE, Some(Utf8), Some("1000000")), payload).0;
            u.err.None? && PollOutcome(u, codec) == Err(Overflow(1000000, 32768))
  {
    FormMediaTypeAccepted();
    DecimalHeader(1000000);
    MillionText();
  }

  /** A `text/plain` request is `ContentType`, whatever its length. */
  lemma TextPlainRejected(payload: Payload)
    ensures New(FormHead("text/plain", Some(Utf8), Some("10")), payload).0.err == Some(ContentType)
  {
    assert ToLower("text/plain")[0] == 't';
  }

  /**
   * `Form::from_request` with a declared length of 11 and a 23-byte body:
   * the body is read whole and parsed, under the default limit of 16384.
   */
  lemma ShortDeclaredLengthStillReadsBody<T>(codec: Codec<T>)
    ensures var body := AsciiBytes("hello=world&counter=123");
            var req := Plain(FormHead(FORM_CONTENT_TYPE, Some(Utf8), Some("11")));
            FormOutcome(req, Stream([Chunk(body)]), codec) ==
              match codec.fromBytes(body)
              case Some(t) => Ok(Form(t))
              case None => Err(Converted(Parse))
  {
    FormMediaTypeAccepted();
    var body := AsciiBytes("hello=world&counter=123");
    var req := Plain(FormHead(FORM_CONTENT_TYPE, Some(Utf8), Some("11")));
    DecimalHeader(11);
    assert DecimalString(11) == "11";
    assert Service.AppDataLookup(req.appData, FORM_CONFIG_TYPE) == None;
    WellFormedRequestParsesBody(req, Stream([Chunk(body)]), codec);
    assert Flatten([Chunk(body)]) == body;
  }

  /**
   * `UrlEncoded::new` awaited directly, with a declared length of 11 and a
   * 23-byte body: the body is read whole and parsed, under the limit of 32768.
   */
  lemma ShortDeclaredLengthUrlEncoded<T>(codec: Codec<T>)
    ensures var body := AsciiBytes("hello=world&counter=123");
            var u := New(FormHead(FORM_CONTENT_TYPE, Some(Utf8), Some("11")), Stream([Chunk(body)])).0;
            u.limit == 32768 && u.length == Some(11) &&
            PollOutcome(u, codec) == match codec.fromBytes(body) case Some(t) => Ok(t) case None => Err(Parse)
  {
    FormMediaTypeAccepted();
    var body := AsciiBytes("hello=world&counter=123");
    DecimalHeader(11);
    assert DecimalString(11) == "11";
    AccumulateSucceeds([], [Chunk(body)], 32768);
    assert Flatten([Chunk(body)]) == body;
    assert [] + body == body;
  }

  /**
   * A `web::Data<FormConfig>` with limit 10 applies to a 20-byte request:
   * `Overflow(20, 10)`, converted by default.
   */
  lemma DataWrappedConfigApplies<T>(codec: Codec<T>)
    ensures var body := AsciiBytes("hello=test&counter=4");
            var head := FormHead(FORM_CONTENT_TYPE, Some(Utf8), Some("20"));
            var data := map[DATA_FORM_CONFIG_TYPE := DataFormConfigValue(DefaultFormConfig().Limit(10))];
            var req := HttpRequest(head, [], [data], true);
            FormOutcome(req, Stream([Chunk(body)]), codec) == Err(Converted(Overflow(20, 10)))
  {
    FormMediaTypeAccepted();
    DecimalHeader(20);
    assert DecimalString(20) == "20";
    var data := map[DATA_FORM_CONFIG_TYPE := DataFormConfigValue(DefaultFormConfig().Limit(10))];
    assert FORM_CONFIG_TYPE !in data;
    assert Service.AppDataLookup([data], FORM_CONFIG_TYPE) == None by {
      Service.AppDataLookupNone([data], FORM_CONFIG_TYPE);
    }
  }
}
