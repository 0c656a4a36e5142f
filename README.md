# actix-web form extractor and service envelope, in Dafny

This project models two parts of actix-web's request-processing layer and proves properties of them.

**The URL-encoded form extractor** (`src/types/form.rs`, module `Form`).
- `FormConfig` holds a body limit and an optional error handler.
- `UrlEncoded::new` checks three things, in this order: the lower-cased content type, the charset and the `Content-Length` header. Only when all three pass does it take the payload out of its slot.
- `UrlEncoded::poll` first returns any stored error. Next it checks the declared length against the limit. Only then does it drain the chunk stream into a buffer. The drain stops at the first chunk that would push the total past the limit, or at the first read error. Finally the buffer is decoded and parsed.
- `Form::from_request` resolves the limit and error handler from app data. It looks for a bare `FormConfig` first, then `web::Data<FormConfig>`, then falls back to the default. It maps errors through the handler when one is set.

The module `FormExamples` restates these unit tests of that file over the model: `test_form`, `test_urlencoded_error`, the first case of `test_urlencoded` and `test_with_config_in_data_wrapper`. It does not cover `test_responder`, because `respond_to` is not modelled. It also does not cover the `charset=utf-8` case of `test_urlencoded`, because stripping the media-type parameters happens in `HttpMessage::content_type`, outside the model.

**The service envelope** (`src/service.rs`, module `Service`).
- `ServiceRequest` holds a request handle and a payload slot. The slot can be taken (which leaves `Payload::None` behind), set, split off and rejoined.
- App data is layered. `app_data` scans the containers from the last to the first. `add_data_container` pushes a new innermost layer.
- `ServiceResponse` pairs a response with its request. `checked_expr` falls back to an error response for the same request.
- The `WebService` builder and `WebServiceImpl::register` decide the slash insertion, the name and the guard argument of the route they register.
- `ServiceFactoryWrapper::register` registers its factory at most once.

Modelling choices:
- Values the source passes around by value are datatypes.
- Objects the source updates in place are classes with `modifies` clauses: `ServiceRequest`, the `WebService` builder, `WebServiceImpl`, `ServiceFactoryWrapper`, the app configuration, and the pinned `UrlEncoded` future (`UrlEncodedFuture`).
- The `while let` drain loop and the reverse scan of `app_data` are methods with loops. Each is proved against a recursive specification function (`Accumulate`, `AppDataLookup`), and lemmas state what that function means.
- App data containers are `seq<map<TypeTag, V>>`. A type's name stands for its `TypeId`.
- The request's `uniquelyOwned` flag stands for `Rc::get_mut` succeeding.
- The stream is a finite sequence of chunk-or-error items (`Payload`).
- `serde_urlencoded` and `encoding_rs` are passed in as a `Codec` of functions.

## Model

| member | source | states |
|---|---|---|
| `Service.AppDataLookupNone` | src/service.rs:221-229 | the lookup finds nothing exactly when no container holds the type |
| `Service.AppDataLookupInnermost` | src/service.rs:221-229 | when container i holds the type and no later one does, the lookup returns container i's value |
| `Service.AppDataShadowing` | src/service.rs:238-243 | after a container is pushed at the end, it answers for every type it holds; every other type is looked up as before |
| `Service.ServiceRequest.AppData` | src/service.rs:221-229 | the backward scan with early return yields exactly the layered lookup |
| `Service.ServiceRequest.New` | src/service.rs:62-64 | the request holds the given handle and payload |
| `Service.ServiceRequest.FromParts` | src/service.rs:75-77 | infallible; holds the given handle and payload |
| `Service.ServiceRequest.FromRequest` | src/service.rs:82-87 | holds the handle, and the payload slot is `Payload::None` |
| `Service.ServiceRequest.IntoParts` | src/service.rs:68-70 | returns the handle and payload unchanged |
| `Service.PartsRoundTrip` | src/service.rs:68-77 | `from_parts(into_parts(r))` has the same handle and payload as `r` |
| `Service.ServiceRequest.QueryString` | src/service.rs:154-160 | `""` when the URI has no query, otherwise the query |
| `Service.ServiceRequest.SetPayload` | src/service.rs:232-234 | the payload is replaced and the handle is unchanged |
| `Service.ServiceRequest.TakePayload` | src/service.rs:274-276 | returns the old payload, leaves `Payload::None`, and the handle is unchanged |
| `Service.TakePayloadTwice` | src/service.rs:274-276 | a second take returns `Payload::None` |
| `Service.ServiceRequest.AddDataContainer` | src/service.rs:238-243 | requires the handle to be uniquely owned; appends exactly one container at the end, which then answers first for its types while every other lookup is unchanged; the payload is untouched |
| `Service.ServiceRequest.IntoResponse` | src/service.rs:91-93 | the response answers this request's handle |
| `Service.ServiceRequest.ErrorResponse` | src/service.rs:97-100 | the response answers this request and carries the error and its status |
| `Service.FromErr` | src/service.rs:314-321 | the response answers the given request and carries the error and its status |
| `Service.ServiceResponse.ErrorResponse` | src/service.rs:325-327 | the request is kept; the response carries the error and its status |
| `Service.ServiceResponse.IntoResponse` | src/service.rs:331-333 | the request is kept and the response replaced |
| `Service.ServiceResponse.MapBody` | src/service.rs:394-404 | the request and the attached error are kept; head and body are what the closure made of them |
| `Service.ServiceResponse.CheckedExpr` | src/service.rs:372-384 | on `Ok`, the mutated response; on `Err`, a response carrying that error for the same request |
| `Service.CheckedExprKeepsRequest` | src/service.rs:372-384 | if the closure leaves the request alone, the result answers the original request on both paths |
| `Service.RouteFor` | src/service.rs:522-529 | `insert_slash` is applied iff the scope is the root or the pattern list is non-empty; the name is copied when set |
| `Service.GuardsArgument` | src/service.rs:517-521 | the guard argument is `None` exactly when the guard list is empty, and otherwise is the list itself |
| `Service.WebService.New` | src/service.rs:439-445 | the builder starts with the given patterns, no name and no guards |
| `Service.WebService.Name` | src/service.rs:450-453 | sets the name and changes nothing else |
| `Service.WebService.Guard` | src/service.rs:473-476 | appends the guard after those already added; nothing else changes |
| `Service.WebService.Finish` | src/service.rs:479-496 | a fresh service that carries the factory, patterns, name and guards |
| `Service.WebServiceImpl.Register` | src/service.rs:516-531 | registers exactly one route whose definition, guard argument and factory are given by `RouteFor` and `GuardsArgument`; the guards are moved out |
| `Service.ServiceFactoryWrapper.constructor` | src/service.rs:33-38 | the wrapper holds the factory |
| `Service.ServiceFactoryWrapper.Register` | src/service.rs:45-49 | registers the held factory if there is one and leaves the wrapper empty |
| `Service.RegisterTwice` | src/service.rs:45-49 | registering twice registers the factory exactly once |
| `Form.FormConfig.Limit` | src/types/form.rs:209-212 | the limit is replaced and the handler kept |
| `Form.FormConfig.WithErrorHandler` | src/types/form.rs:215-221 | the handler is set and the limit kept |
| `Form.DefaultFormConfig` | src/types/form.rs:224-231 | the default limit is 16384 with no handler |
| `Form.LookupWellTyped` | src/types/form.rs:133-138 | in containers keyed by type, a value found for a configuration type is a configuration of that type |
| `Form.ResolveConfigOrder` | src/types/form.rs:133-140 | a bare `FormConfig` wins, then `Data<FormConfig>`, then `(16384, None)` |
| `Form.ToLowerMatches` | src/types/form.rs:258 | lower-casing and then comparing with a lower-case target is a case-insensitive, character-by-character comparison |
| `Form.FormContentTypeCaseInsensitive` | src/types/form.rs:258-260 | the content type passes exactly when it equals `application/x-www-form-urlencoded` up to letter case |
| `Form.HeaderToStr` | src/types/form.rs:268 | header text exists exactly when every byte is visible ASCII or a tab, and it has the same characters |
| `Form.AsciiHeaderText` | src/types/form.rs:268 | a header value made of visible ASCII text converts to exactly that text |
| `Form.ParseUsize` | src/types/form.rs:269 | an accepted number fits in a 64-bit `usize` and is an optional `+` followed by digits |
| `Form.DecimalStringValue` | src/types/form.rs:269 | the decimal notation of `n` is a non-empty digit string whose value is `n` |
| `Form.ParseUsizeRoundTrip` | src/types/form.rs:269-270 | every `usize` written in decimal parses back to itself |
| `Form.ParseUsizeRejectsNonDigits` | src/types/form.rs:269-273 | text that does not start with a digit or `+` does not parse |
| `Form.UrlEncodedErr` | src/types/form.rs:294-303 | an error future has the error stored, no stream, no length, UTF-8 and limit 32768 |
| `Form.New` | src/types/form.rs:256-292 | `ContentType` for a wrong media type, or, failing that, for an unresolved charset; `UnknownLength` exactly when the header is present but not a `usize`; success exactly when all three checks pass; on error the payload stays in its slot; on success it is taken (slot left empty), the limit is 32768 and the length is the parsed header or absent |
| `Form.UrlEncoded.Limit` | src/types/form.rs:306-309 | the limit is replaced and every other field kept |
| `Form.NewIsPollable` | src/types/form.rs:284-303 | a future built by `new` (and `limit`) holds an error or a stream, so the `unwrap` in `poll` cannot fail |
| `Form.AccumulateAppend` | src/types/form.rs:343-354 | reading a stream in two parts: an error in the first part ends the drain; otherwise the second part continues from the first part's body |
| `Form.AccumulateSucceeds` | src/types/form.rs:343-354 | the drain succeeds iff every item is a chunk and the total fits in the limit; it then returns all chunk bytes in order |
| `Form.DrainConcatenates` | src/types/form.rs:343-354 | a stream delivered in two parts that drains successfully yields the first part's bytes followed by the second's |
| `Form.AccumulateBounded` | src/types/form.rs:343-354 | a successful body never exceeds the limit |
| `Form.AccumulateOverflowAt` | src/types/form.rs:346-350 | the first chunk that takes the running total past the limit yields `Overflow` with that total and the limit |
| `Form.AccumulateFailsAt` | src/types/form.rs:343-344 | a read error before the limit is reached is propagated, and nothing after it is read |
| `Form.AccumulateErrorShape` | src/types/form.rs:343-354 | every drain failure is either an `Overflow` of a total above the limit or a read error that the stream produced |
| `Form.Drain` | src/types/form.rs:341-354 | the loop computes the specified drain, and a successful body is within the limit |
| `Form.DecodeAndParse` | src/types/form.rs:356-365 | every decoding or parsing failure is `Parse` |
| `Form.RunDrainFuture` | src/types/form.rs:340-366 | the body-reading block resolves to the drain followed by decode and parse |
| `Form.UrlEncodedFuture.Poll` | src/types/form.rs:318-371 | the first poll resolves to the stored error, else to `Overflow` when the declared length exceeds the limit, else to the body-reading block; `err`, `length` and `stream` are taken as the source takes them, and `fut` is set |
| `Form.StoredErrorFirst` | src/types/form.rs:323-325 | a stored error is returned first, and the stream and future are untouched |
| `Form.DeclaredLengthChecked` | src/types/form.rs:328-333 | a declared length over the limit yields `Overflow` of that length whatever the stream holds, and the stream is not taken; a declared length equal to the limit passes on to reading |
| `Form.FromRequest` | src/types/form.rs:131-152 | resolves the configuration, builds and awaits the future with that limit, and maps its outcome; the payload slot ends as `new` leaves it |
| `Form.FormOutcomeMapsResult` | src/types/form.rs:144-150 | success is wrapped in `Form`; an error goes to the handler with the request, or through the default conversion when there is no handler |
| `Form.WrongContentTypeRejected` | src/types/form.rs:258-260 | a wrong media type fails with `ContentType` and the payload stays in its slot |
| `Form.WellFormedRequestParsesBody` | src/types/form.rs:343-365 | with valid headers, a declared length within the limit, no read error and a body within the limit, the outcome is the parse of the whole body |
| `Form.DeclaredLengthNotReconciled` | src/types/form.rs:328-354 | once the declared length is within the limit, the outcome depends on the stream alone; the length is never compared with the body |
| `FormExamples.UnparsableLengthIsUnknown` | src/types/form.rs:423-428 | a `Content-Length` of `xxxx` is `UnknownLength` |
| `FormExamples.LargeDeclaredLengthOverflows` | src/types/form.rs:430-438 | a declared length of 1000000 against the default 32768 is `Overflow(1000000, 32768)` |
| `FormExamples.TextPlainRejected` | src/types/form.rs:440-445 | `text/plain` is `ContentType` |
| `FormExamples.ShortDeclaredLengthStillReadsBody` | src/types/form.rs:392-408 | through `Form::from_request` (limit 16384), a declared 11 with a 23-byte body reads and parses the whole body |
| `FormExamples.ShortDeclaredLengthUrlEncoded` | src/types/form.rs:449-463 | awaiting `UrlEncoded::new` directly (limit 32768, declared length 11), a 23-byte body is read and parsed whole |
| `FormExamples.DataWrappedConfigApplies` | src/types/form.rs:503-519 | a `Data<FormConfig>` with limit 10 turns a declared 20 into `Overflow(20, 10)` |

## Left out

- `content_type` and `encoding` are provided by the `HttpMessage` trait of the actix-http crate, which is not part of this model. Their results are inputs in `RequestHead` (`contentType` is the media type without parameters; `encoding` is `None` when the charset is unknown).
- `str::to_lowercase` is modelled on ASCII letters only. Unicode case mapping is not modelled.
- `usize` is taken to be 64 bits wide.
- `serde_urlencoded` and `encoding_rs` are foreign libraries. They are the functions of a `Codec` parameter.
- `Form`'s `Responder::respond_to` (serialise the value, then build a 200 response with content type `application/x-www-form-urlencoded` and the serialised body, or an error response when serialisation fails) is not modelled.
- The `compress` feature's `Decompress` wrapper is taken as a pass-through.
- Form.UrlEncodedFuture.Poll: the model's stream never returns `Pending`, so the first poll runs to completion. The branch that re-polls a stored `fut` (lines 319-321) is not modelled, and `Poll` requires that no future is stored yet.
- Form.FormError: the handler's result and the default conversion to an actix `Error` are kept symbolic (`Handled`, `Converted`). The rendered error text is not modelled.
- `Form::into_inner`, `Deref`, `DerefMut`, `Display` and `Debug` are plain delegation and are not modelled.
- `ServiceRequest`'s accessors that only return a field of the request head (`head`, `uri`, `method`, `version`, `headers`, `path`, `peer_addr`) are not modelled; `RequestHead` keeps those fields.
- `ServiceRequest::match_info` returns the handle's path parameters; it is not modelled, and the parameters are kept in `HttpRequest.matchInfo`.
- Headers are a map holding one value per header name. actix's `HeaderMap` can hold several values for one name, and `headers().get(&CONTENT_LENGTH)` reads the first; the model's single value stands for that first value.
- `connection_info` depends on configuration types that are not part of this model. `extensions`/`extensions_mut` are `RefCell` borrows. Neither is modelled.
- `ServiceResponse`'s header accessors, `take_body`, the `From<ServiceResponse>` conversion and the `Debug` output of both envelopes are not modelled.
- Router internals are abstract: `ResourceDef` records the patterns, whether `insert_slash` was applied, and the name. Guard evaluation, and what `register_service` does beyond recording the route, are not modelled.
- Service.ServiceRequest.AddDataContainer: the source panics when the handle is shared; the model requires `uniquelyOwned` instead.
- The doc comment on `UrlEncoded::limit` (src/types/form.rs:305) gives a 256kB default. The model follows the code, which uses 32768.
