/**
 * The service envelope of src/service.rs: the layered app data lookup,
 * `ServiceRequest` (a request handle plus an owned payload slot),
 * `ServiceResponse`, the `WebService` builder with its registration, and
 * `ServiceFactoryWrapper`.
 */
module Service {
  import opened Wrappers
  import opened Http

  // ------------------------------------------------------------------------
  // Layered app data
  // ------------------------------------------------------------------------

  /**
   * What `app_data` finds for the type `tag` in `containers` (outermost
   * first): the value held by the last container that holds the type.
   */
  function AppDataLookup<V>(containers: seq<map<TypeTag, V>>, tag: TypeTag): Option<V>
    decreases |containers|
  {
    if containers == [] then None
    else if tag in containers[|containers| - 1] then Some(containers[|containers| - 1][tag])
    else AppDataLookup(containers[..|containers| - 1], tag)
  }

  /** Container `i` holds `tag` and no later (more inner) container does. */
  ghost predicate InnermostHolder<V>(containers: seq<map<TypeTag, V>>, tag: TypeTag, i: int)
  {
    0 <= i < |containers| && tag in containers[i] &&
    forall j :: i < j < |containers| ==> tag !in containers[j]
  }

  /** The lookup finds nothing exactly when no container holds the type. */
  lemma {:induction false} AppDataLookupNone<V>(containers: seq<map<TypeTag, V>>, tag: TypeTag)
    ensures AppDataLookup(containers, tag).None? <==> forall i :: 0 <= i < |containers| ==> tag !in containers[i]
    decreases |containers|
  {
    if containers != [] {
      var n := |containers| - 1;
      AppDataLookupNone(containers[..n], tag);
      assert forall i :: 0 <= i < n ==> containers[..n][i] == containers[i];
    }
  }

  /** The lookup returns the value of the innermost container holding the type. */
  lemma {:induction false} AppDataLookupInnermost<V>(containers: seq<map<TypeTag, V>>, tag: TypeTag, i: int)
    requires InnermostHolder(containers, tag, i)
    ensures AppDataLookup(containers, tag) == Some(containers[i][tag])
    decreases |containers|
  {
    var n := |containers| - 1;
    if i < n {
      assert tag !in containers[n];
      var prefix := containers[..n];
      assert forall j :: 0 <= j < n ==> prefix[j] == containers[j];
      assert InnermostHolder(prefix, tag, i);
      AppDataLookupInnermost(prefix, tag, i);
    }
  }

  /**
   * A container pushed at the end is consulted first: it answers for every type
   * it holds, and every other type is looked up as before.
   */
  lemma AppDataShadowing<V>(containers: seq<map<TypeTag, V>>, c: map<TypeTag, V>, tag: TypeTag)
    ensures AppDataLookup(containers + [c], tag) ==
            if tag in c then Some(c[tag]) else AppDataLookup(containers, tag)
  {
    assert (containers + [c])[..|containers|] == containers;
  }

  // ------------------------------------------------------------------------
  // ServiceRequest
  // ------------------------------------------------------------------------

  /** A request flowing through the dispatch chain: the handle and its payload slot. */
  class ServiceRequest<V> {
    var req: HttpRequest<V>
    var payload: Payload

    /** `ServiceRequest::new`. */
    constructor New(req: HttpRequest<V>, payload: Payload)
      ensures this.req == req && this.payload == payload
    {
      this.req := req;
      this.payload := payload;
    }

    /** `ServiceRequest::from_parts`: infallible, takes the parts as they are. */
    constructor FromParts(req: HttpRequest<V>, payload: Payload)
      ensures this.req == req && this.payload == payload
    {
      this.req := req;
      this.payload := payload;
    }

    /** `ServiceRequest::from_request`: the new request has no payload. */
    constructor FromRequest(req: HttpRequest<V>)
      ensures this.req == req && this.payload == Empty
    {
      this.req := req;
      this.payload := Empty;
    }

    /** `ServiceRequest::into_parts`: the handle and the payload, unchanged. */
    method IntoParts() returns (req': HttpRequest<V>, payload': Payload)
      ensures req' == req && payload' == payload
    {
      req', payload' := req, payload;
    }

    /** The query part of the URI, or the empty string when there is none. */
    function QueryString(): (q: string)
      reads this
      ensures req.head.uri.query.None? ==> q == ""
      ensures req.head.uri.query.Some? ==> q == req.head.uri.query.value
    {
      match req.head.uri.query
      case Some(query) => query
      case None => ""
    }

    /** `app_data::<T>`: scan the containers from the last to the first; the first hit wins. */
    method AppData(tag: TypeTag) returns (r: Option<V>)
      ensures r == AppDataLookup(req.appData, tag)
    {
      var containers := req.appData;
      var i := |containers|;
      assert containers[..i] == containers;
      while i > 0
        invariant 0 <= i <= |containers|
        invariant AppDataLookup(containers, tag) == AppDataLookup(containers[..i], tag)
      {
        i := i - 1;
        assert containers[..i + 1][..i] == containers[..i];
        if tag in containers[i] {
          return Some(containers[i][tag]);
        }
      }
      return None;
    }

    /** `set_payload`: replace the payload; the handle is untouched. */
    method SetPayload(p: Payload)
      modifies this
      ensures payload == p && req == old(req)
    {
      payload := p;
    }

    /** `take_payload`: hand over the payload and leave `Payload::None` behind. */
    method TakePayload() returns (p: Payload)
      modifies this
      ensures p == old(payload) && payload == Empty && req == old(req)
    {
      p := payload;
      payload := Empty;
    }

    /**
     * `add_data_container`: push one container at the end of the handle's
     * resolution set, which makes it the first consulted. `Rc::get_mut` must
     * succeed (the source panics otherwise).
     */
    method AddDataContainer(c: map<TypeTag, V>)
      requires req.uniquelyOwned
      modifies this
      ensures req == old(req).(appData := old(req.appData) + [c]) && payload == old(payload)
      ensures forall tag :: tag in c ==> AppDataLookup(req.appData, tag) == Some(c[tag])
      ensures forall tag :: tag !in c ==> AppDataLookup(req.appData, tag) == AppDataLookup(old(req.appData), tag)
    {
      req := req.(appData := req.appData + [c]);
      forall tag | true
        ensures AppDataLookup(req.appData, tag) ==
                if tag in c then Some(c[tag]) else AppDataLookup(old(req.appData), tag)
      {
        AppDataShadowing(old(req.appData), c, tag);
      }
    }

    /** `into_response`: a response for this request; the payload is dropped. */
    function IntoResponse<B>(res: Response<B>): (sr: ServiceResponse<V, B>)
      reads this
      ensures sr.request == req && sr.response == res
    {
      ServiceResponse(req, res)
    }

    /** `error_response`: the error rendered as the response to this request. */
    function ErrorResponse<B>(err: Error): (sr: ServiceResponse<V, B>)
      reads this
      ensures sr.request == req
      ensures sr.response.error == Some(err) && sr.response.head.status == err.status
    {
      ServiceResponse(req, IntoBody(ResponseFromError(err)))
    }
  }

  /** Splitting a request into its parts and joining them again gives back the same handle and payload. */
  method PartsRoundTrip<V>(sr: ServiceRequest<V>) returns (back: ServiceRequest<V>)
    ensures back.req == sr.req && back.payload == sr.payload
  {
    var req, payload := sr.IntoParts();
    back := new ServiceRequest.FromParts(req, payload);
  }

  /** Taking the payload twice: the first take hands it over, the second finds `Payload::None`. */
  method TakePayloadTwice<V>(sr: ServiceRequest<V>) returns (first: Payload, second: Payload)
    modifies sr
    ensures first == old(sr.payload) && second == Empty
    ensures sr.payload == Empty && sr.req == old(sr.req)
  {
    first := sr.TakePayload();
    second := sr.TakePayload();
  }

  // ------------------------------------------------------------------------
  // ServiceResponse
  // ------------------------------------------------------------------------

  /** A response together with the request it answers. */
  datatype ServiceResponse<V, B> = ServiceResponse(request: HttpRequest<V>, response: Response<B>)
  {
    /** `error_response`: the error rendered as the response; the request is kept. */
    function ErrorResponse(err: Error): (r: ServiceResponse<V, B>)
      ensures r.request == request
      ensures r.response.error == Some(err) && r.response.head.status == err.status
    {
      FromErr(err, request)
    }

    /** `into_response`: another response to the same request. */
    function IntoResponse<B1>(res: Response<B1>): (r: ServiceResponse<V, B1>)
      ensures r.request == request && r.response == res
    {
      ServiceResponse(request, res)
    }

    /** `map_body`: `f` rewrites head and body; the request and the attached error are kept. */
    function MapBody<B2>(f: (ResponseHead, ResponseBody<B>) -> (ResponseHead, ResponseBody<B2>)): (r: ServiceResponse<V, B2>)
      ensures r.request == request && r.response.error == response.error
      ensures (r.response.head, r.response.body) == f(response.head, response.body)
    {
      ServiceResponse(request, MapResponseBody(response, f))
    }

    /**
     * `checked_expr`: run `f` on the response (it returns the mutated response
     * and its outcome). On success the mutated response is the result; on
     * failure a fresh response is built from the error and the request.
     */
    function CheckedExpr(f: ServiceResponse<V, B> -> (ServiceResponse<V, B>, Result<(), Error>)): (r: ServiceResponse<V, B>)
      ensures f(this).1.Ok? ==> r == f(this).0
      ensures f(this).1.Err? ==> r.request == f(this).0.request && r.response.error == Some(f(this).1.error)
      ensures f(this).1.Err? ==> r.response.head.status == f(this).1.error.status
    {
      var (mutated, outcome) := f(this);
      match outcome
      case Ok(_) => mutated
      case Err(e) => FromErr(e, mutated.request)
    }
  }

  /** `ServiceResponse::from_err`: the error rendered as a response to `request`. */
  function FromErr<V, B>(err: Error, request: HttpRequest<V>): (r: ServiceResponse<V, B>)
    ensures r.request == request
    ensures r.response.error == Some(err) && r.response.head.status == err.status
  {
    ServiceResponse(request, IntoBody(ResponseFromError(err)))
  }

  /** When `f` leaves the request in place, `checked_expr` answers the original request on both paths. */
  lemma CheckedExprKeepsRequest<V, B>(sr: ServiceResponse<V, B>, f: ServiceResponse<V, B> -> (ServiceResponse<V, B>, Result<(), Error>))
    requires f(sr).0.request == sr.request
    ensures sr.CheckedExpr(f).request == sr.request
  {
  }

  // ------------------------------------------------------------------------
  // WebService and registration
  // ------------------------------------------------------------------------

  /** A boxed route guard (`Box<dyn Guard>`); evaluating it belongs to the router. */
  datatype BoxedGuard = BoxedGuard(name: string)

  /** A service factory handed over to the router. */
  datatype ServiceFactory = ServiceFactory(id: nat)

  /** The route definition given to the router: the patterns, whether `insert_slash` was applied, and the name. */
  datatype ResourceDef = ResourceDef(patterns: seq<string>, slashInserted: bool, name: string)

  /**
   * What the app configuration records: a route registered through
   * `register_service` (its nested resource map is always `None` here), or an
   * opaque `HttpServiceFactory` that registered itself.
   */
  datatype Registration =
    | Route(rdef: ResourceDef, guards: Option<seq<BoxedGuard>>, factory: ServiceFactory)
    | Factory(item: nat)

  /** `AppService`, reduced to whether it is the root scope and what was registered with it. */
  class AppService {
    const isRoot: bool
    var registrations: seq<Registration>

    constructor (isRoot: bool)
      ensures this.isRoot == isRoot && registrations == []
    {
      this.isRoot := isRoot;
      registrations := [];
    }

    /** `register_service`: record the route. */
    method RegisterService(rdef: ResourceDef, guards: Option<seq<BoxedGuard>>, factory: ServiceFactory)
      modifies this
      ensures registrations == old(registrations) + [Route(rdef, guards, factory)]
    {
      registrations := registrations + [Route(rdef, guards, factory)];
    }

    /** An opaque factory's own `register`. */
    method RegisterFactory(item: nat)
      modifies this
      ensures registrations == old(registrations) + [Factory(item)]
    {
      registrations := registrations + [Factory(item)];
    }
  }

  /**
   * The route definition `register` builds: `insert_slash` is applied when the
   * scope is the root or the pattern list is non-empty, and the name is copied
   * when one is set (a `ResourceDef` name is empty otherwise).
   */
  function RouteFor(isRoot: bool, rdef: seq<string>, name: Option<string>): (r: ResourceDef)
    ensures r.patterns == rdef
    ensures r.slashInserted <==> isRoot || rdef != []
    ensures name.Some? ==> r.name == name.value
    ensures name.None? ==> r.name == ""
  {
    ResourceDef(rdef, isRoot || |rdef| > 0, match name case Some(n) => n case None => "")
  }

  /** The guard argument of `register`: `None` exactly when there are no guards. */
  function GuardsArgument(guards: seq<BoxedGuard>): (r: Option<seq<BoxedGuard>>)
    ensures r.None? <==> guards == []
    ensures r.Some? ==> r.value == guards
  {
    if |guards| == 0 then None else Some(guards)
  }

  /** The `WebService` builder: path patterns, an optional name and guards in call order. */
  class WebService {
    var rdef: seq<string>
    var name: Option<string>
    var guards: seq<BoxedGuard>

    /** `WebService::new`: no name and no guards yet. */
    constructor New(patterns: seq<string>)
      ensures rdef == patterns && name == None && guards == []
    {
      rdef := patterns;
      name := None;
      guards := [];
    }

    /** `name`: set the service name; nothing else changes. */
    method Name(n: string)
      modifies this
      ensures name == Some(n) && rdef == old(rdef) && guards == old(guards)
    {
      name := Some(n);
    }

    /** `guard`: append one guard after those already added. */
    method Guard(g: BoxedGuard)
      modifies this
      ensures guards == old(guards) + [g] && rdef == old(rdef) && name == old(name)
    {
      guards := guards + [g];
    }

    /** `finish`: seal the builder with a service factory. */
    method Finish(srv: ServiceFactory) returns (s: WebServiceImpl)
      ensures fresh(s)
      ensures s.srv == srv && s.rdef == rdef && s.name == name && s.guards == guards
    {
      s := new WebServiceImpl(srv, rdef, name, guards);
    }
  }

  /** A finished `WebService`, ready to register. */
  class WebServiceImpl {
    var srv: ServiceFactory
    var rdef: seq<string>
    var name: Option<string>
    var guards: seq<BoxedGuard>

    constructor (srv: ServiceFactory, rdef: seq<string>, name: Option<string>, guards: seq<BoxedGuard>)
      ensures this.srv == srv && this.rdef == rdef && this.name == name && this.guards == guards
    {
      this.srv := srv;
      this.rdef := rdef;
      this.name := name;
      this.guards := guards;
    }

    /**
     * `register`: the guards are moved out (`mem::take`) and passed as `None`
     * when there are none; the route is registered with the app configuration.
     */
    method Register(config: AppService)
      modifies this, config
      ensures config.registrations ==
              old(config.registrations) + [Route(RouteFor(config.isRoot, old(rdef), old(name)), GuardsArgument(old(guards)), old(srv))]
      ensures guards == [] && srv == old(srv) && rdef == old(rdef) && name == old(name)
    {
      var gs := GuardsArgument(guards);
      guards := [];
      var def := RouteFor(config.isRoot, rdef, name);
      config.RegisterService(def, gs, srv);
    }
  }

  /** Holds a factory until it is registered. */
  class ServiceFactoryWrapper {
    var factory: Option<nat>

    constructor (item: nat)
      ensures factory == Some(item)
    {
      factory := Some(item);
    }

    /** `register`: the factory is taken out and registered; later calls register nothing. */
    method Register(config: AppService)
      modifies this, config
      ensures factory == None
      ensures config.registrations ==
              old(config.registrations) + (if old(factory).Some? then [Factory(old(factory).value)] else [])
    {
      if factory.Some? {
        var item := factory.value;
        factory := None;
        config.RegisterFactory(item);
      }
    }
  }

  /** Registering a wrapped factory twice registers it once. */
  method RegisterTwice(w: ServiceFactoryWrapper, config: AppService)
    requires w.factory.Some?
    modifies w, config
    ensures config.registrations == old(config.registrations) + [Factory(old(w.factory).value)]
  {
    w.Register(config);
    w.Register(config);
  }
}
