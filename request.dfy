/** The request handler each endpoint route ends with: the multipart
    merge, the three input validations, the handler call and the response
    validation.

    Request data is a small model of JavaScript values. Validation
    (`schema.validate`) and the endpoint's handler are supplied by the
    caller: each returns a value, or the error it throws. */
module Request {
  import opened Wrappers
  import opened Definitions

  /** A JavaScript value as far as the handler inspects it. */
  datatype Data =
    | Undef
    | Null
    | Prim(id: nat, truthy: bool)          // a string, number or boolean
    | Obj(props: map<string, Data>)

  type ErrorId = nat

  /** Why a request ends in an exception. */
  datatype Failure =
    | TypeError                            // a property read on `undefined` or `null`
    | Tagged(name: string, error: ErrorId) // a validation error, renamed by its phase
    | Thrown(error: ErrorId)               // the handler's own exception

  /** `schema.validate(input)`: the validated value, or what it throws. */
  type Validator = (Option<SchemaDecl>, Data) -> Result<Data, ErrorId>

  /** What a handler resolves to given params, query and body, or what it throws. */
  type HandlerSemantics = (HandlerId, Data, Data, Data) -> Result<Data, ErrorId>

  const ParamsTag := "ParamsValidationError"
  const QueryTag := "QueryValidationError"
  const BodyTag := "BodyValidationError"
  const ResTag := "ResValidationError"

  predicate Truthy(v: Data) {
    match v
    case Undef => false
    case Null => false
    case Prim(_, t) => t
    case Obj(_) => true
  }

  /** `v || {}`. */
  function OrEmpty(v: Data): (r: Data)
    ensures Truthy(r)
    ensures Truthy(v) ==> r == v
    ensures !Truthy(v) ==> r == Obj(map[])
  {
    if Truthy(v) then v else Obj(map[])
  }

  /** `v.key`: reading a property of `undefined` or `null` throws. */
  function Prop(v: Data, key: string): Result<Data, Failure> {
    match v
    case Undef => Err(TypeError)
    case Null => Err(TypeError)
    case Prim(_, _) => Ok(Undef)
    case Obj(m) => Ok(if key in m then m[key] else Undef)
  }

  /** The own properties `{ ...v }` copies. */
  function Own(v: Data): map<string, Data> {
    if v.Obj? then v.props else map[]
  }

  /** `/^multipart/.test(contentType)`. */
  predicate IsMultipart(contentType: string) {
    |contentType| >= 9 && contentType[..9] == "multipart"
  }

  /** `{ ...body.fields, ...body.files }`. */
  function MergeMultipart(body: Data): (r: Result<Data, Failure>)
    ensures r.Err? <==> body == Undef || body == Null
    ensures r.Err? ==> r.error == TypeError
    ensures r.Ok? ==> r.value.Obj?
  {
    match Prop(body, "fields")
    case Err(e) => Err(e)
    case Ok(fields) =>
      match Prop(body, "files")
      case Err(e) => Err(e)
      case Ok(files) => Ok(Obj(Own(fields) + Own(files)))
  }

  /** `validate(schema, input, errorName)`: a thrown error gets the phase's name. */
  function Validate(validate: Validator, schema: Option<SchemaDecl>, input: Data, tag: string): Result<Data, Failure> {
    match validate(schema, input)
    case Ok(v) => Ok(v)
    case Err(e) => Err(Tagged(tag, e))
  }

  /** The handler, or the default `async () => undefined`. */
  function CallHandler(handler: Option<HandlerId>, p: Data, q: Data, b: Data, handlers: HandlerSemantics): Result<Data, Failure> {
    if handler.None? then Ok(Undef)
    else
      match handlers(handler.value, p, q, b)
      case Ok(v) => Ok(v)
      case Err(e) => Err(Thrown(e))
  }

  /** Everything after the multipart merge: validate params, query and body
      in that order, call the handler with each falsy result replaced by
      `{}`, and validate what it resolves to. */
  function Respond(ep: Endpoint, params: Data, query: Data, body: Data,
                   validate: Validator, handlers: HandlerSemantics): Result<Data, Failure> {
    match Validate(validate, ep.params, params, ParamsTag)
    case Err(e) => Err(e)
    case Ok(p) =>
      match Validate(validate, ep.query, query, QueryTag)
      case Err(e) => Err(e)
      case Ok(q) =>
        match Validate(validate, ep.body, body, BodyTag)
        case Err(e) => Err(e)
        case Ok(b) =>
          match CallHandler(ep.handler, OrEmpty(p), OrEmpty(q), OrEmpty(b), handlers)
          case Err(e) => Err(e)
          case Ok(r) => Validate(validate, ep.res, r, ResTag)
  }

  /** The request body the handler sees: merged for a multipart request. */
  function EffectiveBody(contentType: string, body: Data): Result<Data, Failure> {
    if IsMultipart(contentType) then MergeMultipart(body) else Ok(body)
  }

  /** What one request does: the final request body and either the
      response body or the exception that ends the request. */
  datatype Outcome = Outcome(requestBody: Data, response: Result<Data, Failure>)

  function Serve(ep: Endpoint, contentType: string, params: Data, query: Data, body: Data,
                 validate: Validator, handlers: HandlerSemantics): Outcome {
    match EffectiveBody(contentType, body)
    case Err(e) => Outcome(body, Err(e))
    case Ok(b) => Outcome(b, Respond(ep, params, query, b, validate, handlers))
  }

  /** The part of Koa's `ctx` the handler reads and writes. */
  class Context {
    const contentType: string
    const params: Data
    const query: Data
    var requestBody: Data
    var body: Data

    constructor (contentType: string, params: Data, query: Data, requestBody: Data)
      ensures this.contentType == contentType && this.params == params && this.query == query
      ensures this.requestBody == requestBody && body == Undef
    {
      this.contentType := contentType;
      this.params := params;
      this.query := query;
      this.requestBody := requestBody;
      body := Undef;
    }
  }

  /** The final middleware of an endpoint route. `thrown` is the exception
      the request ends with; when there is one `ctx.body` is left as it was. */
  method HandleRequest(ep: Endpoint, ctx: Context, validate: Validator, handlers: HandlerSemantics)
    returns (thrown: Option<Failure>)
    modifies ctx
    ensures var o := Serve(ep, ctx.contentType, ctx.params, ctx.query, old(ctx.requestBody), validate, handlers);
      ctx.requestBody == o.requestBody &&
      (if o.response.Ok? then ctx.body == o.response.value && thrown == None
       else ctx.body == old(ctx.body) && thrown == Some(o.response.error))
  {
    if IsMultipart(ctx.contentType) {
      var fields := Prop(ctx.requestBody, "fields");
      if fields.Err? {
        return Some(fields.error);
      }
      var files := Prop(ctx.requestBody, "files");
      ctx.requestBody := Obj(Own(fields.value) + Own(files.value));
    }
    var p := Validate(validate, ep.params, ctx.params, ParamsTag);
    if p.Err? {
      return Some(p.error);
    }
    var q := Validate(validate, ep.query, ctx.query, QueryTag);
    if q.Err? {
      return Some(q.error);
    }
    var b := Validate(validate, ep.body, ctx.requestBody, BodyTag);
    if b.Err? {
      return Some(b.error);
    }
    var result := CallHandler(ep.handler, OrEmpty(p.value), OrEmpty(q.value), OrEmpty(b.value), handlers);
    if result.Err? {
      return Some(result.error);
    }
    var checked := Validate(validate, ep.res, result.value, ResTag);
    if checked.Err? {
      return Some(checked.error);
    }
    ctx.body := checked.value;
    return None;
  }

  // ---------------------------------------------------------------------------
  // Properties

  /** Files win over fields on a shared key, every other key keeps its
      value, and no key is added. */
  lemma MergeFilesWin(fields: map<string, Data>, files: map<string, Data>, rest: map<string, Data>)
    ensures var r := MergeMultipart(Obj(rest["fields" := Obj(fields)]["files" := Obj(files)]));
      r.Ok? && r.value.Obj? &&
      r.value.props.Keys == fields.Keys + files.Keys &&
      (forall k :: k in files ==> r.value.props[k] == files[k]) &&
      (forall k :: k in fields && k !in files ==> r.value.props[k] == fields[k])
  {
  }

  /** A body parsed without multipart fields or files merges to `{}`. */
  lemma MergeWithoutParts(m: map<string, Data>)
    requires "fields" !in m && "files" !in m
    ensures MergeMultipart(Obj(m)) == Ok(Obj(map[]))
  {
  }

  /** A non-multipart request's body is passed through untouched. */
  lemma NonMultipartUntouched(ep: Endpoint, contentType: string, params: Data, query: Data, body: Data,
                              validate: Validator, handlers: HandlerSemantics)
    requires !IsMultipart(contentType)
    ensures Serve(ep, contentType, params, query, body, validate, handlers).requestBody == body
  {
  }

  /** The test is a prefix match: a form upload's content type, with its
      boundary parameter, is multipart; a JSON body or a type that merely
      mentions multipart later on is not. */
  lemma MultipartContentTypes()
    ensures IsMultipart("multipart/form-data; boundary=x")
    ensures !IsMultipart("application/json")
    ensures !IsMultipart("text/multipart")
  {
    assert "multipart/form-data; boundary=x"[..9] == "multipart";
    assert "text/multipart"[0] != "multipart"[0];
  }

  /** A multipart request on a route whose body nobody parsed (any verb but
      `post`, without a parsing `pre` middleware) ends in a `TypeError`. */
  lemma UnparsedMultipartThrows(ep: Endpoint, contentType: string, params: Data, query: Data,
                                validate: Validator, handlers: HandlerSemantics)
    requires IsMultipart(contentType)
    ensures Serve(ep, contentType, params, query, Undef, validate, handlers) == Outcome(Undef, Err(TypeError))
  {
  }

  /** The first failing validation decides the error, tagged with its phase;
      a later phase is not consulted. */
  lemma FirstFailureWins(ep: Endpoint, params: Data, query: Data, body: Data,
                         validate: Validator, handlers: HandlerSemantics)
    ensures var r := Respond(ep, params, query, body, validate, handlers);
      (validate(ep.params, params).Err? ==>
         r == Err(Tagged(ParamsTag, validate(ep.params, params).error))) &&
      (validate(ep.params, params).Ok? && validate(ep.query, query).Err? ==>
         r == Err(Tagged(QueryTag, validate(ep.query, query).error))) &&
      (validate(ep.params, params).Ok? && validate(ep.query, query).Ok? && validate(ep.body, body).Err? ==>
         r == Err(Tagged(BodyTag, validate(ep.body, body).error)))
  {
  }

  /** When all three inputs validate, the handler gets the validated values
      with each falsy one replaced by `{}`, and the response is its result
      validated under `ResValidationError`; a failure of the handler itself
      passes through untagged. */
  lemma HandlerSeesValidated(ep: Endpoint, params: Data, query: Data, body: Data,
                             validate: Validator, handlers: HandlerSemantics)
    requires validate(ep.params, params).Ok? && validate(ep.query, query).Ok? && validate(ep.body, body).Ok?
    requires ep.handler.Some?
    ensures var p := OrEmpty(validate(ep.params, params).value);
      var q := OrEmpty(validate(ep.query, query).value);
      var b := OrEmpty(validate(ep.body, body).value);
      var h := handlers(ep.handler.value, p, q, b);
      Truthy(p) && Truthy(q) && Truthy(b) &&
      Respond(ep, params, query, body, validate, handlers)
        == (if h.Err? then Err(Thrown(h.error))
            else match validate(ep.res, h.value)
                 case Ok(v) => Ok(v)
                 case Err(e) => Err(Tagged(ResTag, e)))
  {
  }

  /** Without a handler the response is `undefined`, validated. */
  lemma DefaultHandler(ep: Endpoint, params: Data, query: Data, body: Data,
                       validate: Validator, handlers: HandlerSemantics)
    requires validate(ep.params, params).Ok? && validate(ep.query, query).Ok? && validate(ep.body, body).Ok?
    requires ep.handler.None?
    ensures Respond(ep, params, query, body, validate, handlers) == Validate(validate, ep.res, Undef, ResTag)
  {
  }

  /** After the merge, an error is one of the four validation tags or the
      handler's own, never a `TypeError`. */
  lemma RespondFailures(ep: Endpoint, params: Data, query: Data, body: Data,
                        validate: Validator, handlers: HandlerSemantics)
    ensures var r := Respond(ep, params, query, body, validate, handlers);
      r.Err? ==> r.error != TypeError && (r.error.Tagged? ==> r.error.name in {ParamsTag, QueryTag, BodyTag, ResTag})
  {
    var p := Validate(validate, ep.params, params, ParamsTag);
    var q := Validate(validate, ep.query, query, QueryTag);
    var b := Validate(validate, ep.body, body, BodyTag);
    if p.Ok? && q.Ok? && b.Ok? {
      var h := CallHandler(ep.handler, OrEmpty(p.value), OrEmpty(q.value), OrEmpty(b.value), handlers);
      if h.Ok? {
        assert Respond(ep, params, query, body, validate, handlers) == Validate(validate, ep.res, h.value, ResTag);
      }
    }
  }

  /** Every error a request ends with is a `TypeError` from the merge, one
      of the four validation tags, or the handler's own. */
  lemma FailureKinds(ep: Endpoint, contentType: string, params: Data, query: Data, body: Data,
                     validate: Validator, handlers: HandlerSemantics)
    ensures var o := Serve(ep, contentType, params, query, body, validate, handlers);
      o.response.Err? && o.response.error.Tagged? ==>
        o.response.error.name in {ParamsTag, QueryTag, BodyTag, ResTag}
    ensures var o := Serve(ep, contentType, params, query, body, validate, handlers);
      o.response == Err(TypeError) ==> IsMultipart(contentType) && (body == Undef || body == Null)
  {
    var eb := EffectiveBody(contentType, body);
    if eb.Ok? {
      RespondFailures(ep, params, query, eb.value, validate, handlers);
    }
  }
}
