/** The backend's error envelope: the `BaseError` hierarchy, its `toJSON`
    wire form, the `ErrorFactory` helpers, and the two Express handlers that
    turn any thrown value into an HTTP status and a JSON body.

    A handler's `res.status(s).json(b)` write is modelled as the returned
    `Response(s, b)`; `process.env.NODE_ENV` is the `env` parameter. */
module ErrorHandler {
  import opened Wrappers

  /** `process.env.NODE_ENV`: unset, or any string. */
  type NodeEnv = Option<string>

  predicate IsDevelopment(env: NodeEnv) {
    env == Some("development")
  }

  predicate IsProduction(env: NodeEnv) {
    env == Some("production")
  }

  /** Which constructor built a `BaseError` (the closed class hierarchy). */
  datatype ErrorClass = Base | Forbidden | NotFound | InternalServer

  /** A JavaScript value, as far as these handlers tell values apart: what
      `typeof` says of it, whether it is a `BaseError` instance, and for an
      `Error` its `message` and `stack`. */
  datatype JsValue =
    | Undefined
    | Null
      /** a boolean, number, string, bigint or symbol */
    | Primitive(text: string)
    | Function(source: string)
      /** any other object, arrays included */
    | PlainObject(text: string)
      /** an `Error` that is not a `BaseError` */
    | NativeError(message: string, stack: string)
    | AppError(err: BaseError)

  /** A `BaseError` instance: its readonly fields and the class that built it. */
  datatype BaseError = BaseError(
    cls: ErrorClass,
    statusCode: int,
    code: string,
    message: string,
    details: JsValue)

  /** `typeof v === "object"`, which holds of `null` too. */
  predicate TypeofIsObject(v: JsValue) {
    v.Null? || v.PlainObject? || v.NativeError? || v.AppError?
  }

  /** The guard of `toJSON`'s `details` spread. */
  predicate IsNonNullObject(v: JsValue) {
    TypeofIsObject(v) && v != Null
  }

  /** `isBaseError`: `instanceof BaseError`, which `JsValue` encodes as the
      `AppError` tag. Such an instance is a non-null object, so it would be
      kept as `details` if wrapped. */
  predicate IsBaseError(v: JsValue): (b: bool)
    ensures b <==> v.AppError?
    ensures b ==> IsNonNullObject(v)
  {
    v.AppError?
  }

  // ---------------------------------------------------------------------------
  // JSON bodies

  datatype Json = JString(s: string) | JNumber(n: int) | JAny(v: JsValue)

  datatype Member = Member(key: string, value: Json)

  /** A JSON object: its members in insertion order. */
  type JsonObject = seq<Member>

  predicate DistinctKeys(o: JsonObject) {
    forall i, j :: 0 <= i < j < |o| ==> o[i].key != o[j].key
  }

  predicate HasKey(o: JsonObject, key: string) {
    exists i :: 0 <= i < |o| && o[i].key == key
  }

  /** The value stored under `key`, if any. */
  function Lookup(o: JsonObject, key: string): Option<Json> {
    if o == [] then None
    else if o[0].key == key then Some(o[0].value)
    else Lookup(o[1..], key)
  }

  lemma {:induction false} LookupAt(o: JsonObject, i: int)
    requires DistinctKeys(o) && 0 <= i < |o|
    ensures Lookup(o, o[i].key) == Some(o[i].value)
  {
    if i > 0 {
      LookupAt(o[1..], i - 1);
    }
  }

  lemma {:induction false} LookupMissing(o: JsonObject, key: string)
    requires !HasKey(o, key)
    ensures Lookup(o, key) == None
  {
    if o != [] {
      assert o[0].key != key;
      assert !HasKey(o[1..], key) by {
        forall i | 0 <= i < |o[1..]| ensures o[1..][i].key != key {
          assert o[1..][i] == o[i + 1];
        }
      }
      LookupMissing(o[1..], key);
    }
  }

  /** The wire `ErrorEnvelope`: `{status: "error", code, message, details?}`
      with a string code and message and, if present, object details. */
  predicate IsErrorEnvelope(o: JsonObject) {
    && DistinctKeys(o)
    && (forall i :: 0 <= i < |o| ==> o[i].key in {"status", "code", "message", "details"})
    && Lookup(o, "status") == Some(JString("error"))
    && Lookup(o, "code").Some? && Lookup(o, "code").value.JString?
    && Lookup(o, "message").Some? && Lookup(o, "message").value.JString?
    && (Lookup(o, "details").Some? ==>
          Lookup(o, "details").value.JAny? && IsNonNullObject(Lookup(o, "details").value.v))
  }

  /** What `res.status(statusCode).json(body)` sends. */
  datatype Response = Response(status: int, body: JsonObject)

  // ---------------------------------------------------------------------------
  // BaseError.toJSON

  /** `BaseError.toJSON`: always `status: "error"` with the error's own code
      and message; a `details` member exactly when the details are a non-null
      object. */
  function ToJson(e: BaseError): (r: JsonObject)
    ensures IsErrorEnvelope(r)
    ensures Lookup(r, "code") == Some(JString(e.code))
    ensures Lookup(r, "message") == Some(JString(e.message))
    ensures HasKey(r, "details") <==> IsNonNullObject(e.details)
    ensures Lookup(r, "details") == if IsNonNullObject(e.details) then Some(JAny(e.details)) else None
  {
    var head := [Member("status", JString("error")), Member("code", JString(e.code)),
                 Member("message", JString(e.message))];
    var r := head + if IsNonNullObject(e.details) then [Member("details", JAny(e.details))] else [];
    LookupAt(r, 0);
    LookupAt(r, 1);
    LookupAt(r, 2);
    if IsNonNullObject(e.details) then
      LookupAt(r, 3);
      r
    else
      LookupMissing(r, "details");
      r
  }

  // ---------------------------------------------------------------------------
  // Subclass constructors

  const DefaultForbiddenMessage: string := "Only consultants can perform this action"
  const InternalErrorMessage: string := "An unexpected error occurred"

  /** `new BaseError(statusCode, code, message, details)`. */
  function NewBaseError(statusCode: int, code: string, message: string, details: JsValue): (e: BaseError)
    ensures e.cls == Base && e.statusCode == statusCode && e.details == details
    ensures Lookup(ToJson(e), "code") == Some(JString(code))
    ensures Lookup(ToJson(e), "message") == Some(JString(message))
    ensures HasKey(ToJson(e), "details") <==> IsNonNullObject(details)
  {
    BaseError(Base, statusCode, code, message, details)
  }

  /** `new ForbiddenError(message)`: an absent message takes the default. */
  function NewForbiddenError(message: Option<string>): (e: BaseError)
    ensures e.cls == Forbidden && e.statusCode == 403 && e.code == "FORBIDDEN"
    ensures message.None? ==> e.message == DefaultForbiddenMessage
    ensures message.Some? ==> e.message == message.value
    ensures !HasKey(ToJson(e), "details")
  {
    BaseError(Forbidden, 403, "FORBIDDEN", if message.Some? then message.value else DefaultForbiddenMessage, Undefined)
  }

  /** `new NotFoundError(resource)`: the message is the resource text itself. */
  function NewNotFoundError(resource: string): (e: BaseError)
    ensures e.cls == NotFound && e.statusCode == 404 && e.code == "NOT_FOUND"
    ensures Lookup(ToJson(e), "message") == Some(JString(resource))
    ensures !HasKey(ToJson(e), "details")
  {
    BaseError(NotFound, 404, "NOT_FOUND", resource, Undefined)
  }

  /** `new InternalServerError(error)`: a fixed status, code and message; the
      wrapped value is kept as details only in development mode. */
  function NewInternalServerError(env: NodeEnv, error: JsValue): (e: BaseError)
    ensures e.cls == InternalServer && e.statusCode == 500 && e.code == "INTERNAL_SERVER_ERROR"
    ensures e.message == InternalErrorMessage
    ensures !IsDevelopment(env) ==> !HasKey(ToJson(e), "details")
    ensures IsDevelopment(env) ==>
              Lookup(ToJson(e), "details") == if IsNonNullObject(error) then Some(JAny(error)) else None
  {
    BaseError(InternalServer, 500, "INTERNAL_SERVER_ERROR", InternalErrorMessage,
              if IsDevelopment(env) then error else Undefined)
  }

  // ---------------------------------------------------------------------------
  // ErrorFactory

  /** `ErrorFactory.forbidden(message?)`. */
  function FactoryForbidden(message: Option<string>): (e: BaseError)
    ensures e.statusCode == 403 && e.code == "FORBIDDEN"
    ensures message.None? ==> e.message == DefaultForbiddenMessage
    ensures message.Some? ==> e.message == message.value
  {
    NewForbiddenError(message)
  }

  /** `ErrorFactory.notFound(resource)`. */
  function FactoryNotFound(resource: string): (e: BaseError)
    ensures e.statusCode == 404 && e.code == "NOT_FOUND" && e.message == resource
  {
    NewNotFoundError(resource)
  }

  /** `ErrorFactory.internal(error?)`: an omitted argument is `undefined`. */
  function FactoryInternal(env: NodeEnv, error: Option<JsValue>): (e: BaseError)
    ensures e.statusCode == 500 && e.code == "INTERNAL_SERVER_ERROR" && e.message == InternalErrorMessage
    ensures error.None? || !IsDevelopment(env) ==> !HasKey(ToJson(e), "details")
    ensures error.Some? && IsDevelopment(env) ==>
              Lookup(ToJson(e), "details") == if IsNonNullObject(error.value) then Some(JAny(error.value)) else None
  {
    NewInternalServerError(env, if error.Some? then error.value else Undefined)
  }

  // ---------------------------------------------------------------------------
  // Handlers

  /** `handleError`: a `BaseError` answers with its own status and JSON; any
      other value is wrapped in an `InternalServerError` and answers 500. */
  function HandleError(env: NodeEnv, error: JsValue): (r: Response)
    ensures IsErrorEnvelope(r.body)
    ensures IsBaseError(error) ==> r == Response(error.err.statusCode, ToJson(error.err))
    ensures !IsBaseError(error) ==>
              && r.status == 500
              && Lookup(r.body, "code") == Some(JString("INTERNAL_SERVER_ERROR"))
              && Lookup(r.body, "message") == Some(JString(InternalErrorMessage))
              && (HasKey(r.body, "details") <==> IsDevelopment(env) && IsNonNullObject(error))
              && Lookup(r.body, "details") ==
                   if IsDevelopment(env) && IsNonNullObject(error) then Some(JAny(error)) else None
    ensures !IsBaseError(error) ==> r == Response(500, ToJson(NewInternalServerError(env, error)))
  {
    var baseError := if IsBaseError(error) then error.err else NewInternalServerError(env, error);
    Response(baseError.statusCode, ToJson(baseError))
  }

  /** The body `globalErrorHandler` builds for an error that is not a
      `BaseError`: status, statusCode, code, message and, in development, stack. */
  /** The only keys the generic 500 body of `globalErrorHandler` ever has. */
  const GenericBodyKeys: set<string> := {"status", "statusCode", "code", "message", "stack"}

  function InternalErrorBody(env: NodeEnv, message: string, stack: string): JsonObject {
    [Member("status", JString("error")),
     Member("statusCode", JNumber(500)),
     Member("code", JString("INTERNAL_SERVER_ERROR")),
     Member("message", JString(if IsProduction(env) then InternalErrorMessage else message))]
    + if IsDevelopment(env) then [Member("stack", JString(stack))] else []
  }

  /** `globalErrorHandler`, whose parameter is declared `Error | BaseError`.
      A `BaseError` answers with exactly its status and JSON; any other error
      answers 500, with the real message unless in production mode and a stack
      only in development mode. */
  function GlobalErrorHandler(env: NodeEnv, error: JsValue): (r: Response)
    requires error.NativeError? || error.AppError?
    ensures IsBaseError(error) ==> r == Response(error.err.statusCode, ToJson(error.err))
    ensures !IsBaseError(error) ==>
              && r.status == 500
              && DistinctKeys(r.body)
              && Lookup(r.body, "status") == Some(JString("error"))
              && Lookup(r.body, "statusCode") == Some(JNumber(500))
              && Lookup(r.body, "code") == Some(JString("INTERNAL_SERVER_ERROR"))
              && (Lookup(r.body, "message") == Some(JString(InternalErrorMessage)) <==>
                    IsProduction(env) || error.message == InternalErrorMessage)
              && Lookup(r.body, "message") == Some(JString(if IsProduction(env) then InternalErrorMessage else error.message))
              && (HasKey(r.body, "stack") <==> IsDevelopment(env))
              && (IsDevelopment(env) ==> Lookup(r.body, "stack") == Some(JString(error.stack)))
              && (forall i :: 0 <= i < |r.body| ==> r.body[i].key in GenericBodyKeys)
              && !HasKey(r.body, "details")
  {
    if error.AppError? then
      Response(error.err.statusCode, ToJson(error.err))
    else
      var body := InternalErrorBody(env, error.message, error.stack);
      LookupAt(body, 0);
      LookupAt(body, 1);
      LookupAt(body, 2);
      LookupAt(body, 3);
      if IsDevelopment(env) then
        LookupAt(body, 4);
        assert !HasKey(body, "details");
        Response(500, body)
      else
        LookupMissing(body, "stack");
        Response(500, body)
  }

  // ---------------------------------------------------------------------------
  // Properties relating the handlers

  /** Both handlers answer a `BaseError` identically, whatever the mode. */
  lemma HandlersAgreeOnBaseErrors(env: NodeEnv, e: BaseError)
    ensures HandleError(env, AppError(e)) == GlobalErrorHandler(env, AppError(e))
    ensures HandleError(env, AppError(e)).status == e.statusCode
  {
  }

  /** For an ordinary `Error` outside production mode the two handlers differ:
      `handleError` hides the message, `globalErrorHandler` shows it. */
  lemma HandlersDifferOutsideProduction(env: NodeEnv, message: string, stack: string)
    requires !IsProduction(env) && message != InternalErrorMessage
    ensures HandleError(env, NativeError(message, stack)).status ==
            GlobalErrorHandler(env, NativeError(message, stack)).status == 500
    ensures Lookup(HandleError(env, NativeError(message, stack)).body, "message") !=
            Lookup(GlobalErrorHandler(env, NativeError(message, stack)).body, "message")
  {
  }

  /** The generic 500 body of `globalErrorHandler` carries a `statusCode`
      member, so it is never the `ErrorEnvelope` shape that `toJSON` yields. */
  lemma GenericBodyIsNotErrorEnvelope(env: NodeEnv, message: string, stack: string)
    ensures !IsErrorEnvelope(GlobalErrorHandler(env, NativeError(message, stack)).body)
  {
    var body := GlobalErrorHandler(env, NativeError(message, stack)).body;
    assert body[1].key == "statusCode";
  }

  /** With `NODE_ENV` unset the generic handler shows the real message but no stack. */
  lemma UnsetModeShowsMessageWithoutStack(message: string, stack: string)
    ensures Lookup(GlobalErrorHandler(None, NativeError(message, stack)).body, "message") == Some(JString(message))
    ensures !HasKey(GlobalErrorHandler(None, NativeError(message, stack)).body, "stack")
  {
  }
}
