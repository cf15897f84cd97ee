/**
 * lib/api.ts: the request pipeline every backend call goes through. The request
 * interceptor attaches the bearer token and makes a GET supersede an identical
 * outstanding GET; the response interceptors release the GET's key, turn a
 * cancellation into a recognisable error, invalidate the session on 401/403 outside
 * public post reads, and choose the rejected error's message.
 */
module Api {
  import opened Wrappers
  import opened Strings
  import opened BrowserStorage
  import RequestTracker

  /** A `CancelTokenSource`, by identity. */
  type Handle = nat

  const CancelledMessage: string := "Request cancelled"
  const FallbackMessage: string := "요청 처리 중 오류가 발생했습니다."
  const PostApiPath: string := "/api/post"
  const LoginPath: string := "/login"
  const RegisterPath: string := "/register"

  /**
   * The part of an axios request config the interceptors read or write. `httpMethod`
   * is lower-case (axios normalises it before the interceptors run), a missing url is
   * the empty string, and `params` is the serialised query parameters, if any.
   */
  datatype RequestConfig = RequestConfig(
    httpMethod: string,
    url: string,
    params: Option<string>,
    authorization: Option<string>,
    cancelToken: Option<Handle>)

  /** A successful response; the payload is opaque. */
  datatype Response = Response(config: RequestConfig, status: int, data: string)

  /** `error.response` of an `AxiosError`: the status and the backend envelope's `message`, if any. */
  datatype ErrorResponse = ErrorResponse(status: int, message: Option<string>)

  /** What the error interceptor receives: a cancellation, or an `AxiosError`. */
  datatype TransportError = TransportError(
    isCancel: bool,
    config: Option<RequestConfig>,
    response: Option<ErrorResponse>,
    message: string)

  /** The `Error` the pipeline rejects with; `isCancel` is set only on a cancellation. */
  datatype RejectedError = RejectedError(message: string, isCancel: bool)

  /** `Bearer <token>` for a non-empty token; nothing for an absent or empty one. */
  function BearerHeader(token: Option<string>): (h: Option<string>)
    ensures h.Some? <==> token.Some? && token.value != ""
    ensures h.Some? ==> h.value == "Bearer " + token.value
  {
    if token.Some? && token.value != "" then Some("Bearer " + token.value) else None
  }

  /** The token a `Bearer` header carries: the inverse of BearerHeader. */
  function BearerToken(header: string): (token: Option<string>)
    ensures token.Some? ==> token.value != "" && header == "Bearer " + token.value
  {
    if "Bearer " <= header && |header| > 7 then Some(header[7..]) else None
  }

  lemma BearerRoundTrip(token: string)
    requires token != ""
    ensures BearerHeader(Some(token)).Some?
    ensures BearerToken(BearerHeader(Some(token)).value) == Some(token)
  {
    var h := "Bearer " + token;
    assert "Bearer " <= h;
    assert h[7..] == token;
  }

  /**
   * The dedup key of a GET: `method.toUpperCase()` is "GET" there. For a colon-free
   * url the key determines the url and the serialised params.
   */
  function GetKey(config: RequestConfig): (key: string)
    ensures ':' !in config.url ==>
              RequestTracker.ParseRequestKey(key) == Some(("GET", config.url, RequestTracker.ParamsString(config.params)))
  {
    var key := RequestTracker.CreateRequestKey("GET", config.url, config.params);
    if ':' in config.url then key
    else
      RequestTracker.ParseCreateRoundTrip("GET", config.url, config.params);
      key
  }

  /**
   * Two GETs to colon-free urls share a key, and so supersede each other, exactly
   * when they have the same url and the same serialised params.
   */
  lemma SameGetKey(c1: RequestConfig, c2: RequestConfig)
    requires ':' !in c1.url && ':' !in c2.url
    ensures GetKey(c1) == GetKey(c2)
            <==> c1.url == c2.url && RequestTracker.ParamsString(c1.params) == RequestTracker.ParamsString(c2.params)
  {
    RequestTracker.KeyInjective("GET", c1.url, c1.params, "GET", c2.url, c2.params);
  }

  /** The request map after a request with this config settles (not by cancellation). */
  function Released(requestMap: map<string, Handle>, config: RequestConfig): (r: map<string, Handle>)
    ensures config.httpMethod == "get" ==> GetKey(config) !in r && r.Keys == requestMap.Keys - {GetKey(config)}
    ensures config.httpMethod != "get" ==> r == requestMap
    ensures forall k | k in r :: k in requestMap && r[k] == requestMap[k]
  {
    if config.httpMethod == "get" then requestMap - {GetKey(config)} else requestMap
  }

  /** `error.response?.status` is 401 or 403. */
  predicate IsAuthFailure(response: Option<ErrorResponse>)
  {
    response.Some? && (response.value.status == 401 || response.value.status == 403)
  }

  /** `isPublicPostAPI`: a GET whose url contains "/api/post". */
  function IsPublicPostRead(config: Option<RequestConfig>): (b: bool)
    ensures b <==> config.Some? && config.value.httpMethod == "get"
                   && exists i: nat :: OccursAt(config.value.url, PostApiPath, i)
  {
    config.Some? && Includes(config.value.url, PostApiPath) && config.value.httpMethod == "get"
  }

  /** A non-cancelled 401/403 outside a public post read invalidates the session. */
  function Invalidates(error: TransportError): (b: bool)
    ensures error.isCancel ==> !b
    ensures !IsAuthFailure(error.response) ==> !b
    ensures IsPublicPostRead(error.config) ==> !b
    ensures !error.isCancel && IsAuthFailure(error.response) && !IsPublicPostRead(error.config) ==> b
  {
    !error.isCancel && IsAuthFailure(error.response) && !IsPublicPostRead(error.config)
  }

  /** The redirect to the login view is skipped on the login and register views. */
  function ShouldRedirect(path: string): (b: bool)
    ensures b <==> (forall i: nat :: !OccursAt(path, LoginPath, i)) && (forall i: nat :: !OccursAt(path, RegisterPath, i))
  {
    !Includes(path, LoginPath) && !Includes(path, RegisterPath)
  }

  /** A 401/403 on a GET whose url contains "/api/post" never invalidates the session. */
  lemma PublicPostReadNeverInvalidates(error: TransportError)
    requires error.config.Some? && error.config.value.httpMethod == "get"
    requires exists i: nat :: OccursAt(error.config.value.url, PostApiPath, i)
    ensures !Invalidates(error)
  {
  }

  /** Any status other than 401/403, or no response at all, never invalidates the session. */
  lemma OtherFailuresNeverInvalidate(error: TransportError)
    requires error.response.None? || (error.response.value.status != 401 && error.response.value.status != 403)
    ensures !Invalidates(error)
  {
  }

  /** A 401/403 on any non-GET request, whatever its url, invalidates the session. */
  lemma WritesInvalidate(error: TransportError)
    requires !error.isCancel && IsAuthFailure(error.response)
    requires error.config.Some? && error.config.value.httpMethod != "get"
    ensures Invalidates(error)
  {
  }

  /** `error.response?.data?.message`. */
  function BackendMessage(response: Option<ErrorResponse>): (message: Option<string>)
    ensures response.None? ==> message.None?
    ensures response.Some? ==> message == response.value.message
  {
    if response.Some? then response.value.message else None
  }

  /**
   * `backend || transport || fallback`: the first non-empty of the backend's message
   * and the transport's message, else the fixed fallback; never empty.
   */
  function ErrorMessage(backend: Option<string>, transport: string): (m: string)
    ensures m != ""
    ensures backend.Some? && backend.value != "" ==> m == backend.value
    ensures (backend.None? || backend.value == "") && transport != "" ==> m == transport
    ensures (backend.None? || backend.value == "") && transport == "" ==> m == FallbackMessage
  {
    if backend.Some? && backend.value != "" then backend.value
    else if transport != "" then transport
    else FallbackMessage
  }

  /** How a dispatched request settles, as the transport reports it. */
  datatype Settlement = Delivered(status: int, data: string) | Failed(response: Option<ErrorResponse>, message: string)

  /** What the caller of a facade observes. */
  datatype Outcome = Resolved(response: Response) | Rejected(error: RejectedError)

  /** Whether the transport aborts a request sent with `config`: its cancel token was cancelled. */
  predicate CancelledIn(config: RequestConfig, cancelled: set<Handle>)
  {
    config.cancelToken.Some? && config.cancelToken.value in cancelled
  }

  /**
   * The pipeline's module-level state: the dedup map, the cancelled token sources,
   * the source of fresh sources, the current view and the number of redirects to
   * the login view; `localStorage` is shared with the auth slice.
   */
  class Pipeline {
    var requestMap: map<string, Handle>
    var cancelled: set<Handle>
    var nextHandle: Handle
    var currentPath: string
    var loginRedirects: nat
    const storage: LocalStorage

    /**
     * Every handle ever created is below `nextHandle`; the handle stored for a key is
     * live (not cancelled), and no handle is stored under two keys.
     */
    ghost predicate Valid()
      reads this
    {
      && (forall k | k in requestMap :: requestMap[k] < nextHandle && requestMap[k] !in cancelled)
      && (forall h | h in cancelled :: h < nextHandle)
      && (forall k, k' | k in requestMap && k' in requestMap && k != k' :: requestMap[k] != requestMap[k'])
    }

    constructor(storage: LocalStorage, currentPath: string)
      ensures Valid()
      ensures requestMap == map[] && cancelled == {} && loginRedirects == 0
      ensures this.storage == storage && this.currentPath == currentPath
    {
      requestMap := map[];
      cancelled := {};
      nextHandle := 0;
      loginRedirects := 0;
      this.storage := storage;
      this.currentPath := currentPath;
    }

    /**
     * Making a GET supersede an identical outstanding one: cancel the source stored
     * under `key`, if any, and store a fresh source there.
     */
    method Supersede(key: string) returns (source: Handle)
      requires Valid()
      modifies this
      ensures Valid()
      ensures source == old(nextHandle) && source !in old(cancelled) && source !in old(requestMap).Values
      ensures requestMap == old(requestMap)[key := source]
      ensures cancelled == old(cancelled) + (if key in old(requestMap) then {old(requestMap)[key]} else {})
      ensures nextHandle == old(nextHandle) + 1
      ensures currentPath == old(currentPath) && loginRedirects == old(loginRedirects)
    {
      if key in requestMap {
        var existing := requestMap[key];
        cancelled := cancelled + {existing};
        requestMap := requestMap - {key};
      }
      source := nextHandle;
      nextHandle := nextHandle + 1;
      requestMap := requestMap[key := source];
    }

    /** The request interceptor. */
    method OnRequest(config: RequestConfig) returns (sent: RequestConfig)
      requires Valid()
      modifies this
      ensures Valid()
      ensures sent.httpMethod == config.httpMethod && sent.url == config.url && sent.params == config.params
      ensures var bearer := BearerHeader(Get(storage.items, AccessTokenKey));
              sent.authorization == if bearer.Some? then bearer else config.authorization
      ensures config.httpMethod != "get" ==>
                && sent.cancelToken == config.cancelToken
                && requestMap == old(requestMap) && cancelled == old(cancelled) && nextHandle == old(nextHandle)
      ensures config.httpMethod == "get" ==>
                var key := GetKey(config);
                && sent.cancelToken == Some(old(nextHandle))
                && old(nextHandle) !in old(cancelled) && old(nextHandle) !in old(requestMap).Values
                && requestMap == old(requestMap)[key := old(nextHandle)]
                && cancelled == old(cancelled) + (if key in old(requestMap) then {old(requestMap)[key]} else {})
                && nextHandle == old(nextHandle) + 1
      ensures currentPath == old(currentPath) && loginRedirects == old(loginRedirects)
    {
      var token := storage.GetItem(AccessTokenKey);
      sent := config;
      var bearer := BearerHeader(token);
      if bearer.Some? {
        sent := sent.(authorization := bearer);
      }
      if config.httpMethod == "get" {
        var source := Supersede(GetKey(config));
        sent := sent.(cancelToken := Some(source));
      }
    }

    /** Deleting a settled GET's key from the dedup map, as both response interceptors do. */
    method Release(config: RequestConfig)
      requires Valid()
      modifies this
      ensures Valid()
      ensures requestMap == Released(old(requestMap), config)
      ensures cancelled == old(cancelled) && nextHandle == old(nextHandle)
      ensures currentPath == old(currentPath) && loginRedirects == old(loginRedirects)
    {
      if config.httpMethod == "get" {
        var key := GetKey(config);
        requestMap := requestMap - {key};
      }
    }

    /** The success interceptor. */
    method OnSuccess(response: Response) returns (r: Response)
      requires Valid()
      modifies this
      ensures Valid()
      ensures r == response
      ensures requestMap == Released(old(requestMap), response.config)
      ensures cancelled == old(cancelled) && nextHandle == old(nextHandle)
      ensures currentPath == old(currentPath) && loginRedirects == old(loginRedirects)
    {
      Release(response.config);
      r := response;
    }

    /** The error interceptor: what the returned promise rejects with. */
    method OnError(error: TransportError) returns (rejected: RejectedError)
      requires Valid()
      modifies this, storage
      ensures Valid()
      ensures error.isCancel ==> rejected == RejectedError(CancelledMessage, true)
      ensures !error.isCancel ==>
                rejected == RejectedError(ErrorMessage(BackendMessage(error.response), error.message), false)
      ensures requestMap == if !error.isCancel && error.config.Some? then Released(old(requestMap), error.config.value)
                            else old(requestMap)
      ensures storage.items == if Invalidates(error) then old(storage.items) - {AccessTokenKey, RefreshTokenKey}
                               else old(storage.items)
      ensures loginRedirects == old(loginRedirects) + if Invalidates(error) && ShouldRedirect(currentPath) then 1 else 0
      ensures cancelled == old(cancelled) && nextHandle == old(nextHandle) && currentPath == old(currentPath)
    {
      if error.isCancel {
        return RejectedError(CancelledMessage, true);
      }
      if error.config.Some? {
        Release(error.config.value);
      }
      if IsAuthFailure(error.response) {
        if !IsPublicPostRead(error.config) {
          storage.RemoveItem(AccessTokenKey);
          storage.RemoveItem(RefreshTokenKey);
          if !Includes(currentPath, LoginPath) && !Includes(currentPath, RegisterPath) {
            loginRedirects := loginRedirects + 1;
          }
        }
      }
      rejected := RejectedError(ErrorMessage(BackendMessage(error.response), error.message), false);
    }

    /**
     * A dispatched request settling: the transport aborts it when its token source
     * was cancelled, and otherwise reports the settlement to the matching interceptor.
     */
    method Complete(sent: RequestConfig, settlement: Settlement) returns (outcome: Outcome)
      requires Valid()
      modifies this, storage
      ensures Valid()
      ensures CancelledIn(sent, old(cancelled)) ==>
                && outcome == Rejected(RejectedError(CancelledMessage, true))
                && requestMap == old(requestMap) && storage.items == old(storage.items)
                && loginRedirects == old(loginRedirects)
      ensures !CancelledIn(sent, old(cancelled)) && settlement.Delivered? ==>
                && outcome == Resolved(Response(sent, settlement.status, settlement.data))
                && requestMap == Released(old(requestMap), sent)
                && storage.items == old(storage.items) && loginRedirects == old(loginRedirects)
      ensures !CancelledIn(sent, old(cancelled)) && settlement.Failed? ==>
                var error := TransportError(false, Some(sent), settlement.response, settlement.message);
                && outcome == Rejected(RejectedError(ErrorMessage(BackendMessage(settlement.response), settlement.message), false))
                && requestMap == Released(old(requestMap), sent)
                && storage.items == (if Invalidates(error) then old(storage.items) - {AccessTokenKey, RefreshTokenKey}
                                     else old(storage.items))
                && loginRedirects == old(loginRedirects) + (if Invalidates(error) && ShouldRedirect(currentPath) then 1 else 0)
      ensures cancelled == old(cancelled) && nextHandle == old(nextHandle) && currentPath == old(currentPath)
    {
      if CancelledIn(sent, cancelled) {
        var rejected := OnError(TransportError(true, None, None, ""));
        outcome := Rejected(rejected);
      } else if settlement.Delivered? {
        var response := OnSuccess(Response(sent, settlement.status, settlement.data));
        outcome := Resolved(response);
      } else {
        var rejected := OnError(TransportError(false, Some(sent), settlement.response, settlement.message));
        outcome := Rejected(rejected);
      }
    }
  }
}
