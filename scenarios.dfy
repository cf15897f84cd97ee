/**
 * End-to-end runs of the pipeline, as a page would drive it through the facades
 * `postAPI.getPosts`, `postAPI.getPost` and `postAPI.updatePost`, with the auth slice
 * sharing the same `localStorage`.
 */
module Scenarios {
  import opened Wrappers
  import opened BrowserStorage
  import opened Api
  import AuthSlice

  /**
   * The same GET issued twice before either settles: the first settles as the
   * cancellation error whatever the transport had to say, the second delivers its
   * own payload, and afterwards nothing is left outstanding.
   */
  method DuplicateGet(url: string, params: Option<string>, first: Settlement, data: string)
    returns (firstOutcome: Outcome, secondOutcome: Outcome, outstanding: map<string, Handle>)
    ensures firstOutcome == Rejected(RejectedError(CancelledMessage, true))
    ensures secondOutcome.Resolved? && secondOutcome.response.data == data
    ensures outstanding == map[]
  {
    var storage := new LocalStorage(map[]);
    var pipeline := new Pipeline(storage, "/");
    var request := RequestConfig("get", url, params, None, None);
    var sent1 := pipeline.OnRequest(request);
    var sent2 := pipeline.OnRequest(request);
    firstOutcome := pipeline.Complete(sent1, first);
    secondOutcome := pipeline.Complete(sent2, Delivered(200, data));
    outstanding := pipeline.requestMap;
  }

  /**
   * With no stored tokens, a 401/403 on `GET /api/post/{id}` leaves storage as it
   * was, does not redirect, and reaches the caller as an ordinary error.
   */
  method PublicPostReadRejected(id: string, status: int, backendMessage: Option<string>, path: string)
    returns (outcome: Outcome, storedAfter: map<string, string>, redirects: nat)
    requires status == 401 || status == 403
    ensures outcome == Rejected(RejectedError(ErrorMessage(backendMessage, "Request failed"), false))
    ensures storedAfter == map[]
    ensures redirects == 0
  {
    var storage := new LocalStorage(map[]);
    var pipeline := new Pipeline(storage, path);
    var sent := pipeline.OnRequest(RequestConfig("get", "/api/post/" + id, None, None, None));
    assert Strings.OccursAt(sent.url, PostApiPath, 0);
    outcome := pipeline.Complete(sent, Failed(Some(ErrorResponse(status, backendMessage)), "Request failed"));
    storedAfter := storage.items;
    redirects := pipeline.loginRedirects;
  }

  /**
   * After a login, a 401 on `PATCH /api/post/{id}` carries the bearer token, erases
   * both stored tokens and redirects once unless the view is login or register. The
   * auth slice is not told: its state still says authenticated.
   */
  method UnauthorizedUpdate(id: string, login: AuthSlice.LoginResponse, path: string, decode: string -> Option<string>)
    returns (authorization: Option<string>, outcome: Outcome, storedAccess: Option<string>,
             storedRefresh: Option<string>, redirects: nat, sliceAuthenticated: bool)
    requires login.accessToken != ""
    ensures authorization == Some("Bearer " + login.accessToken)
    ensures outcome == Rejected(RejectedError("Request failed with status code 401", false))
    ensures storedAccess == None && storedRefresh == None
    ensures redirects == if ShouldRedirect(path) then 1 else 0
    ensures sliceAuthenticated
  {
    var storage := new LocalStorage(map[]);
    var auth := new AuthSlice.Auth(storage, decode);
    var pipeline := new Pipeline(storage, path);
    auth.SetCredentials(login);
    var sent := pipeline.OnRequest(RequestConfig("patch", "/api/post/" + id, None, None, None));
    authorization := sent.authorization;
    outcome := pipeline.Complete(sent, Failed(Some(ErrorResponse(401, None)), "Request failed with status code 401"));
    storedAccess := Get(storage.items, AccessTokenKey);
    storedRefresh := Get(storage.items, RefreshTokenKey);
    redirects := pipeline.loginRedirects;
    sliceAuthenticated := auth.isAuthenticated;
  }
}
