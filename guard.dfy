/** The JWT guard: a fixed list of public routes plus everything under
    `/doc` passes without a token; every other request goes to the JWT
    strategy, whose verdict `handleRequest` turns into a user or an error. */
module Guard {
  import opened Common

  const PublicRoutes: seq<string> := ["/auth/signup", "/auth/login", "/auth/refresh", "/doc", "/"]

  /** What `canActivate` does with a request. */
  datatype Decision = Allow | DelegateToJwt

  /** `publicRoutes.includes(url) || url.startsWith("/doc")`; `<=` on strings
      is the prefix test. Described without the list, the public URLs are the
      root, the three auth endpoints exactly, and every URL whose first four
      characters are `/doc` (which makes the list's own `/doc` entry
      redundant). */
  predicate IsPublic(url: string)
    ensures IsPublic(url) <==>
      || url == "/" || url == "/auth/signup" || url == "/auth/login" || url == "/auth/refresh"
      || (|url| >= 4 && url[..4] == "/doc")
  {
    url in PublicRoutes || "/doc" <= url
  }

  /** `canActivate`, on the request's raw `url` (path and query string). */
  function CanActivate(url: string): (r: Decision)
    ensures r == Allow <==> IsPublic(url)
    ensures r == DelegateToJwt <==> !IsPublic(url)
  {
    if IsPublic(url) then Allow else DelegateToJwt
  }

  /** Membership is string equality: a query string, a trailing slash or
      another resource needs a token, while anything that merely begins with
      `/doc` does not. */
  lemma PublicExamples()
    ensures CanActivate("/auth/login") == Allow
    ensures CanActivate("/") == Allow
    ensures CanActivate("/doc/swagger.json") == Allow
    ensures CanActivate("/doctor") == Allow
    ensures CanActivate("/user") == DelegateToJwt
    ensures CanActivate("/auth/login?x=1") == DelegateToJwt
    ensures CanActivate("/auth/signup/") == DelegateToJwt
  {
    assert "/user"[..4][1] == 'u';
  }

  /** `handleRequest(err, user)`: a present error is rethrown as it is, a
      missing user becomes Unauthorized, and otherwise the user is returned
      unchanged. */
  function HandleRequest<U>(err: Option<Error>, user: Option<U>): (r: Result<U>)
    ensures err.Some? ==> r == Err(err.value)
    ensures err.None? && user.None? ==> r == Err(Unauthorized("Unauthorized"))
    ensures r.Ok? <==> err.None? && user.Some?
    ensures r.Ok? ==> r.value == user.value
  {
    if err.Some? then Err(err.value)
    else if user.None? then Err(Unauthorized("Unauthorized"))
    else Ok(user.value)
  }
}
