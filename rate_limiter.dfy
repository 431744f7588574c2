/**
 * The request keys and the settings of the three rate limiters of
 * backend/middleware/rateLimiter.js. The counting of requests per window is
 * done by the express-rate-limit library and is not part of this model.
 */
module RateLimiter {
  import opened Wrappers
  import opened Text
  import NetworkUtils
  import Config

  /** `getClientIp`: the first forwarded address when the header is set, else `req.ip` (no peer-address step). */
  function GetClientIp(req: NetworkUtils.Request): (r: Option<string>)
    ensures Config.Truthy(req.forwardedFor) ==> r == Some(NetworkUtils.FirstForwarded(req.forwardedFor.value))
    ensures !Config.Truthy(req.forwardedFor) ==> r == req.ip
  {
    if Config.Truthy(req.forwardedFor) then Some(NetworkUtils.FirstForwarded(req.forwardedFor.value))
    else req.ip
  }

  /** The settings of one limiter. */
  datatype Limiter = Limiter(windowMs: nat, max: nat, message: string, limitedError: Option<string>)

  const LOGIN := Limiter(15 * 60 * 1000, 5, "Too many login attempts. Please try again later.",
                         Some("Too many login attempts from this IP. Please try again later."))
  const API := Limiter(15 * 60 * 1000, 100, "Too many requests. Please try again later.", None)
  const STRICT := Limiter(60 * 60 * 1000, 3, "Too many attempts. Please try again later.",
                          Some("Rate limit exceeded. Please try again in an hour."))

  /** The three limiters, by name. */
  datatype LimiterName = Login | Api | Strict

  function Settings(name: LimiterName): (l: Limiter)
    ensures l.max > 0 && l.windowMs >= 15 * 60 * 1000
    ensures l.limitedError.None? <==> name == Api
  {
    match name
    case Login => LOGIN
    case Api => API
    case Strict => STRICT
  }

  /** `keyGenerator` of each limiter: the client address. */
  function Key(name: LimiterName, req: NetworkUtils.Request): (key: Option<string>)
    ensures Config.Truthy(req.forwardedFor) ==> key.Some? && ',' !in key.value
    ensures !Config.Truthy(req.forwardedFor) ==> key == req.ip
  {
    GetClientIp(req)
  }

  /** The login limiter's `skip`: no request is exempt. */
  function LoginSkip(req: NetworkUtils.Request): (skip: bool)
    ensures !skip
  {
    false
  }

  /**
   * The limiters and the address check agree when the request came through a
   * proxy; without the header they differ only in that the address check
   * looks at the socket's peer address first.
   */
  lemma ClientIpAgreesWithGetIP(req: NetworkUtils.Request)
    ensures Config.Truthy(req.forwardedFor) ==> GetClientIp(req) == NetworkUtils.GetIP(req)
    ensures !Config.Truthy(req.remoteAddress) ==> GetClientIp(req) == NetworkUtils.GetIP(req)
    ensures Config.Truthy(req.remoteAddress) && !Config.Truthy(req.forwardedFor) ==>
              (GetClientIp(req) == NetworkUtils.GetIP(req) <==> req.ip == req.remoteAddress)
  {
  }

  /** Two requests forwarded for the same client share every limiter's key, whatever the proxies after it. */
  lemma SameClientSameKey(name: LimiterName, a: NetworkUtils.Request, b: NetworkUtils.Request, client: string,
                          proxiesA: seq<string>, proxiesB: seq<string>)
    requires client != [] && ',' !in client && forall p :: p in proxiesA + proxiesB ==> ',' !in p
    requires a.forwardedFor == Some(Join([client] + proxiesA, ","))
    requires b.forwardedFor == Some(Join([client] + proxiesB, ","))
    ensures Key(name, a) == Key(name, b) == Some(Trim(client))
  {
    assert forall p :: p in [client] + proxiesA ==> p == client || p in proxiesA + proxiesB;
    assert forall p :: p in [client] + proxiesB ==> p == client || p in proxiesA + proxiesB;
    NetworkUtils.FirstForwardedOfList([client] + proxiesA);
    NetworkUtils.FirstForwardedOfList([client] + proxiesB);
    JoinLength([client] + proxiesA, ",");
    JoinLength([client] + proxiesB, ",");
  }
}
