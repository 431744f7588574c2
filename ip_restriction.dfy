/**
 * The address allow-list of backend/middleware/ipRestriction.js, which
 * guards the dashboard's HTTP routes.
 */
module IpRestriction {
  import opened Wrappers
  import Text
  import NetworkUtils
  import Config

  /** What the middleware does with a request: pass it on (`next()`) or answer with an error. */
  datatype Decision = Admit | Deny(status: nat, error: string)

  const ACCESS_DENIED := Deny(403, "Access denied")

  /**
   * `restrictAllowedIPs`: an empty list admits everything; otherwise a
   * request needs an address, and the address must be listed unless the list
   * holds `*`.
   */
  function RestrictAllowedIPs(allowed: seq<string>, req: NetworkUtils.Request): (d: Decision)
    ensures d.Admit? <==> (allowed == [] || (Config.Truthy(NetworkUtils.GetIP(req))
      && ("*" in allowed || NetworkUtils.GetIP(req).value in allowed)))
    ensures d.Deny? ==> d == ACCESS_DENIED
  {
    if |allowed| == 0 then Admit
    else
      var ip := NetworkUtils.GetIP(req);
      if !Config.Truthy(ip) then ACCESS_DENIED
      else if "*" !in allowed && ip.value !in allowed then ACCESS_DENIED
      else Admit
  }

  /** The list read from the environment is never empty, so the admit-everything branch is not taken with it. */
  lemma ConfiguredListNeverEmpty(env: Config.Env, readFile: string -> seq<bv8>, req: NetworkUtils.Request)
    ensures var allowed := Config.Load(env, readFile).allowedIps;
      RestrictAllowedIPs(allowed, req).Admit? ==> Config.Truthy(NetworkUtils.GetIP(req))
  {
    Config.AllowedIpsUntrimmed(env, readFile);
  }

  /** With `ADMIN_ALLOWED_IPS` unset, exactly the requests with an address are admitted. */
  lemma UnsetListAdmitsAddressed(env: Config.Env, readFile: string -> seq<bv8>, req: NetworkUtils.Request)
    requires "ADMIN_ALLOWED_IPS" !in env
    ensures RestrictAllowedIPs(Config.Load(env, readFile).allowedIps, req).Admit?
      <==> Config.Truthy(NetworkUtils.GetIP(req))
  {
    Config.AllowedIpsUntrimmed(env, readFile);
  }

  /**
   * Entries are not trimmed when the list is read: a request forwarded for
   * `10.0.0.1` is denied by the list `10.0.0.2, 10.0.0.1`, whose second entry
   * has a leading space.
   */
  lemma UntrimmedEntryDenies()
    ensures RestrictAllowedIPs(["10.0.0.2", " 10.0.0.1"], NetworkUtils.Request(Some("10.0.0.1"), None, None))
      == ACCESS_DENIED
  {
    var req := NetworkUtils.Request(Some("10.0.0.1"), None, None);
    assert NetworkUtils.GetIP(req) == Some("10.0.0.1") by {
      var h := "10.0.0.1";
      assert ',' !in h;
      Text.TrimUnpadded(h);
    }
    assert "10.0.0.1" != " 10.0.0.1";
  }
}
