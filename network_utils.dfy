/**
 * The client address of an HTTP request, backend/utils/networkUtils.js:
 * the first address of the `X-Forwarded-For` header set by a proxy, or the
 * socket's peer address, or the address Express derived.
 */
module NetworkUtils {
  import opened Wrappers
  import opened Text
  import Config

  /** The parts of an Express request the address is read from; each is `None` when undefined. */
  datatype Request = Request(forwardedFor: Option<string>, remoteAddress: Option<string>, ip: Option<string>)

  /** `header.split(',')[0].trim()`: the first entry of a comma-separated header, trimmed. */
  function FirstForwarded(header: string): (ip: string)
    ensures ',' !in ip
    ensures ',' !in header ==> ip == Trim(header)
    ensures ',' in header ==> ip == Trim(header[..IndexOf(header, ',')])
  {
    var first := Split(header, ',')[0];
    SplitFirst(header, ',');
    TrimChars(first);
    Trim(first)
  }

  /** The first entry of a header is the first of the entries the header joins. */
  lemma FirstForwardedOfList(entries: seq<string>)
    requires |entries| >= 1 && forall e :: e in entries ==> ',' !in e
    ensures FirstForwarded(Join(entries, ",")) == Trim(entries[0])
  {
    SplitJoin(entries, ',');
  }

  /** `getIP`: the first forwarded address when the header is set, else the peer address, else `req.ip`. */
  function GetIP(req: Request): (r: Option<string>)
    ensures Config.Truthy(req.forwardedFor) ==> r == Some(FirstForwarded(req.forwardedFor.value))
    ensures !Config.Truthy(req.forwardedFor) && Config.Truthy(req.remoteAddress) ==> r == req.remoteAddress
    ensures !Config.Truthy(req.forwardedFor) && !Config.Truthy(req.remoteAddress) ==> r == req.ip
  {
    if Config.Truthy(req.forwardedFor) then Some(FirstForwarded(req.forwardedFor.value))
    else if Config.Truthy(req.remoteAddress) then req.remoteAddress
    else req.ip
  }

  /** An address taken from the header never holds a comma, and a one-address header gives that address trimmed. */
  lemma ForwardedAddress(req: Request)
    requires Config.Truthy(req.forwardedFor)
    ensures GetIP(req).Some? && ',' !in GetIP(req).value
    ensures ',' !in req.forwardedFor.value ==> GetIP(req) == Some(Trim(req.forwardedFor.value))
  {
  }
}
