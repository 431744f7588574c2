/**
 * The token checks of backend/middleware/auth.js. Signature and expiry
 * checking of a JSON Web Token is not modelled: a verifier function stands
 * for `jwt.verify` with the configured secret, answering with the decoded
 * claims of a token it accepts.
 */
module Auth {
  import opened Wrappers
  import opened Text
  import opened Config
  import opened Events

  /** The decoded payload of an accepted token. */
  datatype Claims = Claims(username: string)

  /** `jwt.verify(token, secret)`: the claims of a token it accepts, nothing for one it rejects. */
  type Verifier = string -> Option<Claims>

  const INVALID_TOKEN_MESSAGE: string := "Invalid or expired token.\n"

  /** A socket payload's token passes when it is present and the verifier accepts it; `jwt.verify` throws on a missing one. */
  predicate TokenAccepted(verify: Verifier, token: Option<string>) {
    token.Some? && verify(token.value).Some?
  }

  /** The events `isSocketValidToken` emits for a rejected token: the message on the output event, then status 1 on the done event. */
  function InvalidTokenEvents(outputEvent: string, doneEvent: string): (events: seq<Emit>)
    ensures |events| == 2
    ensures events[0].event == outputEvent && events[1].event == doneEvent
    ensures events[0].payload == Message(INVALID_TOKEN_MESSAGE) && events[1].payload == Status(1)
  {
    [Emit(outputEvent, Message(INVALID_TOKEN_MESSAGE)), Emit(doneEvent, Status(1))]
  }

  /**
   * `isSocketValidToken(token, socket, outputEvent, doneEvent)` on a socket
   * whose emitted events so far are `trace`: the verdict, and the trace after.
   */
  function SocketTokenCheck(verify: Verifier, token: Option<string>, trace: seq<Emit>, outputEvent: string, doneEvent: string): (r: (bool, seq<Emit>))
    ensures r.0 <==> TokenAccepted(verify, token)
    ensures |trace| <= |r.1| && r.1[..|trace|] == trace
    ensures r.0 <==> r.1 == trace
    ensures !r.0 ==> r.1[|trace|..] == InvalidTokenEvents(outputEvent, doneEvent)
  {
    if TokenAccepted(verify, token) then (true, trace)
    else (false, trace + InvalidTokenEvents(outputEvent, doneEvent))
  }

  /**
   * The token of an `Authorization` header: the second space-separated
   * field. A missing or empty header, a header with one field, or an empty
   * second field give no token.
   */
  function HeaderToken(header: Option<string>): (token: Option<string>)
    ensures token.Some? ==> Truthy(header) && token.value != "" && ' ' !in token.value
  {
    if !Truthy(header) then None
    else
      var fields := Split(header.value, ' ');
      if |fields| >= 2 && fields[1] != "" then
        assert fields[1] in fields;
        Some(fields[1])
      else None
  }

  /** A field followed by nothing or by a space is the first field of the split. */
  lemma FirstField(field: string, tail: string)
    requires ' ' !in field
    requires tail == [] || tail[0] == ' '
    ensures Split(field + tail, ' ')[0] == field
  {
    var rest := field + tail;
    if tail == [] {
      assert rest == field;
      SplitFirst(rest, ' ');
    } else {
      assert rest[|field|] == ' ';
      assert forall k :: 0 <= k < |field| ==> rest[k] == field[k] && field[k] in field;
      IndexOfIsFirst(rest, ' ', |field|);
      SplitFirst(rest, ' ');
      assert rest[..|field|] == field;
    }
  }

  /**
   * The scheme word is not inspected, and whatever follows the token after
   * a space is ignored: `<scheme> <token>[ <anything>]` yields the token.
   */
  lemma HeaderTokenOfScheme(scheme: string, token: string, tail: string)
    requires ' ' !in scheme && ' ' !in token && token != ""
    requires tail == [] || tail[0] == ' '
    ensures HeaderToken(Some(scheme + " " + token + tail)) == Some(token)
  {
    var header := scheme + " " + token + tail;
    assert header == scheme + [' '] + (token + tail);
    SplitAtFirstSeparator(scheme, token + tail, ' ');
    FirstField(token, tail);
  }

  /** A header without a space carries no token. */
  lemma SingleFieldHeaderHasNoToken(header: string)
    requires ' ' !in header
    ensures HeaderToken(Some(header)) == None
  {
    SplitFirst(header, ' ');
  }

  /** The answer of `authenticateToken`: continue with the decoded claims, or refuse with an HTTP status. */
  datatype AuthOutcome = Proceed(user: Claims) | Refuse(status: int)

  /**
   * `authenticateToken`: 401 without a token, 403 for a token the verifier
   * rejects, otherwise continue with the claims it decoded.
   */
  function AuthDecision(verify: Verifier, header: Option<string>): (o: AuthOutcome)
    ensures o.Refuse? ==> o.status == 401 || o.status == 403
    ensures o == Refuse(401) <==> HeaderToken(header).None?
    ensures o == Refuse(403) <==> HeaderToken(header).Some? && verify(HeaderToken(header).value).None?
    ensures o.Proceed? ==> HeaderToken(header).Some? && verify(HeaderToken(header).value) == Some(o.user)
  {
    var token := HeaderToken(header);
    if token.None? then Refuse(401)
    else if verify(token.value).None? then Refuse(403)
    else Proceed(verify(token.value).value)
  }

  /** A request with a bearer token the verifier accepts proceeds as the user it decodes to. */
  lemma BearerTokenProceeds(verify: Verifier, token: string)
    requires ' ' !in token && token != "" && verify(token).Some?
    ensures AuthDecision(verify, Some("Bearer " + token)) == Proceed(verify(token).value)
  {
    assert ' ' !in "Bearer";
    assert "Bearer" + " " + token + [] == "Bearer " + token;
    HeaderTokenOfScheme("Bearer", token, []);
  }

  /**
   * One request passing through the middleware: the user it attaches, the
   * status sent (if any) and the number of times the next handler was called.
   */
  class HttpExchange {
    var user: Option<Claims>
    var sentStatus: Option<int>
    var nextCalls: nat

    constructor()
      ensures user.None? && sentStatus.None? && nextCalls == 0
    {
      user := None;
      sentStatus := None;
      nextCalls := 0;
    }

    /** `authenticateToken(req, res, next)`: either a status is sent, or the user is attached and `next` runs once. */
    method AuthenticateToken(verify: Verifier, header: Option<string>)
      modifies this
      ensures var o := AuthDecision(verify, header);
        && (o.Refuse? ==> sentStatus == Some(o.status) && user == old(user) && nextCalls == old(nextCalls))
        && (o.Proceed? ==> user == Some(o.user) && sentStatus == old(sentStatus) && nextCalls == old(nextCalls) + 1)
    {
      var token := HeaderToken(header);
      if token.None? {
        sentStatus := Some(401);
        return;
      }
      var decoded := verify(token.value);
      if decoded.None? {
        sentStatus := Some(403);
        return;
      }
      user := decoded;
      nextCalls := nextCalls + 1;
    }
  }
}
