/**
 * The session manager: the module-level `transports` dictionary from session
 * id to transport, the three-way routing of `mcpHandler` (POST) and the
 * lookup of `handleMcpSessionRequest` (GET and DELETE), insertion when the
 * transport reports its session initialised and deletion when it closes.
 * Transports are opaque tokens, numbered in the order they are created.
 */
module Sessions {
  import opened Json
  import opened Wrappers

  type TransportId = nat

  /** A JSON-RPC 2.0 error response body. */
  datatype RpcError = RpcError(jsonrpc: string, code: int, message: string, id: Json)

  /** An HTTP reply the server writes itself, without a transport. */
  datatype Reply =
    | RpcErrorReply(status: nat, body: RpcError)
    | TextReply(status: nat, text: string)

  /** How a request is handled. */
  datatype Decision =
    | Reuse(transport: TransportId)   // handed to the stored transport
    | StartSession                    // a new transport is created for it
    | Reject(reply: Reply)            // answered with an error, nothing stored

  /**
   * The answer to a POST without a usable session: HTTP 400 carrying error
   * code -32000, which lies in the range -32099..-32000 that section 5.1 of
   * the JSON-RPC 2.0 Specification reserves for implementation-defined server
   * errors, and `id: null`.
   */
  function BadSession(): (r: Reply)
    ensures r.RpcErrorReply? && r.status == 400
    ensures r.body.jsonrpc == "2.0" && r.body.code == -32000 && r.body.id == Null
    ensures -32099 <= r.body.code <= -32000
    ensures r.body.message == "Bad Request: No valid session ID provided"
  {
    RpcErrorReply(400, RpcError("2.0", -32000, "Bad Request: No valid session ID provided", Null))
  }

  /** The answer to a GET or DELETE without a known session. */
  function InvalidSession(): (r: Reply)
    ensures r.TextReply? && r.status == 400
  {
    TextReply(400, "Invalid or missing session ID")
  }

  /** A present, non-empty `mcp-session-id` header. */
  predicate HeaderTruthy(header: Option<string>) {
    header.Some? && header.value != ""
  }

  /**
   * `mcpHandler`'s choice for a POST: reuse the transport stored under a
   * known id; start a session for an initialize request that carries no id;
   * reject everything else, in particular an unknown id even on an
   * initialize request, so a session is never created under a caller's id.
   */
  function Route(transports: map<string, TransportId>, header: Option<string>, isInitialize: bool): (d: Decision)
    ensures d.Reuse? <==> HeaderTruthy(header) && header.value in transports
    ensures d.Reuse? ==> d.transport == transports[header.value]
    ensures d.StartSession? <==> !HeaderTruthy(header) && isInitialize
    ensures HeaderTruthy(header) && header.value !in transports ==> d == Reject(BadSession())
    ensures !HeaderTruthy(header) && !isInitialize ==> d == Reject(BadSession())
  {
    if HeaderTruthy(header) && header.value in transports then Reuse(transports[header.value])
    else if !HeaderTruthy(header) && isInitialize then StartSession
    else Reject(BadSession())
  }

  /**
   * `handleMcpSessionRequest`: a GET or DELETE is handed to the stored
   * transport of a known id and answered with a plain 400 otherwise; it never
   * starts a session.
   */
  function SessionQuery(transports: map<string, TransportId>, header: Option<string>): (d: Decision)
    ensures !d.StartSession?
    ensures d.Reuse? <==> HeaderTruthy(header) && header.value in transports
    ensures d.Reuse? ==> d.transport == transports[header.value]
    ensures !d.Reuse? ==> d == Reject(InvalidSession())
  {
    if !HeaderTruthy(header) || header.value !in transports then Reject(InvalidSession())
    else Reuse(transports[header.value])
  }

  // ------------------------------------------- the lookup as the source writes it

  /**
   * Property names every plain JavaScript object inherits from
   * `Object.prototype`; reading any of them from `{}` gives a truthy value.
   */
  const InheritedMembers: set<string> :=
    {"constructor", "__proto__", "hasOwnProperty", "isPrototypeOf", "propertyIsEnumerable",
     "toLocaleString", "toString", "valueOf", "__defineGetter__", "__defineSetter__",
     "__lookupGetter__", "__lookupSetter__"}

  /** A handler's fate when `transports[sessionId]` is read from the plain object literal. */
  datatype AsWritten =
    | Handled(decision: Decision)
    | HandlerThrows   // `transport.handleRequest` is not a function: a TypeError, no reply written

  /** `transports[sessionId]` is truthy for a stored id and for an inherited member name. */
  predicate TruthyLookup(transports: map<string, TransportId>, key: string) {
    key in transports || key in InheritedMembers
  }

  /** `mcpHandler` as written: an inherited member name passes the "known session" test. */
  function RouteAsWritten(transports: map<string, TransportId>, header: Option<string>, isInitialize: bool): (w: AsWritten)
    ensures w == HandlerThrows <==> HeaderTruthy(header) && header.value !in transports && header.value in InheritedMembers
    ensures w.Handled? && w.decision.StartSession? <==> !HeaderTruthy(header) && isInitialize
  {
    if HeaderTruthy(header) && TruthyLookup(transports, header.value) then
      if header.value in transports then Handled(Reuse(transports[header.value])) else HandlerThrows
    else if !HeaderTruthy(header) && isInitialize then Handled(StartSession)
    else Handled(Reject(BadSession()))
  }

  /** `handleMcpSessionRequest` as written, with the same lookup. */
  function SessionQueryAsWritten(transports: map<string, TransportId>, header: Option<string>): (w: AsWritten)
    ensures w == HandlerThrows <==> HeaderTruthy(header) && header.value !in transports && header.value in InheritedMembers
    ensures w.Handled? ==> !w.decision.StartSession?
  {
    if !HeaderTruthy(header) || !TruthyLookup(transports, header.value) then Handled(Reject(InvalidSession()))
    else if header.value in transports then Handled(Reuse(transports[header.value]))
    else HandlerThrows
  }

  /**
   * A POST whose session header is `toString` is not answered with the
   * -32000 error: the lookup finds `Object.prototype.toString`, the handler
   * takes it for a transport and throws. Without the inherited member the
   * request is rejected as intended.
   */
  lemma InheritedIdBreaksPost(transports: map<string, TransportId>)
    requires "toString" !in transports
    ensures RouteAsWritten(transports, Some("toString"), false) == HandlerThrows
    ensures Route(transports, Some("toString"), false) == Reject(BadSession())
  {
    assert "toString" in InheritedMembers;
  }

  /** The same for a GET or DELETE with session header `constructor`. */
  lemma InheritedIdBreaksQuery(transports: map<string, TransportId>)
    requires "constructor" !in transports
    ensures SessionQueryAsWritten(transports, Some("constructor")) == HandlerThrows
    ensures SessionQuery(transports, Some("constructor")) == Reject(InvalidSession())
  {
    assert "constructor" in InheritedMembers;
  }

  /** For every other header the source and the corrected routing agree. */
  lemma AsWrittenAgreesOtherwise(transports: map<string, TransportId>, header: Option<string>, isInitialize: bool)
    requires !HeaderTruthy(header) || header.value in transports || header.value !in InheritedMembers
    ensures RouteAsWritten(transports, header, isInitialize) == Handled(Route(transports, header, isInitialize))
    ensures SessionQueryAsWritten(transports, header) == Handled(SessionQuery(transports, header))
  {
  }

  // ------------------------------------------------------------ the live map

  /**
   * The `transports` dictionary together with what the server knows of each
   * transport: how many have been created and the session id the protocol
   * library assigned to each initialised one.
   */
  class SessionManager {
    var transports: map<string, TransportId>
    var sessionIdOf: map<TransportId, string>
    var created: nat

    /**
     * Every stored transport has been created and is stored under its own
     * session id; distinct transports have distinct session ids.
     */
    ghost predicate Valid()
      reads this
    {
      && (forall t :: t in sessionIdOf ==> t < created)
      && (forall s :: s in transports ==> transports[s] in sessionIdOf && sessionIdOf[transports[s]] == s)
      && (forall t1, t2 :: t1 in sessionIdOf && t2 in sessionIdOf && t1 != t2 ==> sessionIdOf[t1] != sessionIdOf[t2])
    }

    constructor ()
      ensures Valid() && transports == map[] && sessionIdOf == map[] && created == 0
    {
      transports := map[];
      sessionIdOf := map[];
      created := 0;
    }

    /**
     * `mcpHandler`: routes the POST as `Route` decides and never touches the
     * map; a new session only creates its transport, which is stored later by
     * `SessionInitialized`.
     */
    method HandlePost(header: Option<string>, isInitialize: bool) returns (d: Decision, transport: Option<TransportId>)
      requires Valid()
      modifies this
      ensures Valid()
      ensures d == Route(old(transports), header, isInitialize)
      ensures transports == old(transports) && sessionIdOf == old(sessionIdOf)
      ensures d.Reuse? ==> transport == Some(d.transport) && created == old(created)
      ensures d.StartSession? ==> transport == Some(old(created)) && created == old(created) + 1
      ensures d.Reject? ==> transport == None && created == old(created)
    {
      if HeaderTruthy(header) && header.value in transports {
        d, transport := Reuse(transports[header.value]), Some(transports[header.value]);
      } else if !HeaderTruthy(header) && isInitialize {
        d, transport := StartSession, Some(created);
        created := created + 1;
      } else {
        d, transport := Reject(BadSession()), None;
      }
    }

    /**
     * `onsessioninitialized`: the only insertion. The library hands the
     * transport a freshly generated id, which no other transport has.
     */
    method SessionInitialized(t: TransportId, sessionId: string)
      requires Valid() && t < created && t !in sessionIdOf
      requires sessionId !in sessionIdOf.Values
      modifies this
      ensures Valid()
      ensures transports == old(transports)[sessionId := t]
      ensures sessionIdOf == old(sessionIdOf)[t := sessionId]
      ensures created == old(created)
    {
      transports := transports[sessionId := t];
      sessionIdOf := sessionIdOf[t := sessionId];
    }

    /**
     * `onclose`: the only deletion, of the closing transport's own session id
     * when it has a non-empty one. Every other session keeps its transport.
     */
    method Close(t: TransportId)
      requires Valid()
      modifies this
      ensures Valid()
      ensures sessionIdOf == old(sessionIdOf) && created == old(created)
      ensures t in sessionIdOf && sessionIdOf[t] != "" ==> transports == old(transports) - {sessionIdOf[t]}
      ensures !(t in sessionIdOf && sessionIdOf[t] != "") ==> transports == old(transports)
      ensures forall s :: s in old(transports) && old(transports)[s] != t ==>
                s in transports && transports[s] == old(transports)[s]
      ensures t in sessionIdOf && sessionIdOf[t] != "" ==> forall s :: s in transports ==> transports[s] != t
    {
      if t in sessionIdOf && sessionIdOf[t] != "" {
        transports := transports - {sessionIdOf[t]};
      }
    }
  }

  /** A session's life: created on initialize, reused by id, gone after close. */
  method SessionLifecycle() returns (first: Decision, reused: Decision, stranger: Decision, afterClose: Decision)
    ensures first == StartSession && reused == Reuse(0)
    ensures stranger == Reject(BadSession()) && afterClose == Reject(BadSession())
  {
    var m := new SessionManager();
    var t;
    first, t := m.HandlePost(None, true);
    m.SessionInitialized(0, "3f2a");
    reused, t := m.HandlePost(Some("3f2a"), false);
    stranger, t := m.HandlePost(Some("9c41"), true);
    m.Close(0);
    afterClose, t := m.HandlePost(Some("3f2a"), false);
  }
}
