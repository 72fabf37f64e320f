/**
 * The two-step TOTP handshake: `totp_login` trades the TOTP code for a view
 * token and session id, `totp_validate` trades those and the MPIN for an edit
 * token, an edit session id, a server id and the base URL for orders. The
 * model covers the requests each step builds and which replies each accepts.
 */
module Handshake {
  import opened Wrappers
  import opened Wire

  /** Why a step raised: the request failed, the status was not `success`, or a required field was empty. */
  datatype HandshakeError = TransportError | NotSuccess | MissingFields

  /** What `totp_login` returns. */
  datatype ViewSession = ViewSession(viewToken: string, sid: string)

  /** What `totp_validate` returns; `serverId` may be empty. */
  datatype EditSession = EditSession(editToken: string, editSid: string, serverId: string, baseUrl: string)

  const SuccessStatus := "success"

  /** The JSON POST of `totp_login`. */
  function LoginRequest(consumerKey: string, neoFinKey: string, mobile: string, ucc: string, totp: string): Request {
    Request(
      BaseUrl + "/" + TotpLoginEndpoint,
      map["Authorization" := consumerKey, "neo-fin-key" := neoFinKey, "Content-Type" := "application/json"],
      map[],
      map["mobileNumber" := mobile, "ucc" := ucc, "totp" := totp])
  }

  /**
   * The login goes to the login endpoint, authorised by the consumer key; its
   * body carries the mobile number, the UCC and the TOTP code and nothing else.
   */
  lemma LoginRequestShape(consumerKey: string, neoFinKey: string, mobile: string, ucc: string, totp: string)
    ensures var r := LoginRequest(consumerKey, neoFinKey, mobile, ucc, totp);
      r.url == BaseUrl + "/" + TotpLoginEndpoint && r.query == map[] &&
      r.headers.Keys == {"Authorization", "neo-fin-key", "Content-Type"} &&
      r.headers["Authorization"] == consumerKey && r.headers["neo-fin-key"] == neoFinKey &&
      r.headers["Content-Type"] == "application/json" &&
      r.body.Keys == {"mobileNumber", "ucc", "totp"} &&
      r.body["mobileNumber"] == mobile && r.body["ucc"] == ucc && r.body["totp"] == totp
  {
  }

  /** `totp_login`'s handling of the reply: success status and a non-empty token and sid. */
  function LoginOutcome(reply: Reply): (r: Result<ViewSession, HandshakeError>)
    ensures r.Success? <==>
      reply.Answered? && Field(reply.data, "status") == SuccessStatus &&
      Field(reply.data, "token") != "" && Field(reply.data, "sid") != ""
    ensures r.Success? ==> r.value == ViewSession(reply.data["token"], reply.data["sid"])
    ensures r == Failure(TransportError) <==> reply.NoAnswer?
    ensures r == Failure(NotSuccess) <==> reply.Answered? && Field(reply.data, "status") != SuccessStatus
  {
    match reply
    case NoAnswer => Failure(TransportError)
    case Answered(data) =>
      if Field(data, "status") != SuccessStatus then Failure(NotSuccess)
      else if Field(data, "token") == "" || Field(data, "sid") == "" then Failure(MissingFields)
      else Success(ViewSession(data["token"], data["sid"]))
  }

  /** The JSON POST of `totp_validate`. */
  function ValidateRequest(consumerKey: string, neoFinKey: string, sid: string, viewToken: string, mpin: string): Request {
    Request(
      BaseUrl + "/" + TotpValidateEndpoint,
      map["Authorization" := consumerKey, "sid" := sid, "Auth" := viewToken, "neo-fin-key" := neoFinKey],
      map[],
      map["mpin" := mpin])
  }

  /**
   * The validate request goes to the validate endpoint; the login's sid and
   * view token travel as headers beside the consumer key, and the body carries
   * the MPIN alone.
   */
  lemma ValidateRequestShape(consumerKey: string, neoFinKey: string, sid: string, viewToken: string, mpin: string)
    ensures var r := ValidateRequest(consumerKey, neoFinKey, sid, viewToken, mpin);
      r.url == BaseUrl + "/" + TotpValidateEndpoint && r.query == map[] &&
      r.headers.Keys == {"Authorization", "sid", "Auth", "neo-fin-key"} &&
      r.headers["Authorization"] == consumerKey && r.headers["neo-fin-key"] == neoFinKey &&
      r.headers["sid"] == sid && r.headers["Auth"] == viewToken &&
      r.body == map["mpin" := mpin]
  {
  }

  /** The alternative names under which the validate reply may carry the server id, in the order they are tried. */
  const ServerIdKeys: seq<string> := ["hsServerId", "serverId", "sId", "server_id"]

  /** The first non-empty field among `keys`, or the empty string when there is none. */
  function FirstFilled(data: map<string, string>, keys: seq<string>): (v: string)
    ensures v == "" <==> forall i :: 0 <= i < |keys| ==> Field(data, keys[i]) == ""
  {
    if keys == [] then ""
    else if Field(data, keys[0]) != "" then Field(data, keys[0])
    else FirstFilled(data, keys[1..])
  }

  /** `FirstFilled` gives the value of the earliest key whose field is non-empty. */
  lemma {:induction false} FirstFilledPicksFirst(data: map<string, string>, keys: seq<string>, i: nat)
    requires i < |keys| && Field(data, keys[i]) != ""
    requires forall j :: 0 <= j < i ==> Field(data, keys[j]) == ""
    ensures FirstFilled(data, keys) == Field(data, keys[i])
  {
    if i > 0 {
      assert Field(data, keys[0]) == "";
      FirstFilledPicksFirst(data, keys[1..], i - 1);
    }
  }

  /** Python's `a or b` on strings. */
  function Or(a: string, b: string): string {
    if a != "" then a else b
  }

  /** The server id is the `or` chain over the four candidate names, ending in the empty string. */
  lemma ServerIdIsOrChain(data: map<string, string>)
    ensures FirstFilled(data, ServerIdKeys) ==
      Or(Field(data, "hsServerId"), Or(Field(data, "serverId"), Or(Field(data, "sId"), Or(Field(data, "server_id"), ""))))
  {
    var k1, k2, k3 := ServerIdKeys[1..], ServerIdKeys[2..], ServerIdKeys[3..];
    assert k1 == ["serverId", "sId", "server_id"] && k1[1..] == k2;
    assert k2 == ["sId", "server_id"] && k2[1..] == k3;
    assert k3 == ["server_id"] && k3[1..] == [];
    assert FirstFilled(data, k3) == Or(Field(data, "server_id"), "");
    assert FirstFilled(data, k2) == Or(Field(data, "sId"), FirstFilled(data, k3));
    assert FirstFilled(data, k1) == Or(Field(data, "serverId"), FirstFilled(data, k2));
  }

  /**
   * `totp_validate`'s handling of the reply: success status and a non-empty
   * token, sid and base URL; the server id may be empty.
   */
  function ValidateOutcome(reply: Reply): (r: Result<EditSession, HandshakeError>)
    ensures r.Success? <==>
      reply.Answered? && Field(reply.data, "status") == SuccessStatus &&
      Field(reply.data, "token") != "" && Field(reply.data, "sid") != "" && Field(reply.data, "baseUrl") != ""
    ensures r.Success? ==>
      r.value == EditSession(reply.data["token"], reply.data["sid"], FirstFilled(reply.data, ServerIdKeys), reply.data["baseUrl"])
    ensures r.Success? && r.value.serverId == "" ==>
      forall i :: 0 <= i < |ServerIdKeys| ==> Field(reply.data, ServerIdKeys[i]) == ""
    ensures r == Failure(TransportError) <==> reply.NoAnswer?
    ensures r == Failure(NotSuccess) <==> reply.Answered? && Field(reply.data, "status") != SuccessStatus
  {
    match reply
    case NoAnswer => Failure(TransportError)
    case Answered(data) =>
      if Field(data, "status") != SuccessStatus then Failure(NotSuccess)
      else
        var serverId := FirstFilled(data, ServerIdKeys);
        if Field(data, "token") == "" || Field(data, "sid") == "" || Field(data, "baseUrl") == "" then Failure(MissingFields)
        else Success(EditSession(data["token"], data["sid"], serverId, data["baseUrl"]))
  }
}
