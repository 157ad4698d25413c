/** Requesting a pairing session (`DeviceGUI.request_session_qr`): whether a
    request is made, which address it goes to, how the reply is interpreted,
    and when the stored upload URL and session token change. The QR image
    handling that follows the state update only logs and draws, and is not
    part of this module. */
module Session {
  import opened Json
  import opened Text
  import opened Optional
  import opened Wire
  import opened GuiState

  const SessionPath: string := "/api/device/session"
  const UploadPath: string := "/session_upload?token="
  /** The lifetime, in seconds, requested when the caller gives none. */
  const DefaultLifetime: int := 300

  /** `POST {api}/api/device/session` with `Authorization: Bearer {secret}`
      and body `{"lifetime": lifetime}`. */
  datatype SessionRequest = SessionRequest(url: string, bearer: Value, lifetime: int)

  /** How one call ended. `Raised` is an exception that escapes the method:
      the reply is valid JSON but not an object, or the token fallback
      concatenates a token that is not a string. `NotRequested` is the
      constructor not calling the method at all. */
  datatype SessionOutcome =
    | NoSecret
    | RequestFailed
    | BadStatus(status: int)
    | InvalidJson
    | Raised
    | Updated
    | NotRequested

  datatype SessionStep = SessionStep(request: Option<SessionRequest>, outcome: SessionOutcome, gui: DeviceGui)

  /** The session token named by a reply: `token`, else `session_token`. */
  function TokenFrom(j: map<string, Value>): (t: Value)
    ensures Truthy(t) <==> Truthy(Get(j, "token")) || Truthy(Get(j, "session_token"))
    ensures t == Get(j, "token") || t == Get(j, "session_token")
    ensures Truthy(Get(j, "token")) ==> t == Get(j, "token")
    ensures !Truthy(Get(j, "token")) ==> t == Get(j, "session_token")
  {
    Or(Get(j, "token"), Get(j, "session_token"))
  }

  /** The upload URL named by a reply, or `None` when computing it raises.
      Falsy values are skipped: `upload_url`, then `uploadUrl`, then an
      address built from the token, then no URL at all. */
  function UploadUrlFrom(api: string, j: map<string, Value>): (r: Option<Value>)
    ensures Truthy(Get(j, "upload_url")) ==> r == Some(Get(j, "upload_url"))
    ensures !Truthy(Get(j, "upload_url")) && Truthy(Get(j, "uploadUrl")) ==> r == Some(Get(j, "uploadUrl"))
    ensures !Truthy(Get(j, "upload_url")) && !Truthy(Get(j, "uploadUrl")) ==>
      var t := TokenFrom(j);
      && (!Truthy(t) ==> r == Some(Null))
      && (Truthy(t) && t.Str? ==> r == Some(Str(JoinUrl(api, UploadPath) + t.s)))
      && (r.None? <==> Truthy(t) && !t.Str?)
  {
    // the source lists `upload_url` a second time after `uploadUrl`
    var url := Or(Or(Get(j, "upload_url"), Get(j, "uploadUrl")), Get(j, "upload_url"));
    var t := TokenFrom(j);
    if Truthy(url) then Some(url)
    else if !Truthy(t) then Some(Null)
    else if t.Str? then Some(Str(JoinUrl(api, UploadPath) + t.s))
    else None
  }

  /** A reply that makes `request_session_qr` raise instead of logging and
      returning: a 200 JSON body that is not an object, or one whose token
      fallback concatenates a token that is not a string. */
  predicate ReplyRaises(api: string, reply: JsonReply) {
    reply.Reply? && reply.status == StatusOk && reply.json.Some?
    && (!reply.json.value.Obj? || UploadUrlFrom(api, reply.json.value.fields).None?)
  }

  /** Interprets the HTTP reply once a request has been made. */
  function ApplyReply(g: DeviceGui, api: string, reply: JsonReply): (r: (SessionOutcome, DeviceGui))
    ensures r.0 != NoSecret && r.0 != NotRequested
    ensures r.0 == RequestFailed <==> reply.CallRaised?
    ensures r.0.BadStatus? <==> reply.Reply? && reply.status != StatusOk
    ensures r.0.BadStatus? ==> r.0.status == reply.status
    ensures r.0 == InvalidJson <==> reply.Reply? && reply.status == StatusOk && reply.json.None?
    ensures r.0 == Raised <==> ReplyRaises(api, reply)
    ensures r.0 != Updated ==> r.1 == g
    ensures r.0 == Updated <==>
      reply.Reply? && reply.status == StatusOk && reply.json.Some? && reply.json.value.Obj?
      && UploadUrlFrom(api, reply.json.value.fields).Some?
    ensures r.0 == Updated ==>
      var j := reply.json.value.fields;
      r.1 == g.(uploadUrl := UploadUrlFrom(api, j).value, sessionToken := TokenFrom(j))
  {
    match reply
    case CallRaised => (RequestFailed, g)
    case Reply(status, json) =>
      if status != StatusOk then (BadStatus(status), g)
      else if json.None? then (InvalidJson, g)
      else if !json.value.Obj? then (Raised, g)
      else
        var j := json.value.fields;
        match UploadUrlFrom(api, j)
        case None => (Raised, g)
        case Some(url) => (Updated, g.(uploadUrl := url, sessionToken := TokenFrom(j)))
  }

  /** One call of `request_session_qr(lifetime)`, the backend's reply given as
      `reply` (ignored when no request is sent). */
  function RequestSession(g: DeviceGui, api: string, lifetime: int, reply: JsonReply): (r: SessionStep)
    ensures r.request.Some? <==> Truthy(g.clientSecret)
    ensures r.request.Some? ==>
      r.request.value == SessionRequest(JoinUrl(api, SessionPath), g.clientSecret, lifetime)
    ensures r.outcome == NoSecret <==> !Truthy(g.clientSecret)
    ensures r.outcome != NotRequested
    ensures r.request.Some? ==> (r.outcome == Raised <==> ReplyRaises(api, reply))
    ensures r.request.Some? ==> (r.outcome == RequestFailed <==> reply.CallRaised?)
    ensures r.request.Some? ==>
      && (r.outcome.BadStatus? <==> reply.Reply? && reply.status != StatusOk)
      && (r.outcome.BadStatus? ==> r.outcome.status == reply.status)
      && (r.outcome == InvalidJson <==> reply.Reply? && reply.status == StatusOk && reply.json.None?)
    ensures r.outcome != Updated ==> r.gui == g
    ensures r.outcome == Updated ==>
      && r.gui.clientSecret == g.clientSecret
      && r.gui.deviceUuid == g.deviceUuid
      && r.gui.mqttConnected == g.mqttConnected
      && r.gui.mqttClientSet == g.mqttClientSet
  {
    if !Truthy(g.clientSecret) then SessionStep(None, NoSecret, g)
    else
      var (outcome, g') := ApplyReply(g, api, reply);
      SessionStep(Some(SessionRequest(JoinUrl(api, SessionPath), g.clientSecret, lifetime)), outcome, g')
  }

  /** The constructor (`DeviceGUI.__init__`): the fields start empty and the
      initial session request, with the default lifetime, is made only when
      both the secret and the device id are truthy; the empty device id
      stands for a missing one. A `Raised` outcome here escapes the
      constructor itself. The MQTT fields are those set before the request
      (lines 74-75): the connect thread started just before it is not
      interleaved. */
  function Construct(secret: Value, uuid: string, api: string, reply: JsonReply): (r: SessionStep)
    ensures r.request.Some? <==> Truthy(secret) && uuid != ""
    ensures r.request.None? <==> r.outcome == NotRequested
    ensures r.request.Some? ==>
      r.request.value == SessionRequest(JoinUrl(api, SessionPath), secret, DefaultLifetime)
    ensures r.gui.clientSecret == secret && r.gui.deviceUuid == uuid
    ensures !r.gui.mqttConnected && !r.gui.mqttClientSet
    ensures r.outcome != Updated ==> r.gui.uploadUrl == Null && r.gui.sessionToken == Null
    ensures r.request.Some? ==>
      (r.outcome == Updated <==>
        reply.Reply? && reply.status == StatusOk && reply.json.Some? && reply.json.value.Obj?
        && UploadUrlFrom(api, reply.json.value.fields).Some?)
    ensures r.request.Some? ==> (r.outcome == Raised <==> ReplyRaises(api, reply))
    ensures r.request.Some? ==> r.outcome != NoSecret
    ensures r.request.Some? ==> (r.outcome == RequestFailed <==> reply.CallRaised?)
    ensures r.request.Some? ==>
      && (r.outcome.BadStatus? <==> reply.Reply? && reply.status != StatusOk)
      && (r.outcome.BadStatus? ==> r.outcome.status == reply.status)
      && (r.outcome == InvalidJson <==> reply.Reply? && reply.status == StatusOk && reply.json.None?)
    ensures r.outcome == Updated ==>
      && reply.Reply? && reply.status == StatusOk && reply.json.Some? && reply.json.value.Obj?
      && UploadUrlFrom(api, reply.json.value.fields).Some?
      && r.gui.uploadUrl == UploadUrlFrom(api, reply.json.value.fields).value
      && r.gui.sessionToken == TokenFrom(reply.json.value.fields)
  {
    var g := Initial(secret, uuid);
    if Truthy(secret) && uuid != "" then RequestSession(g, api, DefaultLifetime, reply)
    else SessionStep(None, NotRequested, g)
  }

  /** The stored URL and token change exactly on a 200 reply whose body is a
      JSON object, sent because a secret is present, and then both are
      overwritten, even when the reply names neither a URL nor a token. */
  lemma StoredSessionChangesOnlyOnSuccess(g: DeviceGui, api: string, lifetime: int, reply: JsonReply)
    ensures var r := RequestSession(g, api, lifetime, reply);
      && (r.outcome == Updated <==>
           Truthy(g.clientSecret) && reply.Reply? && reply.status == StatusOk && reply.json.Some?
           && reply.json.value.Obj? && UploadUrlFrom(api, reply.json.value.fields).Some?)
      && (r.outcome == Updated ==>
           var j := reply.json.value.fields;
           && r.gui.uploadUrl == UploadUrlFrom(api, j).value
           && r.gui.sessionToken == TokenFrom(j)
           && ((!Truthy(Get(j, "upload_url")) && !Truthy(Get(j, "uploadUrl")) && !Truthy(TokenFrom(j)))
                 ==> r.gui.uploadUrl == Null && !Truthy(r.gui.sessionToken)))
      && (r.outcome != Updated ==> r.gui.uploadUrl == g.uploadUrl && r.gui.sessionToken == g.sessionToken)
  {
  }

  /** A successful refresh forgets the previous session: the resulting URL
      and token depend only on the reply, not on what was stored before. */
  lemma RefreshForgetsPreviousSession(g1: DeviceGui, g2: DeviceGui, api: string, lifetime: int, reply: JsonReply)
    requires g1.clientSecret == g2.clientSecret
    requires RequestSession(g1, api, lifetime, reply).outcome == Updated
    ensures RequestSession(g2, api, lifetime, reply).outcome == Updated
    ensures RequestSession(g1, api, lifetime, reply).gui.uploadUrl == RequestSession(g2, api, lifetime, reply).gui.uploadUrl
    ensures RequestSession(g1, api, lifetime, reply).gui.sessionToken == RequestSession(g2, api, lifetime, reply).gui.sessionToken
  {
  }

  /** A truthy `upload_url` wins whatever else the reply holds, and a truthy
      `uploadUrl` wins over the token whenever `upload_url` is falsy. */
  lemma UploadUrlPrecedence(api: string, j: map<string, Value>, v: Value)
    requires Truthy(v)
    ensures UploadUrlFrom(api, j["upload_url" := v]) == Some(v)
    ensures !Truthy(Get(j, "upload_url")) ==> UploadUrlFrom(api, j["uploadUrl" := v]) == Some(v)
  {
  }

  /** The address built from a string token is the trimmed API base, then
      `/session_upload?token=`, then the token itself, with a single slash
      at the junction. */
  lemma TokenFallbackShape(api: string, j: map<string, Value>)
    requires !Truthy(Get(j, "upload_url")) && !Truthy(Get(j, "uploadUrl"))
    requires TokenFrom(j).Str? && Truthy(TokenFrom(j))
    ensures var b := TrimTrailingSlashes(api);
      var r := UploadUrlFrom(api, j);
      && r.Some? && r.value.Str?
      && r.value.s == b + UploadPath + TokenFrom(j).s
      && r.value.s[|b|] == '/' && (|b| == 0 || r.value.s[|b| - 1] != '/')
  {
  }
}
