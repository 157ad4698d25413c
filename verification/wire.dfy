/** What crosses the agent's boundary: outcomes of HTTP calls as the agent
    observes them, and the MQTT topics, subscriptions and publications it
    issues. The transports themselves are not modelled; only their results. */
module Wire {
  import opened Json
  import opened Optional

  /** The only status the agent treats as success for a JSON reply. */
  const StatusOk: int := 200

  /** Outcome of an HTTP call whose body the agent reads as JSON
      (`requests.post(...)` / `requests.get(...)` followed by `r.json()`).
      `json` is `None` when the body is not valid JSON. */
  datatype JsonReply =
    | CallRaised
    | Reply(status: int, json: Option<Value>)

  /** Outcome of the artifact download (`requests.get(url)`), carrying the raw
      body bytes when a response arrived. */
  datatype Download =
    | FetchRaised
    | Fetched(status: int, content: seq<bv8>)

  /** `r.raise_for_status()` raises exactly for client (4xx) and server (5xx)
      error statuses. */
  predicate IsHttpError(status: int)
    ensures IsHttpError(status) <==> status / 100 == 4 || status / 100 == 5
  {
    400 <= status < 600
  }

  /** The download step succeeds when `requests.get` returned and
      `raise_for_status` did not raise; the content itself is not inspected. */
  predicate DownloadSucceeded(d: Download)
    ensures DownloadSucceeded(d) ==> d.Fetched?
    ensures d.Fetched? ==> (DownloadSucceeded(d) <==> d.status < 400 || 600 <= d.status)
  {
    d.Fetched? && !IsHttpError(d.status)
  }

  /** MQTT quality of service used for every subscribe and publish. */
  const AtLeastOnce: int := 1

  datatype Subscription = Subscription(topic: string, qos: int)

  datatype Publication = Publication(topic: string, payload: map<string, Value>, qos: int)

  /** `devices/{uuid}/commands`: where print commands arrive. */
  function CommandsTopic(uuid: string): string {
    "devices/" + uuid + "/commands"
  }

  /** `devices/{uuid}/logs`: where completion records are published. */
  function LogsTopic(uuid: string): string {
    "devices/" + uuid + "/logs"
  }

  /** Distinct devices listen on distinct command topics, and no device's
      command topic is any device's log topic, so the agent never receives
      its own completion records as commands. */
  lemma TopicsAreDistinct(a: string, b: string)
    ensures CommandsTopic(a) == CommandsTopic(b) ==> a == b
    ensures LogsTopic(a) == LogsTopic(b) ==> a == b
    ensures CommandsTopic(a) != LogsTopic(b)
  {
    var ca, cb := CommandsTopic(a), CommandsTopic(b);
    if ca == cb {
      assert a == ca[8..|ca| - 9];
    }
    var la, lb := LogsTopic(a), LogsTopic(b);
    if la == lb {
      assert a == la[8..|la| - 5];
    }
    var lb' := LogsTopic(b);
    assert ca[|ca| - 2] == 'd' && lb'[|lb'| - 2] == 'g';
  }
}
