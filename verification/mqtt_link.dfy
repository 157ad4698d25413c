/** The MQTT callbacks of the device window: `_on_mqtt_connect`,
    `_on_mqtt_disconnect` and `_on_mqtt_message`, plus the one assignment of
    the connect loop that stores the client. The client library, its network
    loop and the reconnect loop are not part of this module; a run of the
    callbacks is modelled as a sequence of events. */
module MqttLink {
  import opened Json
  import opened Optional
  import opened Wire
  import opened GuiState

  /** `_on_mqtt_connect`: the flag is set and the command topic is
      subscribed again, at QoS 1, on every connect. */
  function OnConnect(g: DeviceGui): (DeviceGui, Subscription)
  {
    (g.(mqttConnected := true), Subscription(CommandsTopic(g.deviceUuid), AtLeastOnce))
  }

  /** `_on_mqtt_disconnect`: only the flag changes. */
  function OnDisconnect(g: DeviceGui): DeviceGui
  {
    g.(mqttConnected := false)
  }

  /** `self.mqtt_client = client` once `client.connect(...)` has returned. */
  function AttachClient(g: DeviceGui): DeviceGui
  {
    g.(mqttClientSet := true)
  }

  /** What `_on_mqtt_message` does with a payload. `ParseFailed`: the payload
      is not JSON (logged, nothing else). `CallbackRaised`: the payload is JSON
      but not an object, so `job.get` raises out of the callback. `Ignored`: an
      object whose `command` is not "print". `StartJob`: a print job is handed
      to a new thread with the decoded object. */
  datatype Routing =
    | ParseFailed
    | CallbackRaised
    | Ignored
    | StartJob(job: map<string, Value>)

  /** Routes one inbound message, given the result of decoding its payload
      (`None` when `json.loads` raises). */
  function Route(parsed: Option<Value>): (r: Routing)
    ensures r.StartJob? <==>
      parsed.Some? && parsed.value.Obj? && Get(parsed.value.fields, "command") == Str("print")
    ensures r.StartJob? ==> parsed.value == Obj(r.job)
    ensures r == ParseFailed <==> parsed.None?
    ensures r == CallbackRaised <==> parsed.Some? && !parsed.value.Obj?
  {
    match parsed
    case None => ParseFailed
    case Some(v) =>
      if !v.Obj? then CallbackRaised
      else if Get(v.fields, "command") == Str("print") then StartJob(v.fields)
      else Ignored
  }

  /** Callback invocations as the client library delivers them. */
  datatype Event =
    | Connected
    | Disconnected
    | Message(parsed: Option<Value>)

  /** The state after a run of callbacks together with everything the run
      issued: the subscriptions, in order, and the jobs started, in order. */
  datatype Run = Run(gui: DeviceGui, subscriptions: seq<Subscription>, jobs: seq<map<string, Value>>)

  /** One callback applied to a run. */
  function Step(r: Run, e: Event): Run {
    match e
    case Connected =>
      var (g', sub) := OnConnect(r.gui);
      Run(g', r.subscriptions + [sub], r.jobs)
    case Disconnected => Run(OnDisconnect(r.gui), r.subscriptions, r.jobs)
    case Message(parsed) =>
      match Route(parsed)
      case StartJob(job) => Run(r.gui, r.subscriptions, r.jobs + [job])
      case _ => r
  }

  /** The callbacks `events` applied, in order, to `g`. */
  function Replay(g: DeviceGui, events: seq<Event>): Run
    decreases |events|
  {
    if events == [] then Run(g, [], [])
    else Step(Replay(g, events[..|events| - 1]), events[|events| - 1])
  }

  /** The connected flag a run leaves, defined independently of `Replay`:
      true when some connect is followed by no disconnect, or when no
      connect or disconnect happened and the flag was already set. */
  ghost predicate ConnectedAfter(initial: bool, events: seq<Event>) {
    || (exists i :: 0 <= i < |events| && events[i].Connected? &&
          forall k :: i < k < |events| ==> !events[k].Disconnected?)
    || (initial && forall k :: 0 <= k < |events| ==> events[k].Message?)
  }

  /** How many connect callbacks a run contains. */
  function Connects(events: seq<Event>): nat {
    if events == [] then 0
    else Connects(events[..|events| - 1]) + (if events[|events| - 1].Connected? then 1 else 0)
  }

  /** The flag after any run is exactly the independent definition above:
      set by the last connect unless a disconnect came later. */
  lemma {:induction false} FlagFollowsLastLinkEvent(g: DeviceGui, events: seq<Event>)
    ensures Replay(g, events).gui.mqttConnected <==> ConnectedAfter(g.mqttConnected, events)
    decreases |events|
  {
    if events != [] {
      var n := |events| - 1;
      var pre := events[..n];
      FlagFollowsLastLinkEvent(g, pre);
      var e := events[n];
      if e.Connected? {
        assert ConnectedAfter(g.mqttConnected, events) by {
          assert events[n].Connected?;
        }
      } else if e.Disconnected? {
        assert !ConnectedAfter(g.mqttConnected, events) by {
          assert events[n].Disconnected?;
        }
      } else {
        if ConnectedAfter(g.mqttConnected, pre) {
          if exists i :: 0 <= i < |pre| && pre[i].Connected? &&
              forall k :: i < k < |pre| ==> !pre[k].Disconnected? {
            var i :| 0 <= i < |pre| && pre[i].Connected? &&
              forall k :: i < k < |pre| ==> !pre[k].Disconnected?;
            assert events[i].Connected?;
            assert forall k :: i < k < |events| ==> !events[k].Disconnected? by {
              forall k | i < k < |events| ensures !events[k].Disconnected? {
                if k < n { assert events[k] == pre[k]; }
              }
            }
          } else {
            assert forall k :: 0 <= k < |events| ==> events[k].Message? by {
              forall k | 0 <= k < |events| ensures events[k].Message? {
                if k < n { assert events[k] == pre[k]; }
              }
            }
          }
        }
      }
    }
  }

  /** Every connect issues exactly one subscription, always to this device's
      command topic at QoS 1; callbacks never change the device id or the
      stored client. */
  lemma {:induction false} SubscribedOncePerConnect(g: DeviceGui, events: seq<Event>)
    ensures Replay(g, events).gui.deviceUuid == g.deviceUuid
    ensures Replay(g, events).gui.mqttClientSet == g.mqttClientSet
    ensures |Replay(g, events).subscriptions| == Connects(events)
    ensures forall s :: s in Replay(g, events).subscriptions ==>
      s == Subscription(CommandsTopic(g.deviceUuid), AtLeastOnce)
    decreases |events|
  {
    if events != [] {
      SubscribedOncePerConnect(g, events[..|events| - 1]);
    }
  }

  /** Right after a connect callback the flag is set and the most recent
      subscription is to the command topic; right after a disconnect the flag
      is clear. */
  lemma AfterLinkEvent(g: DeviceGui, events: seq<Event>)
    ensures var r := Replay(g, events + [Connected]);
      r.gui.mqttConnected && |r.subscriptions| > 0
      && r.subscriptions[|r.subscriptions| - 1] == Subscription(CommandsTopic(g.deviceUuid), AtLeastOnce)
    ensures !Replay(g, events + [Disconnected]).gui.mqttConnected
  {
    assert (events + [Connected])[..|events|] == events;
    assert (events + [Disconnected])[..|events|] == events;
    SubscribedOncePerConnect(g, events);
  }

  /** The payloads of a run's message callbacks, in order; connects and
      disconnects contribute nothing. */
  function Payloads(events: seq<Event>): (ps: seq<Option<Value>>)
    decreases |events|
  {
    if events == [] then []
    else
      var e := events[|events| - 1];
      Payloads(events[..|events| - 1]) + (if e.Message? then [e.parsed] else [])
  }

  /** The print jobs a sequence of payloads asks for, in order. */
  function PrintJobsIn(ps: seq<Option<Value>>): (jobs: seq<map<string, Value>>)
    decreases |ps|
  {
    if ps == [] then []
    else
      var p := ps[|ps| - 1];
      PrintJobsIn(ps[..|ps| - 1]) + (if Route(p).StartJob? then [Route(p).job] else [])
  }

  /** The jobs of a run are determined by its message payloads alone: they
      depend neither on the state the run starts from nor on when connects
      and disconnects happen, and each is a command "print". */
  lemma {:induction false} JobsComeOnlyFromPrintMessages(g: DeviceGui, events: seq<Event>)
    ensures Replay(g, events).jobs == PrintJobsIn(Payloads(events))
    ensures forall j :: j in Replay(g, events).jobs ==> Get(j, "command") == Str("print")
    decreases |events|
  {
    if events != [] {
      var n := |events| - 1;
      JobsComeOnlyFromPrintMessages(g, events[..n]);
      var ps := Payloads(events);
      if events[n].Message? {
        assert ps[..|ps| - 1] == Payloads(events[..n]);
      } else {
        assert ps == Payloads(events[..n]);
      }
    }
  }

  /** Storing the client (line 309) survives every later callback: a
      disconnect clears only the flag, never `mqtt_client`, and storing the
      client does not change what the flag becomes. */
  lemma ClientKeptAcrossCallbacks(g: DeviceGui, events: seq<Event>)
    ensures Replay(AttachClient(g), events).gui.mqttClientSet
    ensures Replay(AttachClient(g), events).gui.mqttConnected == Replay(g, events).gui.mqttConnected
  {
    SubscribedOncePerConnect(AttachClient(g), events);
    FlagFollowsLastLinkEvent(AttachClient(g), events);
    FlagFollowsLastLinkEvent(g, events);
  }
}
