/** How the callbacks and the print-job handler fit together. The job thread
    started for a message reads the connection flag only when it is about to
    publish (device_gui.py line 371), so what matters is the callbacks that
    ran between the message and that moment. */
module Agent {
  import opened Json
  import opened Optional
  import opened Wire
  import opened GuiState
  import opened MqttLink
  import opened PrintJob

  /** A print command delivered while the link is up, on a device whose
      client is stored, starts a job: some connect precedes it and no
      disconnect comes in between (`mid`). If no disconnect arrives before
      the job publishes either (`later` are the callbacks in between), and the
      download and save succeed, the job publishes a completion on the
      device's log topic under the command's own truthy `job_id`, however
      printing ends. */
  lemma {:induction false} PrintCommandWhileConnectedIsAcknowledged(
    g: DeviceGui, events: seq<Event>, mid: seq<Event>, cmd: map<string, Value>, later: seq<Event>,
    startSecs: nat, endSecs: nat, content: seq<bv8>, status: int, printing: PrintOutcome)
    requires g.mqttClientSet
    requires Get(cmd, "command") == Str("print") && Truthy(Get(cmd, "job_id"))
    requires forall k :: 0 <= k < |mid| ==> !mid[k].Disconnected?
    requires forall k :: 0 <= k < |later| ==> !later[k].Disconnected?
    requires !IsHttpError(status)
    ensures var run := Replay(g, events + [Connected] + mid + [Message(Some(Obj(cmd)))]);
      |run.jobs| > 0 && run.jobs[|run.jobs| - 1] == cmd
    ensures var atPublish := Replay(g, events + [Connected] + mid + [Message(Some(Obj(cmd)))] + later).gui;
      HandlePrintJob(cmd, startSecs, endSecs, Fetched(status, content), true, printing, atPublish).completion
      == Some(Publication(LogsTopic(g.deviceUuid),
                          map["job_id" := Get(cmd, "job_id"), "status" := Str("completed"), "timestamp" := Num(endSecs)],
                          AtLeastOnce))
  {
    var head := events + [Connected] + mid;
    var pre := head + [Message(Some(Obj(cmd)))];
    assert pre[..|pre| - 1] == head;
    var all := pre + later;
    SubscribedOncePerConnect(g, all);
    FlagFollowsLastLinkEvent(g, all);
    var i := |events|;
    assert all[i].Connected?;
    assert forall k :: i < k < |all| ==> !all[k].Disconnected? by {
      forall k | i < k < |all| ensures !all[k].Disconnected? {
        if k >= |pre| {
          assert all[k] == later[k - |pre|];
        } else if k < |head| {
          assert all[k] == mid[k - i - 1];
        }
      }
    }
    assert ConnectedAfter(g.mqttConnected, all);
  }

  /** Conversely, when the last connect or disconnect before the job
      publishes is a disconnect, whether it came before or after the message,
      the job publishes nothing, whatever the download, save and printing
      did. */
  lemma {:induction false} NoAcknowledgementAfterDisconnect(
    g: DeviceGui, events: seq<Event>, cmd: map<string, Value>, later: seq<Event>,
    startSecs: nat, endSecs: nat, download: Download, saved: bool, printing: PrintOutcome)
    requires var all := events + [Message(Some(Obj(cmd)))] + later;
      exists d :: 0 <= d < |all| && all[d].Disconnected? &&
                  (forall k :: d < k < |all| ==> !all[k].Connected?)
    ensures var atPublish := Replay(g, events + [Message(Some(Obj(cmd)))] + later).gui;
      HandlePrintJob(cmd, startSecs, endSecs, download, saved, printing, atPublish).completion.None?
  {
    var all := events + [Message(Some(Obj(cmd)))] + later;
    FlagFollowsLastLinkEvent(g, all);
    var d :| 0 <= d < |all| && all[d].Disconnected? &&
      forall k :: d < k < |all| ==> !all[k].Connected?;
  }
}
