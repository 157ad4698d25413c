/** The decision skeleton of `DeviceGUI._handle_print_job`: which job id is
    used, where the job stops early, and when a completion record is
    published. Downloading, writing the temporary file, printing and the
    clock are supplied as outcomes; the two clock readings are separate
    parameters because the source reads the clock twice. */
module PrintJob {
  import opened Json
  import opened Text
  import opened Optional
  import opened Wire
  import opened GuiState

  const FallbackPrefix: string := "job_"
  const Completed: Value := Str("completed")

  /** How printing ended. Every printing error is caught and only logged. */
  datatype PrintOutcome = SentToPrinter | PrinterError | NoPrinter

  /** Where the job stopped. */
  datatype JobEnd =
    | DownloadFailed
    | SaveFailed
    | Finished(printing: PrintOutcome)

  /** Everything one run of the handler decides: the id it used, the address
      it downloaded from, where it stopped and the completion it published. */
  datatype JobRun = JobRun(jobId: Value, downloadUrl: Value, end: JobEnd, completion: Option<Publication>)

  /** `f"job_{int(time.time())}"` for a clock reading in whole seconds. */
  function FallbackJobId(secs: nat): (id: string)
    ensures |id| > |FallbackPrefix| && id[..|FallbackPrefix|] == FallbackPrefix
    ensures IsDigits(id[|FallbackPrefix|..])
  {
    FallbackPrefix + Decimal(secs)
  }

  /** The fallback id carries the clock reading it was made from, so two
      jobs without an id get the same fallback id exactly when they start in
      the same second. */
  lemma {:induction false} FallbackJobIdEncodesTime(a: nat, b: nat)
    ensures ParseDecimal(FallbackJobId(a)[|FallbackPrefix|..]) == a
    ensures FallbackJobId(a) == FallbackJobId(b) <==> a == b
  {
    assert FallbackJobId(a)[|FallbackPrefix|..] == Decimal(a);
    assert FallbackJobId(b)[|FallbackPrefix|..] == Decimal(b);
    DecimalRoundTrip(a);
    DecimalRoundTrip(b);
  }

  /** `job.get("job_id") or f"job_{...}"`: the message's id when truthy,
      otherwise the fallback made from the start time. */
  function JobId(job: map<string, Value>, startSecs: nat): (id: Value)
    ensures Truthy(id)
    ensures Truthy(Get(job, "job_id")) ==> id == Get(job, "job_id")
    ensures !Truthy(Get(job, "job_id")) ==> id == Str(FallbackJobId(startSecs))
  {
    Or(Get(job, "job_id"), Str(FallbackJobId(startSecs)))
  }

  /** `{"job_id": ..., "status": "completed", "timestamp": ...}`. */
  function CompletionRecord(jobId: Value, secs: nat): map<string, Value> {
    map["job_id" := jobId, "status" := Completed, "timestamp" := Num(secs)]
  }

  /** One run of the handler for the decoded command `job`. `download` is the
      download outcome, `saved` whether writing the temporary file succeeded,
      `printing` how printing ended, and `g` the window state when the
      completion is about to be published. */
  function HandlePrintJob(job: map<string, Value>, startSecs: nat, endSecs: nat,
                          download: Download, saved: bool, printing: PrintOutcome,
                          g: DeviceGui): (r: JobRun)
    ensures r.jobId == JobId(job, startSecs)
    ensures r.downloadUrl == Get(job, "url")
    ensures r.end == DownloadFailed <==> !DownloadSucceeded(download)
    ensures r.end == SaveFailed <==> DownloadSucceeded(download) && !saved
    ensures r.end.Finished? ==> r.end.printing == printing
    ensures r.completion.Some? <==> r.end.Finished? && g.mqttClientSet && g.mqttConnected
    ensures r.completion.Some? ==>
      r.completion.value == Publication(LogsTopic(g.deviceUuid), CompletionRecord(r.jobId, endSecs), AtLeastOnce)
  {
    var id := JobId(job, startSecs);
    var url := Get(job, "url");
    if !DownloadSucceeded(download) then JobRun(id, url, DownloadFailed, None)
    else if !saved then JobRun(id, url, SaveFailed, None)
    else
      var ack :=
        if g.mqttClientSet && g.mqttConnected
        then Some(Publication(LogsTopic(g.deviceUuid), CompletionRecord(id, endSecs), AtLeastOnce))
        else None;
      JobRun(id, url, Finished(printing), ack)
  }

  /** A completion is published exactly when the download succeeded, the
      file was saved, a client exists and the connection flag is set; it goes
      to this device's log topic and names the job's id. */
  lemma CompletionExactlyWhenSavedAndConnected(
    job: map<string, Value>, startSecs: nat, endSecs: nat,
    download: Download, saved: bool, printing: PrintOutcome, g: DeviceGui)
    ensures var r := HandlePrintJob(job, startSecs, endSecs, download, saved, printing, g);
      && (r.completion.Some? <==>
           download.Fetched? && !IsHttpError(download.status) && saved && g.mqttClientSet && g.mqttConnected)
      && (r.completion.Some? ==>
           && r.completion.value.topic == "devices/" + g.deviceUuid + "/logs"
           && r.completion.value.payload["job_id"] == r.jobId
           && r.completion.value.payload["status"] == Str("completed")
           && r.completion.value.payload["timestamp"] == Num(endSecs))
  {
  }

  /** How printing ends never changes whether, or what, completion is
      published. */
  lemma PrintingDoesNotAffectCompletion(
    job: map<string, Value>, startSecs: nat, endSecs: nat,
    download: Download, saved: bool, p1: PrintOutcome, p2: PrintOutcome, g: DeviceGui)
    ensures HandlePrintJob(job, startSecs, endSecs, download, saved, p1, g).completion
         == HandlePrintJob(job, startSecs, endSecs, download, saved, p2, g).completion
  {
  }

  /** A job that carries no truthy id is published under the fallback id,
      whose digits are the start time, while the record's timestamp is the
      later clock reading. */
  lemma {:induction false} FallbackIdInCompletion(
    job: map<string, Value>, startSecs: nat, endSecs: nat,
    download: Download, saved: bool, printing: PrintOutcome, g: DeviceGui)
    requires !Truthy(Get(job, "job_id"))
    ensures var r := HandlePrintJob(job, startSecs, endSecs, download, saved, printing, g);
      r.completion.Some? ==>
        var id := r.completion.value.payload["job_id"];
        && id.Str? && id.s[..|FallbackPrefix|] == FallbackPrefix
        && ParseDecimal(id.s[|FallbackPrefix|..]) == startSecs
        && r.completion.value.payload["timestamp"] == Num(endSecs)
  {
    FallbackJobIdEncodesTime(startSecs, startSecs);
  }
}
