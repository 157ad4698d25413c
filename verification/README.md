# Easy Print device agent — decision logic of `device_gui.py`

The device agent of Easy Print runs on a machine next to a printer. It asks the
print service for a pairing session, shows the upload URL as a QR code, polls
the service for this device's status, listens on MQTT for print commands,
downloads each document, prints it, and acknowledges completion on MQTT.

Almost all of `device_gui.py` is plumbing: a Qt window, threads, `requests`,
paho-MQTT and printing through win32 or CUPS. This project models the
sequential decisions inside it as pure Dafny functions over immutable values,
and proves what those decisions guarantee:

- `Optional`: the optional value used wherever the source has `None` or a
  step raised.
- `Json`: decoded JSON values, Python truthiness, `dict.get` and the
  value-returning `or`.
- `Text`: `str.rstrip("/")` on the API base, joining paths onto it, and the
  decimal rendering of a clock reading.
- `Wire`: HTTP outcomes as the agent sees them, `raise_for_status`, the MQTT
  topics `devices/{uuid}/commands` and `devices/{uuid}/logs`, subscriptions and
  publications.
- `GuiState`: the window fields the logic reads and writes
  (`client_secret`, `device_uuid`, `current_upload_url`, `last_session_token`,
  `mqtt_connected`, whether `mqtt_client` is set).
- `Session`: `request_session_qr` and the constructor's initial call of it.
  It decides whether a request is sent at
  all. It picks the upload URL from aliased reply fields, with a fallback built
  from the token. It overwrites the stored URL and token only on a 200 reply
  whose body is a JSON object.
- `DeviceStatus`: one round of the device-status poll. It finds the first
  entry whose `uuid` is this device and falls back to `"offline"`.
- `MqttLink`: the connect, disconnect and message callbacks. A run of
  callbacks is modelled as a sequence of events. The model covers the
  connected flag, the re-subscription on every connect, and which messages
  start a print job.
- `PrintJob`: the decisions of `_handle_print_job`. It picks the job id,
  stops early when the download or the save fails, and publishes the
  completion record only when a client exists and the connected flag is set.
- `Agent`: how the callbacks and the print-job handler fit together.

Effects outside the process are parameters. The HTTP replies, the download
result, whether the temporary file was written, how printing ended and the
clock readings are all supplied by the caller. The result of `json.loads` or
`r.json()` is given as an optional decoded value.

The model follows `device_gui.py` as written:

- After a failed MQTT connection the agent sleeps a fixed 5 seconds and tries
  again (device_gui.py:54, 312-313).
- Each print command starts its own thread; there is no job table.
- A failed download is logged and the job ends, with no retry.
- Sessions are requested on start-up and on the refresh button, and are never
  expired by the agent.
- Downloads are not checked for size.
- The only status ever published is `completed`.
- Session replies may name the URL `upload_url` or `uploadUrl` and the token
  `token` or `session_token`.

## Model

| member | source | states |
|---|---|---|
| Json.Truthy | device_gui.py:188 | Python truthiness: a value is falsy exactly when it is `None`, `False`, `0`, `""`, `[]` or `{}` |
| Json.GetOr | device_gui.py:253 | `dict.get(k, default)` gives the stored value when the key is present and the default otherwise |
| Json.Get | device_gui.py:252 | `dict.get(k)` gives the stored value when the key is present and `None` otherwise |
| Json.Or | device_gui.py:208-210 | Python `a or b`: the result is one of the operands; it is truthy exactly when either operand is; it is the first operand when that is truthy and the second otherwise |
| Text.TrimTrailingSlashes | device_gui.py:191 | `rstrip("/")` yields a prefix of the base; only slashes were removed; the result does not end in a slash |
| Text.TrimIsUnique | device_gui.py:191 | those three properties determine the trimmed base, so they fully specify `rstrip("/")` |
| Text.TrimIsIdempotent | device_gui.py:191 | trimming an already trimmed base changes nothing |
| Text.JoinUrl | device_gui.py:246 | a backend address ends with the path; what precedes it is a prefix of the base that drops only trailing slashes of the base and does not itself end in a slash |
| Text.NoDoubleSlashAtJunction | device_gui.py:191 | the joined session, devices and token-fallback addresses (lines 191, 211, 246) have exactly one slash where base and path meet, however many slashes the base ended with |
| Text.Decimal | device_gui.py:317 | `str(n)` of a clock reading is a non-empty string of digits; it starts with `0` only for 0, and is then exactly "0" |
| Text.DecimalRoundTrip | device_gui.py:317 | reading those digits back gives the number, so the rendering is injective |
| Wire.IsHttpError | device_gui.py:323 | `raise_for_status` raises exactly for 4xx and 5xx status codes |
| Wire.DownloadSucceeded | device_gui.py:321-327 | a download yields content only when `requests.get` returned, and then exactly when its status is below 400 or at least 600 |
| Wire.TopicsAreDistinct | device_gui.py:267 | command topics of distinct devices differ, log topics of distinct devices differ, and no command topic is a log topic (line 372) |
| Session.TokenFrom | device_gui.py:210 | the token is `token` when that is truthy and `session_token` otherwise; it is truthy exactly when one of them is |
| Session.UploadUrlFrom | device_gui.py:208-211 | the URL is `upload_url` when truthy, else `uploadUrl` when truthy, else the trimmed base plus `/session_upload?token=` plus a truthy string token, else none; a truthy non-string token makes the concatenation raise |
| Session.ApplyReply | device_gui.py:196-212 | each failure has its own outcome: a raised request (lines 196-198), a non-200 status with that status (lines 199-201) and invalid JSON (lines 202-206) are logged and returned from; a 200 JSON body that is not an object (line 208) or whose token fallback meets a truthy non-string token (line 211) raises out of the method. Every failure leaves the state unchanged; otherwise exactly the URL and token fields are overwritten |
| Session.RequestSession | device_gui.py:187-212 | a request is sent exactly when `client_secret` is truthy, to `{base}/api/device/session` with that secret as bearer and the given lifetime; once sent, the call raises exactly on a 200 JSON reply that is not an object or whose fallback meets a non-string token, and otherwise logs a failed POST, a non-200 status (with that status) or invalid JSON, each exactly in its own case; every outcome except an update leaves the state unchanged, and an update keeps secret, uuid and MQTT fields |
| Session.Construct | device_gui.py:66-87 | the window starts with no URL, no token (lines 145-146), the flag clear and no client; the initial request is sent, with lifetime 300, exactly when both the secret and the device id are present; no outcome is recorded exactly when no request is sent; once sent, the state is updated exactly on a 200 JSON-object reply whose URL computation does not raise, and then holds that reply's URL and token; the constructor raises exactly when the method would (lines 208, 211), and the logged failures are labelled as in `Session.RequestSession`; otherwise no URL or token is stored. The refresh button (line 149) uses the same default lifetime |
| Session.StoredSessionChangesOnlyOnSuccess | device_gui.py:188-212 | the stored URL and token change exactly on a 200 JSON-object reply to a sent request whose URL computation does not raise, that is, unless the token fallback meets a truthy non-string token; then both are overwritten, to none and a falsy token when the reply names neither |
| Session.RefreshForgetsPreviousSession | device_gui.py:210-212 | after a successful refresh the stored URL and token depend only on the reply, not on the session held before |
| Session.UploadUrlPrecedence | device_gui.py:208 | a truthy `upload_url` wins whatever else the reply holds; a truthy `uploadUrl` wins whenever `upload_url` is falsy |
| Session.TokenFallbackShape | device_gui.py:211 | the fallback address is trimmed base, `/session_upload?token=`, token, with a single slash at the junction |
| DeviceStatus.Matches | device_gui.py:252 | an entry is this device's exactly when it has a `uuid` key equal to the device id |
| DeviceStatus.EntryStatus | device_gui.py:253 | the status of a matching entry is its `status` value when present, and "offline" when the key is absent |
| DeviceStatus.StatusAmong | device_gui.py:250-254 | the scan yields the `status` (default "offline" only when absent) of the first entry matching this uuid, "offline" when every entry is a non-matching dict, and raises exactly when a non-dict entry is reached first |
| DeviceStatus.LaterEntriesIgnored | device_gui.py:251-254 | entries after the one where the scan stops never influence the result |
| DeviceStatus.StatusInBody | device_gui.py:249-251 | a list body is scanned; an empty dict or empty string yields "offline"; a non-empty dict or string, or a non-iterable body, raises |
| DeviceStatus.PollDevices | device_gui.py:246-259 | the list is fetched from the trimmed base followed by `/api/devices/`; a status is shown only for a 200 reply with a JSON body, and then exactly when the scan of the body does not raise, showing what it found |
| DeviceStatus.PollShowsFirstMatch | device_gui.py:250-255 | for a list reply the shown status is the first matching entry's status, or "offline" when the device is not listed |
| MqttLink.Route | device_gui.py:282-288 | a job starts exactly for a JSON object whose `command` is "print", with that object; parse failures are dropped; other JSON values raise out of the callback; other commands are ignored |
| MqttLink.FlagFollowsLastLinkEvent | device_gui.py:263-273 | after any run of callbacks the flag is set exactly when some connect is followed by no disconnect, or no connect or disconnect happened and it was already set |
| MqttLink.SubscribedOncePerConnect | device_gui.py:266-268 | a run issues exactly one subscription per connect, each to this device's command topic at QoS 1; callbacks never change the device id or the stored client |
| MqttLink.AfterLinkEvent | device_gui.py:263-273 | right after a connect the flag is set and the latest subscription is to the command topic; right after a disconnect the flag is clear |
| MqttLink.JobsComeOnlyFromPrintMessages | device_gui.py:282-288 | the jobs of a run depend only on its message payloads, in order, not on the starting state or on connects and disconnects; each has command "print" |
| MqttLink.ClientKeptAcrossCallbacks | device_gui.py:271-273 | once the client is stored (line 309) no later callback unsets it, and storing it does not change what the flag becomes |
| PrintJob.FallbackJobId | device_gui.py:317 | the fallback id is `job_` followed by digits |
| PrintJob.FallbackJobIdEncodesTime | device_gui.py:317 | the fallback id's digits read back as the start second, so two fallback ids coincide exactly when their jobs start in the same second |
| PrintJob.JobId | device_gui.py:317 | the job id is always truthy: the message's `job_id` when truthy, else the fallback from the start time |
| PrintJob.HandlePrintJob | device_gui.py:315-377 | the job stops at the download exactly when `requests.get` raised or the status is 4xx/5xx; it stops at the save exactly when the download succeeded and the write failed; otherwise printing runs; a completion is published exactly when printing was reached, a client exists and the flag is set, to the log topic at QoS 1 |
| PrintJob.CompletionExactlyWhenSavedAndConnected | device_gui.py:369-375 | completion is published if and only if download, save, client and flag all hold, on `devices/{uuid}/logs` with the job id, "completed" and the second clock reading |
| PrintJob.PrintingDoesNotAffectCompletion | device_gui.py:339-377 | a printing failure, or no printer at all, does not change whether or what completion is published |
| PrintJob.FallbackIdInCompletion | device_gui.py:317-373 | a job without a truthy id is acknowledged under `job_` plus its start second, with the later clock reading as timestamp |
| Agent.PrintCommandWhileConnectedIsAcknowledged | device_gui.py:263-377 | a print command with a truthy `job_id`, delivered after a connect with no disconnect in between on a device whose client is stored, starts a job; if no disconnect arrives before the job publishes and its download and save succeed, a completion with that id is published on the log topic, however printing ends |
| Agent.NoAcknowledgementAfterDisconnect | device_gui.py:263-273 | when the last connect or disconnect before a job publishes is a disconnect, before or after its message, the job publishes nothing (line 371), whatever happened to the download, save and printing |

## Left out

- The Qt window, its signals, the log pane, `copy_upload_url` and `open_logs_folder` (device_gui.py:60-185) are user interface with no decision logic beyond a truthiness check.
- `_load_credentials` (device_gui.py:89-100) reads a file; the model takes the loaded secret and device id as given. Line 95 looks up the same key twice, which changes nothing.
- The two background threads the constructor starts (device_gui.py:84-85) are concurrency. The initial session request at line 87 is modelled by `Session.Construct`.
- Overlapping refreshes are not modelled. Each click of the refresh button (device_gui.py:149) runs `request_session_qr` on its own thread, so two calls can interleave their stores at lines 211-212. The session contracts describe one call at a time.
- Session.Construct: assumes the MQTT thread started at line 85 does not run its connect (line 309) or the connect callback (line 264) while the initial request waits, so its MQTT fields are those of lines 74-75. In the source that race can set them first.
- The poll loop's repetition and sleep (device_gui.py:243-260), and the MQTT connect loop with its broker settings and fixed 5-second retry (device_gui.py:290-313), are concurrency and timing. Only the assignment of the client at line 309 is modelled.
- What paho-MQTT does when an exception escapes the message callback is not modelled. In the model the routing says `CallbackRaised` and the state does not change.
- HTTP, MQTT transport, JSON parsing, UTF-8 payload decoding and base64 are foreign libraries. Their results enter the model as outcomes.
- The QR image handling (device_gui.py:209, 216-241) only decodes or renders an image and logs.
- Printing through win32 or CUPS and the temporary file write (device_gui.py:329-367) are platform I/O. They enter the model as `saved` and a `PrintOutcome`. The temporary file name is not modelled.
- Log messages, and the serialisation of the completion record with `json.dumps`, are not modelled. The record is kept as a JSON object.
- JSON numbers are integers. Floating-point values, and their truthiness, are not modelled.
- The device id is modelled as a string. The source formats whatever value the credentials file holds.
- DeviceStatus.PollDevices: treats every status value found as shown. A non-string status is still passed to the Qt `status` signal, and its handling there is not modelled.
- PrintJob.HandlePrintJob: the download outcome is a free parameter. A missing or non-string `url`, which makes `requests.get` raise, is therefore not forced to fail.
- device_client.py, device_qr.py and provision_client.py are not part of this model. They are scripts of network and file plumbing that repeat logic already covered here.
