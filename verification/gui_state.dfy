/** The fields of the device window that the decision logic reads and writes.
    Widgets, signals and threads are not part of this record. */
module GuiState {
  import opened Json

  /** `client_secret` is kept as the decoded credential value (the source only
      tests it for truthiness and interpolates it into a header);
      `current_upload_url` and `last_session_token` hold whatever the last
      accepted session reply produced, `Null` standing for `None`;
      `mqttClientSet` says whether `self.mqtt_client` has been assigned. */
  datatype DeviceGui = DeviceGui(
    clientSecret: Value,
    deviceUuid: string,
    uploadUrl: Value,
    sessionToken: Value,
    mqttConnected: bool,
    mqttClientSet: bool)

  /** The fields once credentials are loaded and before the constructor's
      initial session request (device_gui.py line 87). */
  function Initial(secret: Value, uuid: string): DeviceGui {
    DeviceGui(secret, uuid, Null, Null, false, false)
  }
}
