/** One round of the device-status poll (`DeviceGUI._poll_devices_loop`):
    find this device in the backend's device list and decide what status, if
    any, the window shows. The loop around it and its sleep are not part of
    this module. */
module DeviceStatus {
  import opened Json
  import opened Optional
  import opened Text
  import opened Wire

  const DevicesPath: string := "/api/devices/"
  /** Shown when the device is not listed or its entry has no `status`. */
  const Offline: Value := Str("offline")

  /** `dev.get("uuid") == device_uuid` for an entry that is a dict: an entry
      without a `uuid` never matches, since `None` is not a string. */
  predicate Matches(dev: Value, uuid: string)
    requires dev.Obj?
    ensures Matches(dev, uuid) <==> "uuid" in dev.fields && dev.fields["uuid"] == Str(uuid)
  {
    Get(dev.fields, "uuid") == Str(uuid)
  }

  /** The scan reached position `i`: every earlier entry is a dict (so its
      `.get` did not raise) and none of them is this device. */
  predicate Passed(devs: seq<Value>, uuid: string, i: int)
    requires 0 <= i <= |devs|
  {
    forall k :: 0 <= k < i ==> devs[k].Obj? && !Matches(devs[k], uuid)
  }

  /** The scan stops at `i`: it got there, and the entry is either not a dict
      (so `.get` raises) or is this device's entry (so the loop breaks). */
  predicate StopsAt(devs: seq<Value>, uuid: string, i: int)
    requires 0 <= i < |devs|
  {
    Passed(devs, uuid, i) && (!devs[i].Obj? || Matches(devs[i], uuid))
  }

  /** The status of the entry the loop breaks at: its `status`, defaulting to
      "offline" only when the key is absent. */
  function EntryStatus(dev: Value): (status: Value)
    requires dev.Obj?
    ensures "status" in dev.fields ==> status == dev.fields["status"]
    ensures "status" !in dev.fields ==> status == Str("offline")
  {
    GetOr(dev.fields, "status", Offline)
  }

  /** The `for dev in arr` scan over a JSON list. `None` means an entry was
      not a dict and `.get` raised before this device's entry was found. */
  function StatusAmong(devs: seq<Value>, uuid: string): (r: Option<Value>)
    ensures r.None? <==> exists i :: 0 <= i < |devs| && StopsAt(devs, uuid, i) && !devs[i].Obj?
    ensures forall i :: 0 <= i < |devs| && StopsAt(devs, uuid, i) && devs[i].Obj? ==>
      r == Some(EntryStatus(devs[i]))
    ensures Passed(devs, uuid, |devs|) ==> r == Some(Offline)
    decreases |devs|
  {
    if devs == [] then Some(Offline)
    else
      var rest := StatusAmong(devs[1..], uuid);
      PassedShift(devs, uuid);
      if !devs[0].Obj? then None
      else if Matches(devs[0], uuid) then Some(EntryStatus(devs[0]))
      else rest
  }

  /** Passing the first entry and then `i` more is passing `i + 1` entries. */
  lemma PassedShift(devs: seq<Value>, uuid: string)
    requires |devs| > 0
    ensures forall i :: 0 <= i <= |devs| - 1 ==>
      (Passed(devs, uuid, i + 1) <==>
        devs[0].Obj? && !Matches(devs[0], uuid) && Passed(devs[1..], uuid, i))
  {
    forall i | 0 <= i <= |devs| - 1
      ensures Passed(devs, uuid, i + 1) <==>
        devs[0].Obj? && !Matches(devs[0], uuid) && Passed(devs[1..], uuid, i)
    {
      if devs[0].Obj? && !Matches(devs[0], uuid) && Passed(devs[1..], uuid, i) {
        forall k | 0 <= k < i + 1 ensures devs[k].Obj? && !Matches(devs[k], uuid) {
          if k > 0 {
            assert devs[k] == devs[1..][k - 1];
          }
        }
      }
      if Passed(devs, uuid, i + 1) {
        forall k | 0 <= k < i ensures devs[1..][k].Obj? && !Matches(devs[1..][k], uuid) {
          assert devs[1..][k] == devs[k + 1];
        }
      }
    }
  }

  /** Entries after the one the scan stops at are never looked at. */
  lemma {:induction false} LaterEntriesIgnored(devs: seq<Value>, rest: seq<Value>, uuid: string, i: int)
    requires 0 <= i < |devs| && StopsAt(devs, uuid, i)
    ensures StatusAmong(devs + rest, uuid) == StatusAmong(devs, uuid)
  {
    var all := devs + rest;
    assert all[i] == devs[i];
    assert Passed(all, uuid, i) by {
      forall k | 0 <= k < i ensures all[k].Obj? && !Matches(all[k], uuid) {
        assert all[k] == devs[k];
      }
    }
    assert StopsAt(all, uuid, i);
  }

  /** What the window shows after one poll: `ShowStatus(s)` when the status
      signal is emitted, `NotShown` when the round only logs (the request
      raised, a non-200 status, a body that is not JSON, or a body whose
      iteration raised). */
  datatype PollResult = ShowStatus(status: Value) | NotShown

  /** One round: the address the list is fetched from, and what is shown. */
  datatype PollRound = PollRound(url: string, result: PollResult)

  /** The status found by iterating a decoded body as Python's `for` does: a
      list yields its entries; a dict yields its keys and a string its
      characters, both strings, so the first `.get` raises unless the
      container is empty; `None`, booleans and numbers are not iterable. */
  function StatusInBody(body: Value, uuid: string): (r: Option<Value>)
    ensures body.Arr? ==> r == StatusAmong(body.items, uuid)
    ensures body.Obj? ==> (r.Some? <==> body.fields == map[])
    ensures body.Str? ==> (r.Some? <==> body.s == "")
    ensures r.Some? && !body.Arr? ==> r.value == Offline
    ensures body.Null? || body.Bool? || body.Num? ==> r.None?
  {
    match body
    case Arr(items) => StatusAmong(items, uuid)
    case Obj(fields) => if fields == map[] then Some(Offline) else None
    case Str(s) => if s == "" then Some(Offline) else None
    case _ => None
  }

  /** One poll round against the API base `api`, given the reply of the
      `GET` it sends. */
  function PollDevices(api: string, uuid: string, reply: JsonReply): (r: PollRound)
    ensures r.url == JoinUrl(api, DevicesPath)
    ensures r.result.ShowStatus? ==> reply.Reply? && reply.status == StatusOk && reply.json.Some?
    ensures reply.Reply? && reply.status == StatusOk && reply.json.Some? ==>
      var found := StatusInBody(reply.json.value, uuid);
      (r.result.ShowStatus? <==> found.Some?) && (found.Some? ==> r.result.status == found.value)
  {
    var url := JoinUrl(api, DevicesPath);
    match reply
    case CallRaised => PollRound(url, NotShown)
    case Reply(status, json) =>
      if status != StatusOk || json.None? then PollRound(url, NotShown)
      else
        match StatusInBody(json.value, uuid)
        case Some(s) => PollRound(url, ShowStatus(s))
        case None => PollRound(url, NotShown)
  }

  /** A listed device that is the first dict entry with this uuid shows that
      entry's status; an unlisted device in a list of dicts shows "offline". */
  lemma PollShowsFirstMatch(api: string, uuid: string, devs: seq<Value>)
    ensures forall i :: 0 <= i < |devs| && StopsAt(devs, uuid, i) && devs[i].Obj? ==>
      PollDevices(api, uuid, Reply(StatusOk, Some(Arr(devs)))).result == ShowStatus(EntryStatus(devs[i]))
    ensures Passed(devs, uuid, |devs|) ==>
      PollDevices(api, uuid, Reply(StatusOk, Some(Arr(devs)))).result == ShowStatus(Offline)
  {
  }
}
