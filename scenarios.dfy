/** Whole sessions driven through the tracker's event handlers, in the order
    the transport would deliver the events. */
module Scenarios {
  import opened Wrappers
  import opened MapElements
  import opened Layout
  import opened Protocol
  import opened Evaluator
  import opened Autotracker

  /** A fresh session that has dialled, attached to `device` and seen the
      valid game mode `mode`: it is TRACKING, the timer is paused and packets
      go to the assembler, both snapshot reads have been requested and no
      byte has arrived yet. */
  method StartTracking(modes: set<bv8>, mode: bv8, savedataStart: nat, wramStart: nat,
                       device: string)
    returns (t: Tracker)
    requires mode in modes
    ensures fresh(t) && t.Valid()
    ensures t.validGamemodes == modes && t.savedataStart == savedataStart && t.wramStart == wramStart
    ensures t.status == TRACKING && t.handler == BuildLocationDataHandler
    ensures t.timerRunning && t.timerPaused && t.timerInTree
    ensures t.locationData == None && t.oldLocationData == None
    ensures t.sent == [DeviceList, Attach(device)] + SnapshotRequests(savedataStart)
    ensures t.processing
  {
    t := new Tracker(modes, savedataStart, wramStart);
    var dialled := t.ConnectAt(true);
    t.Connected();
    var evaluated := t.DataReceived([], Devices([device]));
    assert t.status == CONNECTED && t.timerRunning && !t.timerPaused && t.handler == OnDataHandler;
    assert t.sent == [DeviceList, Attach(device)];
    evaluated := t.DataReceived([mode], MalformedReply);
  }

  /** A complete first tracking round: dial, attach to the first device, see
      a valid game mode, receive both read windows. The snapshot is
      evaluated against all zeros, kept, and the session is back in
      CONNECTED with the timer ticking, so the next tick polls the game
      mode again. */
  method TrackingRound(modes: set<bv8>, mode: bv8, savedataStart: nat, wramStart: nat,
                       device: string, first: seq<bv8>, second: seq<bv8>)
    returns (t: Tracker, outcomes: Option<map<MapElementKind, Outcome>>)
    requires mode in modes
    requires |first| <= FirstWindowSize && |second| == SecondWindowSize
    ensures outcomes == Some(EvaluateTable(PadFirstPacket(first) + second, Zeros(SnapshotSize)))
    ensures fresh(t)
    ensures t.status == CONNECTED && t.TimerFires() && t.handler == OnDataHandler
    ensures t.locationData == None && t.oldLocationData == Some(PadFirstPacket(first) + second)
    ensures t.sent == [DeviceList, Attach(device)] + SnapshotRequests(savedataStart)
                      + [ReadRequest(wramStart + 0x10, 1)]
  {
    t := StartTracking(modes, mode, savedataStart, wramStart, device);
    ghost var requested := t.sent;
    outcomes := t.DataReceived(first, MalformedReply);
    assert t.locationData == Some(PadFirstPacket(first)) && t.oldLocationData == None;
    assert t.handler == BuildLocationDataHandler;
    AssembledSnapshot(first, second);
    outcomes := t.DataReceived(second, MalformedReply);
    assert t.status == CONNECTED && t.sent == requested && t.timerRunning;
    t.OnTimerTimeout();
  }

  /** Connecting again while a connection attempt is under way changes
      nothing. */
  method ConnectWhileConnecting(device: string) returns (t: Tracker, dialled: bool)
    ensures fresh(t)
    ensures !dialled && t.status == CONNECTING && t.sent == [DeviceList] && t.processing
  {
    t := new Tracker({}, 0, 0);
    dialled := t.ConnectAt(true);
    t.Connected();
    dialled := t.ConnectAt(false);
  }

  /** Closing takes the timer out of the scene tree and no handler adds it
      back: after a reconnect the session is attached and CONNECTED with a
      running, unpaused timer that never ticks, so the game mode is never
      polled again. */
  method ReconnectLeavesTimerSilent(device: string) returns (t: Tracker)
    ensures fresh(t)
    ensures t.status == CONNECTED && t.timerRunning && !t.timerPaused && !t.TimerFires()
    ensures t.sent == [DeviceList, Attach(device), DeviceList, Attach(device)]
  {
    t := new Tracker({}, 0, 0);
    var dialled := t.ConnectAt(true);
    t.Connected();
    var evaluated := t.DataReceived([], Devices([device]));
    assert t.status == CONNECTED && t.handler == OnDataHandler;
    t.Closed();
    assert t.handler == OnDataHandler && !t.timerInTree && !t.timerPaused;
    dialled := t.ConnectAt(true);
    t.Connected();
    assert t.status == CONNECTING && t.sent == [DeviceList, Attach(device), DeviceList];
    evaluated := t.DataReceived([], Devices([device]));
  }

  /** As written: the connection drops after the first read window arrived.
      `_closed` clears the buffers but leaves `data_received` bound to
      `_build_location_data` and the timer paused, so after reconnecting,
      the bridge's device-list reply is taken as the first packet of a
      snapshot, no Attach request is ever sent and the session stays in
      CONNECTING. */
  method DropDuringSnapshotAsWritten(modes: set<bv8>, mode: bv8, device: string,
                                     first: seq<bv8>, reply: seq<bv8>)
    returns (t: Tracker)
    requires mode in modes
    ensures fresh(t)
    ensures t.status == CONNECTING && t.handler == BuildLocationDataHandler
    ensures t.locationData == Some(PadFirstPacket(reply))
    ensures t.timerPaused && !t.TimerFires()
    ensures |t.sent| > 0 && t.sent[|t.sent| - 1] == DeviceList
  {
    t := StartTracking(modes, mode, 0, 0, device);
    var evaluated := t.DataReceived(first, MalformedReply);
    assert t.handler == BuildLocationDataHandler && t.timerPaused;
    t.Closed();
    assert t.timerPaused && t.handler == BuildLocationDataHandler && t.locationData == None;
    var dialled := t.ConnectAt(true);
    assert t.timerPaused && t.handler == BuildLocationDataHandler && t.locationData == None;
    t.Connected();
    assert t.timerPaused && t.locationData == None && t.status == CONNECTING;
    assert t.handler == BuildLocationDataHandler;
    evaluated := t.DataReceived(reply, Devices([device]));
  }

  /** With the corrected `_closed`, the same events reattach: the reply goes
      to `_on_data`, the first device is attached, and the session is back in
      CONNECTED with a running, unpaused timer and no stale bytes. */
  method DropDuringSnapshotCorrected(modes: set<bv8>, mode: bv8, device: string,
                                     first: seq<bv8>, reply: seq<bv8>)
    returns (t: Tracker)
    requires mode in modes
    ensures fresh(t)
    ensures t.status == CONNECTED && t.handler == OnDataHandler
    ensures t.timerRunning && !t.timerPaused && !t.timerInTree
    ensures t.locationData == None && t.oldLocationData == None
    ensures |t.sent| > 0 && t.sent[|t.sent| - 1] == Attach(device)
  {
    t := StartTracking(modes, mode, 0, 0, device);
    var evaluated := t.DataReceived(first, MalformedReply);
    assert t.handler == BuildLocationDataHandler && t.timerPaused;
    t.ClosedRestoringHandler();
    assert t.handler == OnDataHandler && !t.timerPaused && t.locationData == None;
    var dialled := t.ConnectAt(true);
    t.Connected();
    assert t.handler == OnDataHandler && t.status == CONNECTING && t.locationData == None;
    evaluated := t.DataReceived(reply, Devices([device]));
  }
}
