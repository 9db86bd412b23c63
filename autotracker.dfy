/** The auto-tracker session: the connection state machine, the snapshot
    assembler and the hand-over to the location evaluator. Packets that
    arrive and timer ticks are the events; every request sent to the
    device bridge is appended to `sent`. */
module Autotracker {
  import opened Wrappers
  import opened MapElements
  import opened Layout
  import opened Protocol
  import opened Evaluator

  datatype Status = DISCONNECTED | CONNECTING | CONNECTED | TRACKING

  /** The callback the client's `data_received` signal is bound to. */
  datatype Handler = OnDataHandler | BuildLocationDataHandler

  /** The outcome of parsing a packet as the JSON device-list reply: the
      `Results` array, or a parse error. */
  datatype DeviceListReply = Devices(results: seq<string>) | MalformedReply

  /** The first packet of a snapshot, extended with zero bytes up to address
      0x410 where the second read begins, so that snapshot indices are save
      data addresses. Growing a byte array by a negative amount fails and
      leaves it empty, so a longer packet is kept as it is. */
  function PadFirstPacket(first: seq<bv8>): (r: seq<bv8>)
    ensures |r| == if |first| <= SecondWindowStart then SecondWindowStart else |first|
    ensures r[..|first|] == first
    ensures forall i :: |first| <= i < |r| ==> r[i] == 0
  {
    if |first| <= SecondWindowStart then first + Zeros(SecondWindowStart - |first|) else first
  }

  /** The two reads of `get_location_data`. */
  function SnapshotRequests(savedataStart: nat): seq<Message> {
    [ReadRequest(savedataStart, 0x400), ReadRequest(savedataStart + 0x410, 2)]
  }

  /** The two reads cover save data `[0, 0x400)` and `[0x410, 0x412)`,
      relative to the save data base address: exactly the windows the
      layout table addresses. */
  lemma SnapshotRequestsCoverWindows(savedataStart: nat)
    ensures |SnapshotRequests(savedataStart)| == 2
    ensures Hex.FromHex(SnapshotRequests(savedataStart)[0].addr) == Some(savedataStart)
    ensures Hex.FromHex(SnapshotRequests(savedataStart)[0].size) == Some(FirstWindowSize)
    ensures Hex.FromHex(SnapshotRequests(savedataStart)[1].addr) == Some(savedataStart + SecondWindowStart)
    ensures Hex.FromHex(SnapshotRequests(savedataStart)[1].size) == Some(SecondWindowSize)
  {
    ReadRequestDecodes(savedataStart, 0x400);
    ReadRequestDecodes(savedataStart + 0x410, 2);
  }

  /** The previous snapshot the evaluator compares against: the one kept from
      the last evaluation, or all zeros of the current length the first
      time. */
  function Baseline(previous: Option<seq<bv8>>, n: nat): seq<bv8> {
    previous.GetOr(Zeros(n))
  }

  /** With a first packet no longer than the first read window and a
      two-byte second packet, the assembled snapshot has the full size and
      holds the first packet, then zeros up to 0x410, then the second
      packet, so every table address reads the byte the bridge sent for it. */
  lemma AssembledSnapshot(first: seq<bv8>, second: seq<bv8>)
    requires |first| <= FirstWindowSize && |second| == SecondWindowSize
    ensures |PadFirstPacket(first) + second| == SnapshotSize
    ensures forall i :: 0 <= i < |first| ==> (PadFirstPacket(first) + second)[i] == first[i]
    ensures forall i :: |first| <= i < SecondWindowStart ==> (PadFirstPacket(first) + second)[i] == 0
    ensures (PadFirstPacket(first) + second)[SecondWindowStart..] == second
  {
    var s := PadFirstPacket(first) + second;
    forall i | 0 <= i < |first| ensures s[i] == first[i] {
      assert PadFirstPacket(first)[..|first|][i] == first[i];
    }
  }

  /** The second packet completes a snapshot exactly when it brings the
      buffer to 0x412 bytes; for a first packet of at most 0x410 bytes that
      is exactly a two-byte second packet. */
  lemma CompletionNeedsTwoBytes(first: seq<bv8>, second: seq<bv8>)
    requires |first| <= SecondWindowStart
    ensures |PadFirstPacket(first) + second| == SnapshotSize <==> |second| == SecondWindowSize
  {
  }

  class Tracker {
    /** `VALID_GAMEMODES`, `SAVEDATA_START` and `WRAM_START`, defined
        outside the auto-tracker. */
    const validGamemodes: set<bv8>
    const savedataStart: nat
    const wramStart: nat

    var status: Status
    /** `_location_data`: the snapshot being assembled, `None` for null. */
    var locationData: Option<seq<bv8>>
    /** `_old_location_data`: the last evaluated snapshot. */
    var oldLocationData: Option<seq<bv8>>
    var timerRunning: bool
    var timerPaused: bool
    /** Whether `_timer` is a child of the tracker node. `_closed` removes
        it, and no handler adds it back. */
    var timerInTree: bool
    var handler: Handler
    /** Whether `_process` still polls the client (`set_process`). */
    var processing: bool
    var sent: seq<Message>

    /** The kept snapshot always has the full size, and a snapshot being
        assembled already reaches the second read window. Indexing the
        current buffer is safe because `ProcessLocationData` is only reached
        with exactly 0x412 bytes. */
    ghost predicate Valid()
      reads this
    {
      && (oldLocationData.Some? ==> |oldLocationData.value| == SnapshotSize)
      && (locationData.Some? ==> |locationData.value| >= SecondWindowStart)
    }

    /** The timer only ticks while it runs, is not paused and is in the
        scene tree. */
    predicate TimerFires()
      reads this
    {
      timerRunning && !timerPaused && timerInTree
    }

    constructor (validGamemodes: set<bv8>, savedataStart: nat, wramStart: nat)
      ensures Valid()
      ensures this.validGamemodes == validGamemodes
      ensures this.savedataStart == savedataStart && this.wramStart == wramStart
      ensures status == DISCONNECTED && locationData == None && oldLocationData == None
      ensures !timerRunning && !timerPaused && timerInTree
      ensures handler == OnDataHandler && processing && sent == []
    {
      this.validGamemodes := validGamemodes;
      this.savedataStart := savedataStart;
      this.wramStart := wramStart;
      status := DISCONNECTED;
      locationData := None;
      oldLocationData := None;
      timerRunning := false;
      timerPaused := false;
      timerInTree := true;
      handler := OnDataHandler;
      processing := true;
      sent := [];
    }

    /** `_connect_at`: dials the bridge only when disconnected; a failed
        dial stops polling. `connectOk` is the transport's answer. */
    method ConnectAt(connectOk: bool) returns (dialled: bool)
      requires Valid()
      modifies this`processing
      ensures Valid()
      ensures dialled <==> old(status) == DISCONNECTED
      ensures processing == (old(processing) && (!dialled || connectOk))
    {
      if status != DISCONNECTED {
        return false;
      }
      dialled := true;
      if !connectOk {
        processing := false;
      }
    }

    /** `_closed`: stops the timer and takes it out of the scene tree, drops
        both snapshots and returns to DISCONNECTED, whatever the state. */
    method Closed()
      requires Valid() && processing
      modifies this`timerRunning, this`timerInTree, this`locationData, this`oldLocationData, this`status
      ensures Valid()
      ensures !timerRunning && !timerInTree && locationData == None && oldLocationData == None
      ensures status == DISCONNECTED
    {
      timerRunning := false;
      timerInTree := false;
      locationData := None;
      oldLocationData := None;
      status := DISCONNECTED;
    }

    /** `_closed` as evidently intended: additionally undoes what
        `get_location_data` set up, rebinding `data_received` to `_on_data`
        and unpausing the timer. */
    method ClosedRestoringHandler()
      requires Valid() && processing
      modifies this`timerRunning, this`timerPaused, this`timerInTree, this`handler,
               this`locationData, this`oldLocationData, this`status
      ensures Valid()
      ensures !timerRunning && !timerPaused && !timerInTree && handler == OnDataHandler
      ensures locationData == None && oldLocationData == None && status == DISCONNECTED
    {
      Closed();
      timerPaused := false;
      handler := OnDataHandler;
    }

    /** `_connected`: asks for the device list and moves to CONNECTING. */
    method Connected()
      requires Valid() && processing
      modifies this`sent, this`status
      ensures Valid()
      ensures sent == old(sent) + [DeviceList] && status == CONNECTING
    {
      sent := sent + [DeviceList];
      status := CONNECTING;
    }

    /** `read_snes_mem`. */
    method ReadSnesMem(addr: nat, size: nat)
      modifies this`sent
      ensures sent == old(sent) + [ReadRequest(addr, size)]
    {
      sent := sent + [ReadRequest(addr, size)];
    }

    /** `get_location_data`: routes further packets to the assembler and
        requests both read windows. */
    method GetLocationData()
      modifies this`handler, this`sent
      ensures handler == BuildLocationDataHandler
      ensures sent == old(sent) + SnapshotRequests(savedataStart)
    {
      handler := BuildLocationDataHandler;
      ReadSnesMem(savedataStart, 0x400);
      ReadSnesMem(savedataStart + 0x410, 2);
    }

    /** The effect of `_on_data` on the session. In CONNECTING a malformed
        reply is dropped; otherwise the first device is attached, and the
        session moves to CONNECTED with the timer started. In CONNECTED a
        packet whose first byte is a valid game mode starts TRACKING: the
        timer is paused and a snapshot is requested. Any other packet
        changes nothing. */
    twostate predicate OnDataStep(packet: seq<bv8>, reply: DeviceListReply)
      requires old(status) == CONNECTING && reply.Devices? ==> |reply.results| > 0
      requires old(status) == CONNECTED ==> |packet| > 0
      reads this
    {
      && (old(status) == CONNECTING && reply.Devices? ==>
            && status == CONNECTED && timerRunning
            && sent == old(sent) + [Attach(reply.results[0])]
            && timerPaused == old(timerPaused) && handler == old(handler))
      && (old(status) == CONNECTED && packet[0] in validGamemodes ==>
            && status == TRACKING && timerPaused && handler == BuildLocationDataHandler
            && sent == old(sent) + SnapshotRequests(savedataStart)
            && timerRunning == old(timerRunning))
      && ((!(old(status) == CONNECTING && reply.Devices?) &&
           !(old(status) == CONNECTED && packet[0] in validGamemodes)) ==>
            && status == old(status) && timerRunning == old(timerRunning)
            && timerPaused == old(timerPaused) && handler == old(handler) && sent == old(sent))
    }

    /** `_on_data`. In CONNECTING a malformed reply is dropped; otherwise the
        first device is attached, and the session moves to CONNECTED with the
        timer started. In CONNECTED a packet whose first byte is a valid
        game mode starts TRACKING: the timer is paused and a snapshot is
        requested. Any other packet changes nothing. The source indexes the
        device list and the packet without checking them, hence the two
        requires clauses. */
    method OnData(packet: seq<bv8>, reply: DeviceListReply)
      requires Valid()
      requires status == CONNECTING && reply.Devices? ==> |reply.results| > 0
      requires status == CONNECTED ==> |packet| > 0
      modifies this`status, this`timerRunning, this`timerPaused, this`handler, this`sent
      ensures Valid()
      ensures OnDataStep(packet, reply)
    {
      if status == CONNECTING {
        if reply.MalformedReply? {
          return;
        }
        var device := reply.results[0];
        sent := sent + [Attach(device)];
        status := CONNECTED;
        timerRunning := true;
      } else if status == CONNECTED {
        if packet[0] in validGamemodes {
          status := TRACKING;
          timerPaused := true;
          GetLocationData();
        }
      }
    }

    /** `process_location_data`: evaluates the snapshot against the kept one
        (all zeros the first time), keeps the snapshot for next time, clears
        the buffer, unpauses the timer and returns to CONNECTED. */
    method ProcessLocationData() returns (outcomes: map<MapElementKind, Outcome>)
      requires Valid() && locationData.Some? && |locationData.value| == SnapshotSize
      modifies this`locationData, this`oldLocationData, this`timerPaused, this`status
      ensures Valid()
      ensures outcomes == EvaluateTable(old(locationData).value, Baseline(old(oldLocationData), SnapshotSize))
      ensures oldLocationData == old(locationData) && locationData == None
      ensures !timerPaused && status == CONNECTED
    {
      var current := locationData.value;
      if oldLocationData == None {
        oldLocationData := Some(Zeros(|current|));
      }
      outcomes := EvaluateLocations(current, oldLocationData.value);
      oldLocationData := locationData;
      locationData := None;
      timerPaused := false;
      status := CONNECTED;
    }

    /** The effect of `_build_location_data` on the session: the first
        packet is padded and never completes a snapshot; a later packet is
        appended, and when the buffer then holds exactly 0x412 bytes packets
        go back to `_on_data` and the snapshot is evaluated against the kept
        one. */
    twostate predicate BuildStep(packet: seq<bv8>, new evaluated: Option<map<MapElementKind, Outcome>>)
      requires old(Valid())
      reads this
    {
      && (old(locationData).None? ==>
            && locationData == Some(PadFirstPacket(packet)) && evaluated == None
            && oldLocationData == old(oldLocationData) && handler == old(handler)
            && timerPaused == old(timerPaused) && status == old(status))
      && (old(locationData).Some? && |old(locationData).value + packet| == SnapshotSize ==>
            && evaluated == Some(EvaluateTable(old(locationData).value + packet,
                                               Baseline(old(oldLocationData), SnapshotSize)))
            && oldLocationData == Some(old(locationData).value + packet) && locationData == None
            && handler == OnDataHandler && !timerPaused && status == CONNECTED)
      && (old(locationData).Some? && |old(locationData).value + packet| != SnapshotSize ==>
            && locationData == Some(old(locationData).value + packet) && evaluated == None
            && oldLocationData == old(oldLocationData) && handler == old(handler)
            && timerPaused == old(timerPaused) && status == old(status))
    }

    /** `_build_location_data`: the first packet of a snapshot is padded and
        never completes it; a later packet is appended, and when the buffer
        then holds exactly 0x412 bytes packets go back to `_on_data` and the
        snapshot is evaluated. */
    method BuildLocationData(packet: seq<bv8>) returns (evaluated: Option<map<MapElementKind, Outcome>>)
      requires Valid()
      modifies this`locationData, this`oldLocationData, this`handler, this`timerPaused, this`status
      ensures Valid()
      ensures BuildStep(packet, evaluated)
    {
      if locationData == None {
        locationData := Some(PadFirstPacket(packet));
        return None;
      }
      locationData := Some(locationData.value + packet);
      if |locationData.value| == SecondWindowStart + 2 {
        handler := OnDataHandler;
        var outcomes := ProcessLocationData();
        return Some(outcomes);
      }
      return None;
    }

    /** The client's `data_received` signal: the packet goes to whichever
        handler the signal is currently bound to. Client signals are only
        emitted while `_process` polls the client. */
    method DataReceived(packet: seq<bv8>, reply: DeviceListReply)
      returns (evaluated: Option<map<MapElementKind, Outcome>>)
      requires Valid() && processing
      requires handler == OnDataHandler && status == CONNECTING && reply.Devices? ==> |reply.results| > 0
      requires handler == OnDataHandler && status == CONNECTED ==> |packet| > 0
      modifies this`status, this`timerRunning, this`timerPaused, this`handler, this`sent,
               this`locationData, this`oldLocationData
      ensures Valid()
      ensures old(handler) == OnDataHandler ==>
        && OnDataStep(packet, reply) && evaluated == None
        && locationData == old(locationData) && oldLocationData == old(oldLocationData)
      ensures old(handler) == BuildLocationDataHandler ==>
        && BuildStep(packet, evaluated)
        && sent == old(sent) && timerRunning == old(timerRunning)
    {
      if handler == OnDataHandler {
        OnData(packet, reply);
        evaluated := None;
      } else {
        evaluated := BuildLocationData(packet);
      }
    }

    /** `_on_Timer_timeout`: polls the game-mode byte, but only in
        CONNECTED. The timeout only fires while the timer runs, is not
        paused and is in the scene tree. */
    method OnTimerTimeout()
      requires TimerFires()
      modifies this`sent
      ensures old(status) == CONNECTED ==> sent == old(sent) + [ReadRequest(wramStart + 0x10, 1)]
      ensures old(status) != CONNECTED ==> sent == old(sent)
    {
      if status == CONNECTED {
        ReadSnesMem(wramStart + 0x10, 1);
      }
    }
  }
}
