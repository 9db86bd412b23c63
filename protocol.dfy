/** The three request messages the auto-tracker sends to the device bridge.
    Every message is addressed to the `SNES` space; the JSON envelope and
    the websocket framing are transport and are not modelled. */
module Protocol {
  import opened Wrappers
  import opened Hex

  datatype Message =
    | DeviceList                          // {"Opcode": "DeviceList", "Space": "SNES"}
    | Attach(device: string)              // {"Opcode": "Attach", "Space": "SNES", "Operands": [device]}
    | GetAddress(addr: string, size: string)
                                          // {"Opcode": "GetAddress", "Space": "SNES", "Operands": [addr, size]}

  function Operands(m: Message): seq<string> {
    match m
    case DeviceList => []
    case Attach(device) => [device]
    case GetAddress(addr, size) => [addr, size]
  }

  /** `read_snes_mem(addr, size)`: a `GetAddress` request with the address
      and the size as its two operands. */
  function ReadRequest(addr: nat, size: nat): Message {
    GetAddress(ToHex(addr), ToHex(size))
  }

  /** The bridge reads back the requested address and size from the two
      operands of a read request, and the address carries no prefix. */
  lemma ReadRequestDecodes(addr: nat, size: nat)
    ensures ReadRequest(addr, size).GetAddress? && |Operands(ReadRequest(addr, size))| == 2
    ensures FromHex(ReadRequest(addr, size).addr) == Some(addr)
    ensures FromHex(ReadRequest(addr, size).size) == Some(size)
    ensures ReadRequest(addr, size).addr[0] != '0' || addr == 0
  {
    HexRoundTrip(addr);
    HexRoundTrip(size);
  }

  /** The sizes the auto-tracker asks for are spelled as the bridge expects. */
  lemma TrackerReadSizes()
    ensures ReadRequest(0, 0x400).size == "400"
    ensures ReadRequest(0, 2).size == "2"
    ensures ReadRequest(0x10, 1) == GetAddress("10", "1")
  {
  }
}
