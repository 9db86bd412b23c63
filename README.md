# Auto-tracker model

A Dafny model of the auto-tracker of an item/location tracker for a game
randomizer. The tracker talks to an emulator bridge over a websocket. It
enumerates the devices, attaches to the first one and polls one game-mode
byte while the game is idle. When the game is in a playing mode it reads
two windows of save data and compares the result with the previous
snapshot. Each location of a fixed layout table is then checked, partially
checked or left alone.

Modules:

- `MapElements`: the map element kinds. The kinds named by the layout
  table are listed, plus `BLANK`. src/map_element.rs is not part of this
  model.
- `RowElements`: the row icon record, its three marking states and its
  constructor (src/row_element.rs).
- `Layout`: the layout table. It maps each location kind to a non-empty
  sequence of `(address, mask)` pairs. It also defines the two read windows,
  `[0, 0x400)` and `[0x410, 0x412)`.
- `Hex` and `Protocol`: the three request messages and the lower-case hex
  operands of a read request. `Hex` also has a decoder, so the round trip
  can be stated.
- `Evaluator`: the per-location scan of `process_location_data` with its
  any/all/changed accumulators, and the report rule.
- `Autotracker`: the class `Tracker`. Its fields are the status, both
  snapshot buffers, the timer's running and paused flags, whether the timer is in the scene tree, the callback that
  `data_received` is bound to, the polling flag and the log of sent
  requests. Its methods are the event handlers. The snapshot assembler
  (`_build_location_data`) is one of them.
- `Scenarios`: whole sessions driven through the handlers.

Inputs defined outside src/autotracker.rs become parameters:
- `VALID_GAMEMODES`, `SAVEDATA_START` and `WRAM_START` are constructor
  arguments.
- The outcome of `connect_to_url` is the `connectOk` argument.
- The parsed device-list JSON is a `DeviceListReply` argument.
- Received packets are `seq<bv8>` arguments.

`_on_data` sends no read after attaching: the first game-mode read comes
from a timer tick. There is no separate assembling status; a snapshot is
assembled while the status is TRACKING. Assembly has no timeout. The
evaluator only iterates the table, so no location is ever unknown to it.

## Model

| member | source | states |
|---|---|---|
| `Layout.TableWellFormed` | src/autotracker.rs:9-65 | Every table entry has at least one pair. Every mask is non-zero. Every address lies in `[0, 0x400)` or `[0x410, 0x412)`. |
| `Layout.EntryWellFormed` | src/autotracker.rs:9-65 | The same, for one location's entry. `BLANK` has no entry. |
| `Hex.ToHex` | src/autotracker.rs:187 | `"%x" % n` is non-empty and all lower-case hex digits. It starts with `0` only when n is zero, so it has no `0x` prefix. |
| `Hex.FromHex` | src/autotracker.rs:187 | The operand decoder accepts exactly the non-empty strings of lower-case hex digits. |
| `Hex.HexRoundTrip` | src/autotracker.rs:187 | Decoding the encoded operand gives back the number. |
| `Hex.CanonicalHexRoundTrip` | src/autotracker.rs:187 | Every decodable operand without a leading zero is the encoding of its value. |
| `Hex.LeadingDigitPositive` | src/autotracker.rs:187 | An operand whose first digit is not `0` denotes a positive number. |
| `Protocol.ReadRequestDecodes` | src/autotracker.rs:186-188 | A `GetAddress` request has two operands, which decode to the requested address and size. |
| `Protocol.TrackerReadSizes` | src/autotracker.rs:120-121 | The sizes the tracker requests are sent as `"400"`, `"2"` and `"1"`. |
| `Autotracker.SnapshotRequestsCoverWindows` | src/autotracker.rs:117-121 | The two snapshot reads cover the save-data windows the table addresses. |
| `Evaluator.TableCovers` | src/autotracker.rs:141-142 | In a snapshot of 0x412 bytes, every table address indexes a byte of the current and of the previous snapshot. |
| `Evaluator.FoldsMatchDefinitions` | src/autotracker.rs:135-145 | The three accumulator folds agree with their quantified definitions. `all` means every pair is at full mask, `any` that some pair is, `changed` that some pair's masked byte differs. |
| `Evaluator.EvaluateLocation` | src/autotracker.rs:134-145 | The inner loop's `all_locs_checked`, `any_locs_checked` and `was_any_change` are exactly the "all full", "some full" and "some masked byte changed" properties of the location's pairs. |
| `Evaluator.EvaluateLocations` | src/autotracker.rs:133-146 | The outer loop yields the outcome of every table location, whatever order it visits them in. |
| `Evaluator.AllImpliesAny` | src/autotracker.rs:135-145 | For a location with at least one pair, "all checked" implies "any checked". |
| `Evaluator.ReportedIffChangedAndAny` | src/autotracker.rs:146 | A location is acted on exactly when some masked byte changed and some pair reached its full mask. |
| `Evaluator.MarkChoice` | src/autotracker.rs:146-149 | A reported location's underworld icon (a node found under `GUILayer`) gets the fully-checked texture exactly when every pair is at full mask. Otherwise it gets the partial ("todo") texture. |
| `Evaluator.SelfDiffReportsNothing` | src/autotracker.rs:141-146 | Evaluating a snapshot against an identical one reports no location. |
| `Evaluator.BaselineReportsChecked` | src/autotracker.rs:124-127 | Against the all-zero baseline, a location with non-zero masks is reported exactly when some pair is at full mask. |
| `Evaluator.BaselineTable` | src/autotracker.rs:124-146 | The first evaluation of the whole table reports exactly the locations with some pair at full mask. |
| `Evaluator.SinglePairBecomesChecked` | src/autotracker.rs:141-149 | A one-pair location whose bits become fully set is reported fully checked. |
| `Evaluator.HookshotScenario` | src/autotracker.rs:15 | `HOOKSHOT`: byte 0x078 going from 0x00 to 0xF0 is reported fully checked. |
| `Evaluator.SahaScenario` | src/autotracker.rs:39 | `SAHA`: only its second pair reaching full mask, with a change, is reported partially checked. |
| `Evaluator.Zeros` | src/autotracker.rs:125-127 | The baseline buffer has the requested length and holds only zero bytes. |
| `Autotracker.PadFirstPacket` | src/autotracker.rs:169-178 | The first packet is kept and followed by zero bytes up to exactly 0x410 bytes. A longer packet is left as it is. |
| `Autotracker.AssembledSnapshot` | src/autotracker.rs:169-181 | A first packet of at most 0x400 bytes and a two-byte second packet assemble into 0x412 bytes. Bytes `[0, len(first))` are the first packet, then zeros up to 0x410, then the second packet. |
| `Autotracker.CompletionNeedsTwoBytes` | src/autotracker.rs:179-181 | After a first packet of at most 0x410 bytes, the second packet completes the snapshot exactly when it has two bytes. |
| `Autotracker.Tracker.constructor` | src/autotracker.rs:69-72 | The session starts DISCONNECTED. There are no buffers, the timer is stopped, unpaused and in the scene tree, packets go to `_on_data`, polling is on and nothing has been sent. |
| `Autotracker.Tracker.ConnectAt` | src/autotracker.rs:69-79 | It dials only when DISCONNECTED, and a failed dial turns polling off. Nothing else changes. |
| `Autotracker.Tracker.Closed` | src/autotracker.rs:82-88 | From any state: the timer stops and leaves the scene tree, both buffers become null, the status becomes DISCONNECTED. The handler binding and the paused flag are untouched. Like every client signal, it is only delivered while the client is polled. |
| `Autotracker.Tracker.ClosedRestoringHandler` | src/autotracker.rs:82-88 | The corrected close. It also rebinds packets to `_on_data` and unpauses the timer. |
| `Autotracker.Tracker.Connected` | src/autotracker.rs:90-94 | It sends the device-list request and moves to CONNECTING. It is only delivered while the client is polled, which a failed dial stops. |
| `Autotracker.Tracker.ReadSnesMem` | src/autotracker.rs:186-188 | It sends one read request for the address and size. |
| `Autotracker.Tracker.GetLocationData` | src/autotracker.rs:117-121 | It routes packets to the assembler and sends the two snapshot reads. |
| `Autotracker.Tracker.OnData` | src/autotracker.rs:96-115 | In CONNECTING, a malformed reply changes nothing. A parsed reply attaches `Results[0]`, moves to CONNECTED and starts the timer. In CONNECTED, a packet whose first byte is a valid game mode moves to TRACKING, pauses the timer and requests a snapshot. Anything else changes nothing. |
| `Autotracker.Tracker.ProcessLocationData` | src/autotracker.rs:123-165 | The result is the table evaluation of the current buffer against the previous one, or against zeros of the same length the first time. Afterwards previous := current, current := null, the timer is unpaused and the status is CONNECTED. It is only reached with a buffer of exactly 0x412 bytes, which every table address indexes; `Valid` keeps the kept snapshot at that size, so the baseline is indexable too. |
| `Autotracker.Tracker.BuildLocationData` | src/autotracker.rs:167-184 | The first packet is padded and never completes a snapshot. A later packet is appended. Evaluation runs, with packets rebound to `_on_data`, exactly when the buffer then holds 0x412 bytes. |
| `Autotracker.Tracker.DataReceived` | src/autotracker.rs:117-119 | A packet goes to the handler the `data_received` signal is bound to. While it is `_on_data`, the effect is that of `OnData` and no buffer changes. While it is `_build_location_data`, the effect is that of `BuildLocationData` and nothing is sent. Packets arrive only while the client is polled. |
| `Autotracker.Tracker.OnTimerTimeout` | src/autotracker.rs:190-192 | A tick happens only while the timer runs, is unpaused and is in the scene tree. It sends the one-byte game-mode read, and only in CONNECTED. |
| `Scenarios.StartTracking` | src/autotracker.rs:90-121 | Dial, device list, Attach and a valid game mode leave a fresh session TRACKING. The timer is running and paused, packets go to the assembler, both snapshot reads have been sent and no byte has arrived. |
| `Scenarios.TrackingRound` | src/autotracker.rs:90-192 | Attach, a valid game mode and both windows give one evaluation against zeros. The session returns to CONNECTED with a ticking timer, and the next tick polls the game mode. |
| `Scenarios.ConnectWhileConnecting` | src/autotracker.rs:69-72 | Connecting while in CONNECTING neither dials nor changes any state. |
| `Scenarios.ReconnectLeavesTimerSilent` | src/autotracker.rs:82-99 | After a close and a reconnect, the session attaches and is CONNECTED with a running, unpaused timer that does not tick (`TimerFires()` is false, and `OnTimerTimeout` requires it), because `_closed` removed it from the scene tree and nothing adds it back. |
| `Scenarios.DropDuringSnapshotAsWritten` | src/autotracker.rs:82-88 | As written, after a drop during a snapshot read and a reconnect, the device-list reply is assembled as save data. The session stays in CONNECTING with the timer paused and not ticking. |
| `Scenarios.DropDuringSnapshotCorrected` | src/autotracker.rs:82-88 | With the corrected close, the same events reattach to the device. The session is CONNECTED with the timer running and unpaused. The timer is still out of the scene tree, as after any close. |
| `RowElements.NewRowElementIsBlank` | src/row_element.rs:20-27 | A new row element keeps its kind and has state NONE, no counts and empty notes. It is the only such element of that kind. |
| `RowElements.RowElementFromKindInjective` | src/row_element.rs:20-22 | Different kinds give different row elements. |
| `RowElements.ThreeStates` | src/row_element.rs:5-9 | A row element state is one of NONE, CROSSED and CIRCLED, and these three are distinct. |

## Left out

- The websocket transport is not modelled. This covers `set_verify_ssl_enabled`, `connect_to_url`, `get_peer`, `put_packet`, `get_packet`, `poll`, `_process` and `start_autotracking`. Requests are appended to `sent` and packets are method arguments.
- The JSON encoding of requests and the JSON parsing of the device list are not modelled. The parse result is the `DeviceListReply` argument.
- `OnData` requires a non-empty `Results` list and a non-empty packet in CONNECTED. The source indexes both without a check.
- The evaluator's scene-graph side effects are not modelled: node lookup, textures, hiding, `Util.add_hidden`, and the "unable to find node" message. The model returns each location's outcome, and `MarkOf` gives the texture choice.
- Window titles and `print` are not modelled.
- `Evaluator.MarkChoice`: the texture choice applies to underworld icons only. A reported location whose node is found under `LightWorld` or `DarkWorld` has its icon hidden, whether it is fully or partially checked; that hiding is not modelled.
- The timer is not modelled as real time. It is a running flag, a paused flag and a tick event.
- The `else:` branch of `_connect_at` is empty in the source text. The connected callback is the separate `Connected` method. Nothing in the source text adds back the timer that `_closed` removes from the scene tree, so in the model the timer does not tick after any close (`Scenarios.ReconnectLeavesTimerSilent`). If the elided branch re-added or recreated the timer, polling would resume.
- `Autotracker.Tracker.constructor`: the field initialisers and the initial signal binding are not in the source text. The initial values are assumed.
- The table's declared value type `[[u32; 2]; 2]` does not fit its one-pair entries, so each value is a non-empty sequence of pairs. Masks are bytes, since every mask fits in a byte.
- The table is a HashMap, whose iteration order is unspecified. The evaluator's loop picks keys in any order, and its result is a map.
- The evaluator loops over `locations_to_sram`, while the table is declared as `map_element_to_sram`. Both names are taken to mean the same table.
- If the first packet is longer than 0x410 bytes, it is kept unpadded. Growing a byte array by a negative amount fails and leaves it empty.
- `RowElement` derives `Debug`, `Clone`, `PartialEq` and `Eq`. Of these, only value equality is modelled.
- src/main.rs (the GUI) and src/json_helper.rs (JSON layout loading with floating point and random ids) are not part of this model.

## Findings

| source | as written | input that shows it | evidently intended | confidence | as-written member | corrected member |
|---|---|---|---|---|---|---|
| src/autotracker.rs:82-88 | `_closed` clears the buffers and the status. It leaves `data_received` bound to `_build_location_data` and leaves the timer paused, both set when tracking began (src/autotracker.rs:114-119). | The connection drops after the first snapshot window arrived, then the tracker reconnects. The device-list reply goes to `_build_location_data` and is padded into `_location_data`. No Attach is sent, and the status stays CONNECTING. | Closing undoes the tracking set-up: packets go back to `_on_data` and the timer is unpaused, so a reconnect attaches. The timer part depends on the elided `else:` branch of `_connect_at`: as written the timer is out of the scene tree after any close, so it does not tick in either version; the handler binding is wrong whatever that branch does. | medium; not executed | `Scenarios.DropDuringSnapshotAsWritten` | `Autotracker.Tracker.ClosedRestoringHandler` (used by `Scenarios.DropDuringSnapshotCorrected`) |
