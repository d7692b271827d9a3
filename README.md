# MIDI THRU routing engine, modelled in Dafny

A browser MIDI "THRU" bridge takes every message arriving on one active
input port and forwards it, byte for byte, to one active output port. The
routing engine decides which ports are active, keeps exactly one message
forwarder subscribed to the active input, filters messages per channel
(mute and solo), and can send a panic burst of Control Change messages.
The repository ships two versions of the engine and a small WebMidi
stand-in. This project models all three:

- `midi.dfy` (module `Midi`): the bytes. JavaScript's 32-bit `|` and `&`
  are written out bit by bit (`JsOr`, `JsAnd`), so decoding a status byte
  (`(b & 0x0F) + 1`, `b & 0xF0`) and encoding a Control Change status
  (`0xB0 | (channel - 1)`) follow JavaScript for every integer, including
  out-of-range channels.
- `ports.dfy` (module `Ports`): ports, `find`-by-id, the resolution rule
  (saved preference, else first port, else nothing), and the listener lists
  of the input ports as a map from port id to a list of listeners. `Thru` is
  the engine's forwarder. `Foreign` is a listener attached by someone else.
- `filter.dfy` (module `ChannelFilter`): `_isChannelActive` and the set
  toggle behind `mute`/`solo`.
- `thru.dfy` (module `Thru`): the `midimessage` handler as a pure reaction.
  It yields at most one visual-feedback call and at most one send.
- `pro_engine.dfy` (module `ProEngine`): `midi-engine.js`. A class `Engine`
  holds the `state` record, the port directory, the listener map, the
  number of topology callbacks registered, and logs of sends and feedback
  calls.
- `failsafe_engine.dfy` (module `FailSafeEngine`): `js/midi-engine.js`. It
  has the same routing, plus `init`'s true/false result and a
  `_setupRouting` that replaces its callbacks. It exports no mute or solo,
  and its panic sends All Notes Off only.
- `webmidi.dfy` (module `WebMidiStub`): `js/webmidi.js`, class `WebMidi`.
- `scenarios.dfy` (module `Scenarios`): client code that uses only the
  contracts above. It covers: start picks the first ports, a missing
  preference falls back, a stale id clears one side, selecting the same
  input twice still forwards once, mute {1} with solo {2} passes only
  channel 2, panic reaches only the active output, and `setRouting` with
  the ids `getRouting` reports keeps the same ports.

Both engines talk to the port directory through the host: the `WebMidi`
global, which has `getInputById` and `removeListener`. The stub in
`js/webmidi.js` lacks both, so the engines keep their own abstract
directory. It holds the input and output port lists, the saved preference
(read, never written), and the listener map. The host changes the
directory only through `PortsChanged`, which runs the engine's
`connected`/`disconnected` callbacks. A delivery on an input is `Receive`:
every listener on that input runs, and each `Thru` runs the engine's
handler.

The model follows the code as written:

- `setRouting` persists nothing; the saved preference is never written.
- `panic` sends only to `mainOutput`, not to every output.
- `midi-engine.js` `_setupRouting` adds one more callback per event type
  on each call and never removes one. `js/midi-engine.js` removes the old
  ones first, so exactly one of each remains.
- The panic of `js/midi-engine.js` sends only CC 123. The panic of
  `midi-engine.js` sends CC 123 and then CC 121 on each channel.
- Visual feedback fires for types 0x90 and 0xB0, on the active input only.

## Model

| member | source | states |
|---|---|---|
| Midi.StatusByte | midi-engine.js:73-74 | the status is the first byte; an empty message reads as 0, as `undefined & mask` does |
| Midi.ChannelOfStatus | midi-engine.js:73 | `(b & 0x0F) + 1`, computed with JavaScript's 32-bit `&`, always lies in 1..16 and equals the low nibble plus one |
| Midi.TypeOfStatus | midi-engine.js:74 | `b & 0xF0` is the byte with its low nibble cleared, a multiple of 16 in 0..0xF0 |
| Midi.ControlChange | js/webmidi.js:69-71 | the message is three numbers: the status `0xB0` OR `channel - 1`, then the controller, then the value |
| Midi.ControlChangeRoundTrip | js/webmidi.js:69-72 | for channel 1..16 the status is 0xAF + channel, lies in 0xB0..0xBF, and decodes (midi-engine.js:73-74) to the same channel and to type Control Change |
| Midi.ControlChangeStatusValue | js/webmidi.js:70 | for channel 1..16 the 32-bit OR with 0xB0 equals the sum 0xAF + channel |
| Midi.ControlChangeChannelZero | js/webmidi.js:70 | channel 0 is not rejected: 0xB0 OR -1 is -1, not a status byte |
| Midi.ControlChangeChannelSeventeen | js/webmidi.js:70 | channel 17 is not rejected: its status is 0xB0, the same as channel 1 |
| Ports.FindFirst | js/webmidi.js:64-66 | the result is the first port the predicate accepts; nothing exactly when no port is accepted |
| Ports.FindById | midi-engine.js:110-111 | a port exactly when an id is given and present; the port found lies in the directory and has that id |
| Ports.Resolve | midi-engine.js:56-65 | nothing exactly when there are no ports; the port with the saved id when present; otherwise the first port |
| Ports.FindOwnId | midi-engine.js:101-113 | when ids are unique, a port of the directory is found again by its own id, so `setRouting` with the ids `getRouting` reports keeps the same ports |
| Ports.Stripped | midi-engine.js:69 | after `removeListener` on every input, each listed input has no listener, other ids keep theirs, and the keys grow only by the listed ids |
| Ports.Reapplied | midi-engine.js:67-87 | after `_applyListeners`, each listed input holds `[Thru]` if it is the active one and nothing otherwise; unlisted ports other than the active one keep their listeners |
| Ports.ReappliedIdempotent | midi-engine.js:67-87 | when the active input is in the directory, applying listeners twice gives the same map as once, so the forwarder count stays at one |
| Ports.AppliedThruCount | midi-engine.js:67-87 | in an applied map, a listed input holds one forwarder if it is active and none otherwise |
| ChannelFilter.IsChannelActive | midi-engine.js:89-94 | a soloed channel always passes; a muted channel that is not soloed never passes; an unmuted channel passes while nothing is soloed |
| ChannelFilter.SoloOverridesMute | midi-engine.js:89-91 | with some channel soloed, a channel is active iff it is soloed, whatever the muted set holds |
| ChannelFilter.MuteDecidesWithoutSolo | midi-engine.js:92-93 | with nothing soloed, a channel is active iff it is not muted |
| ChannelFilter.EverythingPassesUnfiltered | js/midi-engine.js:93 | with both sets empty every channel is active |
| ChannelFilter.Toggle | midi-engine.js:122-132 | the toggled set flips membership of the channel and of no other channel |
| ChannelFilter.ToggleTwice | midi-engine.js:122-132 | toggling the same channel twice restores the set |
| Thru.React | midi-engine.js:72-85 | at most one send and one feedback call; the send happens iff an output exists and the channel `data[0] % 16 + 1` is active, and it is the unmodified message to the output's id; feedback happens iff the hook exists and the type is 0x90 or 0xB0, and it carries the channel |
| Thru.RepeatOnceOrNever | midi-engine.js:72 | at most one forwarder means the reaction happens exactly once or not at all |
| ProEngine.PanicSends | midi-engine.js:137-141 | the panic batch over channels 1..n holds 2n messages |
| ProEngine.PanicSendsAt | midi-engine.js:137-141 | message k goes to the output and is, on channel k/2 + 1, CC 123 value 0 when k is even and CC 121 value 0 when k is odd |
| ProEngine.PanicShape | midi-engine.js:134-142 | a full panic is 32 messages to the output; message k is `[0xB0 + k/2, 123 or 121, 0]` |
| ProEngine.Engine.constructor | midi-engine.js:6-11 | no active ports, empty mute and solo sets, no callbacks registered, nothing sent |
| ProEngine.Engine.Start | midi-engine.js:23-41 | when sysex or basic access is granted, routing is set up (one more callback per event type, ports resolved, forwarder applied); when both are refused nothing changes |
| ProEngine.Engine.SetupRouting | midi-engine.js:43-54 | one more `connected` and `disconnected` callback each; ports resolved and listeners applied |
| ProEngine.Engine.UpdatePorts | midi-engine.js:56-65 | each side is resolved independently from the saved id; listeners are re-applied, so the active input holds the only forwarder |
| ProEngine.Engine.ApplyListeners | midi-engine.js:67-87 | the loop that strips each input and then subscribes the active input leaves exactly the reapplied listener map |
| ProEngine.Engine.PortsChanged | midi-engine.js:45-52 | the directory changes; with a callback registered for the event the ports are re-resolved and listeners re-applied, however many callbacks run; with none, the routing and listeners are untouched |
| ProEngine.Engine.Receive | midi-engine.js:72-85 | each forwarder on the input performs the reaction once; when subscribed, a message on the active input reacts exactly once and one on any other listed input does nothing |
| ProEngine.Engine.Dispatch | midi-engine.js:72-85 | running an input's listeners appends the reaction once per forwarder, in order |
| ProEngine.Engine.GetRouting | midi-engine.js:101-106 | ids and names of the active ports; an empty side has no id and the name "Nenhum" |
| ProEngine.Engine.SetRouting | midi-engine.js:109-113 | each side becomes the port with that id, or empty when the id does not resolve, independently; listeners are re-applied; the filters and the saved preference are untouched |
| ProEngine.Engine.SendControl | midi-engine.js:116-120 | no output: nothing is sent; a channel outside 1..16 throws and sends nothing; otherwise one Control Change to the active output |
| ProEngine.Engine.Mute | midi-engine.js:122-126 | the muted set is toggled at that channel; nothing else changes |
| ProEngine.Engine.Solo | midi-engine.js:128-132 | the soloed set is toggled at that channel; nothing else changes |
| ProEngine.Engine.Panic | midi-engine.js:134-142 | no output: nothing is sent; otherwise exactly the 32-message panic batch to the active output alone |
| FailSafeEngine.AllNotesOffSends | js/midi-engine.js:110 | the batch over channels 1..n holds n messages |
| FailSafeEngine.AllNotesOffAt | js/midi-engine.js:110 | message k is CC 123 value 0 on channel k + 1, to the output |
| FailSafeEngine.AllNotesOffShape | js/midi-engine.js:108-112 | a full panic is 16 messages to the output; message k is `[0xB0 + k, 123, 0]` |
| FailSafeEngine.Engine.constructor | js/midi-engine.js:5-10 | no active ports, empty filter sets, no callbacks, nothing sent |
| FailSafeEngine.Engine.Start | js/midi-engine.js:12-48 | the result is true iff sysex or basic access is granted; routing is set up only then; on false nothing changes |
| FailSafeEngine.Engine.SetupRouting | js/midi-engine.js:50-65 | earlier callbacks are removed, so exactly one `connected` and one `disconnected` callback remain; ports resolved and listeners applied |
| FailSafeEngine.Engine.UpdatePorts | js/midi-engine.js:67-75 | preference, else first port, else nothing, for each side independently; then listeners are re-applied |
| FailSafeEngine.Engine.ApplyListeners | js/midi-engine.js:77-91 | stripping every input and subscribing the active one leaves the reapplied listener map |
| FailSafeEngine.Engine.PortsChanged | js/midi-engine.js:54-62 | the directory changes and, with the callback registered, ports are re-resolved and listeners re-applied; without it nothing is re-resolved |
| FailSafeEngine.Engine.Receive | js/midi-engine.js:80-93 | no filter applies: when subscribed, every message on the active input is sent once, unmodified, to the active output if there is one; other listed inputs forward nothing |
| FailSafeEngine.Engine.Dispatch | js/midi-engine.js:80-89 | running an input's listeners appends the reaction once per forwarder |
| FailSafeEngine.Engine.GetRouting | js/midi-engine.js:97 | the active ports' ids, absent for an empty side; it never fails |
| FailSafeEngine.Engine.SetRouting | js/midi-engine.js:98-102 | a side whose id does not resolve is cleared, the other side is set independently; listeners are re-applied |
| FailSafeEngine.Engine.SendControl | js/midi-engine.js:103-107 | no output: nothing is sent; a channel outside 1..16 throws and sends nothing; otherwise one Control Change to the active output |
| FailSafeEngine.Engine.Panic | js/midi-engine.js:108-112 | no output: nothing is sent; otherwise exactly the 16 All Notes Off messages to the active output |
| WebMidiStub.WithListener | js/webmidi.js:58-62 | the callback is appended to its type's list, which is created when missing; every other type's list is unchanged |
| WebMidiStub.CallsOf | js/webmidi.js:54 | one call per callback, in list order, each with the same event |
| WebMidiStub.EventTypeFor | js/webmidi.js:47 | the event type is "connected" iff the port state is "connected", and "disconnected" otherwise |
| WebMidiStub.SendControlChange | js/webmidi.js:69-72 | one send to the given output of `[status, controller, value]`; for channel 1..16 the status is in 0xB0..0xBF, of type Control Change, and decodes to the channel |
| WebMidiStub.WebMidi.constructor | js/webmidi.js:13-19 | empty port lists, not enabled, no sysex, no access, no listeners |
| WebMidiStub.WebMidi.Enable | js/webmidi.js:21-36 | without Web MIDI or without access it fails and changes nothing; on success it records the access and the sysex flag, mirrors the ports, starts watching state changes and sets `enabled` |
| WebMidiStub.WebMidi.UpdatePorts | js/webmidi.js:38-41 | the port lists become the access's current inputs and outputs |
| WebMidiStub.WebMidi.SetupInterfaceListeners | js/webmidi.js:43-50 | the state-change handler is installed |
| WebMidiStub.WebMidi.StateChange | js/webmidi.js:44-49 | ports are refreshed first; then `onstatechange` if set, then exactly the callbacks of the announced type, in order |
| WebMidiStub.WebMidi.TriggerEvent | js/webmidi.js:52-56 | exactly the callbacks registered for the type are called, in registration order, each with the event; none when the type has no list |
| WebMidiStub.WebMidi.AddListener | js/webmidi.js:58-62 | the registry becomes the one with the callback appended for that type |
| WebMidiStub.WebMidi.GetOutputByName | js/webmidi.js:64-66 | the first output with that name, or nothing exactly when no output has it |

## Left out

- Timers and asynchrony are not modelled: the 500 ms start delay, the 3 s timeout race in `init` of `js/midi-engine.js`, and Promise sequencing. `Start` takes the outcome of each access request as a parameter.
- FailSafeEngine.Engine.Start: does not model the `WebMidi.disable()` call made when the library is already enabled. The stub defines no `disable`.
- `localStorage` is not modelled as storage. The saved preference is a field the engines read and never write.
- `navigator.requestMIDIAccess` and its port maps are parameters: `supported`, `granted`, and the `live` access in `StateChange`.
- The actual byte transmission of `output.send` is not modelled. Each send is appended to the engine's `sent` log.
- `window.triggerVisualFeedback` is not modelled as a call. A call is a channel appended to the `feedback` log, and whether the hook exists is a field.
- `window.refreshDeviceLists` and `window.MidiConfig.updateDeviceLists` are UI glue and are left out.
- `console` logging is left out.
- `js/midi-config.js` is not part of this model. It renders device lists, pairs Bluetooth devices, and attaches its own forwarders; those appear here only as `Foreign` listeners.
- ProEngine.Engine.SendControl: does not model `parseInt` on the controller and value; they are integers already. `channels[channel].sendControlChange` belongs to the full WebMidi library, which is not part of this model. It is modelled with the stub's Control Change encoding. A channel outside 1..16 leaves `channels[channel]` undefined, which throws; the model returns `UndefinedChannel`.
- FailSafeEngine.Engine.SendControl: same abstraction of `parseInt` and of the `channels[...]` API as the Pro engine.
- The real host's `getInputById`, `removeListener` and `inputs` are not the stub's. The engines keep an abstract directory (port lists and a listener map by port id) instead of a `WebMidi` object.
- WebMidiStub.WithListener: treats every event type as a fresh key. In the source `_listeners` is a plain object, so a type inherited from `Object.prototype` (such as "toString" or "constructor") finds a truthy value without `push`, and `addListener` throws a TypeError. The same holds for WebMidiStub.WebMidi.AddListener.
- WebMidiStub.WebMidi.TriggerEvent: for an inherited type name such as "toString", once `_listeners` exists, the source calls `forEach` on a function and throws. The model returns no calls. The engines use only "connected" and "disconnected".
- WebMidiStub.WebMidi.UpdatePorts: requires that access has been granted. In the source, calling it earlier throws on a null `_interface`; the model does not represent that throw.
- WebMidiStub.WebMidi.StateChange: `onstatechange` and the registered callbacks are opaque handles. The result lists the calls in order, but the callbacks' own effects are not modelled.
- Port ids are plain strings, and `getInputById(null)` is an absent id. The model takes port ids to be unique within each direction, as Web MIDI guarantees. The listener map is keyed by id and relies on this: the source keeps listeners on port objects, so two ports sharing an id would have separate lists, while here they share one.
