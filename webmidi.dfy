/**
 * The WebMidi stand-in of `js/webmidi.js`: a single object that enables
 * access to the host's MIDI ports, mirrors the host's port lists, keeps a
 * registry of event callbacks per event type, and encodes Control Change.
 * The host's `navigator.requestMIDIAccess` becomes the parameters of Enable;
 * callbacks are opaque handles, and "calling" one is recorded as a Call.
 */
module WebMidiStub {
  import opened Midi
  import opened Ports
  import opened Thru

  /** An opaque handle standing for a registered callback function. */
  type Callback = nat

  /** The MIDIAccess object the host grants: its input and output port maps, as lists. */
  datatype Access = Access(inputs: seq<Port>, outputs: seq<Port>)

  /** A host statechange event: the port concerned and its new `state` string. */
  datatype StateEvent = StateEvent(port: Port, state: string)

  /** One invocation `callback(event)`. */
  datatype Call = Call(callback: Callback, event: StateEvent)

  /** Why `enable` throws: no Web MIDI in this environment, or the host refused access. */
  datatype EnableError = Unsupported | AccessRefused

  type Registry = map<string, seq<Callback>>

  /** The callbacks registered for an event type, none when the type has no list. */
  function Registered(m: Registry, eventType: string): seq<Callback>
  {
    if eventType in m then m[eventType] else []
  }

  /** `callbacks.forEach(callback => callback(event))`: one call per callback, in list order. */
  function CallsOf(callbacks: seq<Callback>, event: StateEvent): (r: seq<Call>)
    ensures |r| == |callbacks|
    ensures forall k :: 0 <= k < |r| ==> r[k] == Call(callbacks[k], event)
  {
    if |callbacks| == 0 then [] else CallsOf(callbacks[..|callbacks| - 1], event) + [Call(callbacks[|callbacks| - 1], event)]
  }

  /** `addListener`: the callback goes to the end of its type's list, which is created when missing. */
  function WithListener(m: Registry, eventType: string, callback: Callback): (r: Registry)
    ensures r.Keys == m.Keys + {eventType}
    ensures Registered(r, eventType) == Registered(m, eventType) + [callback]
    ensures forall t :: t != eventType ==> Registered(r, t) == Registered(m, t)
  {
    m[eventType := Registered(m, eventType) + [callback]]
  }

  /** The event type a statechange is announced as: "connected" exactly for a connected port. */
  function EventTypeFor(portState: string): (t: string)
    ensures t == "connected" || t == "disconnected"
    ensures t == "connected" <==> portState == "connected"
  {
    if portState == "connected" then "connected" else "disconnected"
  }

  /**
   * `WebMidi.sendControlChange(output, controller, value, channel)`: the
   * message sent to `output` is `[0xB0 | (channel - 1), controller, value]`.
   * For a channel in 1..16 its status carries the Control Change type and
   * decodes back to the channel.
   */
  function SendControlChange(output: Port, controller: int, value: int, channel: int): (s: Sent)
    ensures s.port == output.id && |s.data| == 3 && s.data[1..] == [controller, value]
    ensures s.data[0] == ControlChangeStatus(channel)
    ensures 1 <= channel <= 16 ==>
      && 0xB0 <= s.data[0] <= 0xBF
      && TypeOfStatus(s.data[0]) == ControlChangeType
      && ChannelOfStatus(s.data[0]) == channel
  {
    var s := Sent(output.id, ControlChange(channel, controller, value));
    if 1 <= channel <= 16 then ControlChangeRoundTrip(channel); s else s
  }

  class WebMidi {
    var inputs: seq<Port>
    var outputs: seq<Port>
    var enabled: bool
    var sysexEnabled: bool
    /** `_interface`: the MIDIAccess granted by the host, once there is one. */
    var access: Option<Access>
    /** Whether `_interface.onstatechange` has been installed. */
    var watching: bool
    /** `this.onstatechange`, a callback a user of the object may set. */
    var onStateChange: Option<Callback>
    /** `_listeners`: callbacks per event type (an absent `_listeners` is the empty registry). */
    var listeners: Registry

    constructor()
      ensures inputs == [] && outputs == [] && !enabled && !sysexEnabled
      ensures access == None && !watching && onStateChange == None && listeners == map[]
    {
      inputs, outputs := [], [];
      enabled, sysexEnabled := false, false;
      access, watching, onStateChange := None, false, None;
      listeners := map[];
    }

    /**
     * `enable({sysex})`: throws when Web MIDI is missing or access is refused,
     * changing nothing; on success records the sysex flag, mirrors the
     * granted ports, starts watching state changes and sets `enabled`.
     */
    method Enable(sysex: bool, supported: bool, granted: Option<Access>) returns (error: Option<EnableError>)
      modifies this`inputs, this`outputs, this`enabled, this`sysexEnabled, this`access, this`watching
      ensures !supported ==> error == Some(Unsupported) && unchanged(this)
      ensures supported && granted.None? ==> error == Some(AccessRefused) && unchanged(this)
      ensures supported && granted.Some? ==>
        && error == None && access == granted && sysexEnabled == sysex
        && inputs == granted.value.inputs && outputs == granted.value.outputs
        && watching && enabled
    {
      if !supported {
        return Some(Unsupported);
      }
      if granted.None? {
        return Some(AccessRefused);
      }
      access := granted;
      sysexEnabled := sysex;
      UpdatePorts();
      SetupInterfaceListeners();
      enabled := true;
      error := None;
    }

    /** `_updatePorts`: the port lists become snapshots of the granted access's ports. */
    method UpdatePorts()
      requires access.Some?
      modifies this`inputs, this`outputs
      ensures inputs == access.value.inputs && outputs == access.value.outputs
    {
      inputs := access.value.inputs;
      outputs := access.value.outputs;
    }

    /** `_setupInterfaceListeners`: installs the statechange handler (StateChange below). */
    method SetupInterfaceListeners()
      modifies this`watching
      ensures watching
    {
      watching := true;
    }

    /**
     * The installed statechange handler: the host's ports are now `live`;
     * the port lists are refreshed first, then `onstatechange` (if set) and
     * every callback of the announced event type run, in that order.
     */
    method StateChange(live: Access, event: StateEvent) returns (calls: seq<Call>)
      requires watching
      modifies this`access, this`inputs, this`outputs
      ensures access == Some(live) && inputs == live.inputs && outputs == live.outputs
      ensures calls == (if onStateChange.Some? then [Call(onStateChange.value, event)] else [])
                       + CallsOf(Registered(listeners, EventTypeFor(event.state)), event)
    {
      access := Some(live);
      UpdatePorts();
      var first := if onStateChange.Some? then [Call(onStateChange.value, event)] else [];
      var triggered := TriggerEvent(EventTypeFor(event.state), event);
      calls := first + triggered;
    }

    /** `_triggerEvent`: calls exactly the callbacks registered for the type, in registration order. */
    method TriggerEvent(eventType: string, event: StateEvent) returns (calls: seq<Call>)
      ensures calls == CallsOf(Registered(listeners, eventType), event)
    {
      calls := [];
      if eventType in listeners {
        var callbacks := listeners[eventType];
        for i := 0 to |callbacks|
          invariant calls == CallsOf(callbacks[..i], event)
        {
          assert callbacks[..i + 1][..i] == callbacks[..i];
          calls := calls + [Call(callbacks[i], event)];
        }
        assert callbacks[..|callbacks|] == callbacks;
      }
    }

    /** `addListener(type, callback)`: appends to that type's list; the other lists stay as they are. */
    method AddListener(eventType: string, callback: Callback)
      modifies this`listeners
      ensures listeners == WithListener(old(listeners), eventType, callback)
    {
      if eventType !in listeners {
        listeners := listeners[eventType := []];
      }
      listeners := listeners[eventType := listeners[eventType] + [callback]];
    }

    /** `getOutputByName(name)`: the first output carrying that name, or nothing when none does. */
    function GetOutputByName(name: string): (r: Option<Port>)
      reads this
      ensures r.None? <==> forall k :: 0 <= k < |outputs| ==> outputs[k].name != name
      ensures r.Some? ==> exists k :: 0 <= k < |outputs| && outputs[k] == r.value && r.value.name == name
                                      && forall j :: 0 <= j < k ==> outputs[j].name != name
    {
      FindFirst(outputs, (p: Port) => p.name == name)
    }
  }
}
