/**
 * The routing engine with mute, solo and a two-controller panic
 * (`midi-engine.js`, "MIDI Engine Pro"). Its module-level `state` record
 * becomes an Engine object; the port directory it consults through WebMidi
 * is held as fields that only the host (PortsChanged) changes.
 */
module ProEngine {
  import opened Midi
  import opened Ports
  import opened ChannelFilter
  import opened Thru

  /** `getRouting()`: ids and names of the active ports, null and "Nenhum" when a side is empty. */
  datatype Routing = Routing(inId: Option<PortId>, outId: Option<PortId>, inName: string, outName: string)

  const NoDeviceName: string := "Nenhum"

  /**
   * How `sendControl` ends: it sent, it returned early without an output, or
   * `channels[channel]` was undefined and the call threw a TypeError.
   */
  datatype ControlResult = Delivered | NoOutput | UndefinedChannel

  /** The channels of an output are numbered 1..16 (`channels[1]` .. `channels[16]`). */
  predicate IsChannel(channel: int)
  {
    1 <= channel <= 16
  }

  /** What `panic` sends on channels 1..n: CC 123 value 0, then CC 121 value 0, channel by channel. */
  function PanicSends(out: PortId, n: nat): (r: seq<Sent>)
    ensures |r| == 2 * n
  {
    if n == 0 then []
    else PanicSends(out, n - 1)
         + [Sent(out, ControlChange(n, AllNotesOff, 0)), Sent(out, ControlChange(n, ResetAllControllers, 0))]
  }

  /**
   * The k-th panic message goes to `out` and is, for channel k / 2 + 1,
   * All Notes Off when k is even and Reset All Controllers when k is odd.
   */
  lemma {:induction false} PanicSendsAt(out: PortId, n: nat, k: nat)
    requires k < 2 * n
    ensures PanicSends(out, n)[k]
            == Sent(out, ControlChange(k / 2 + 1, if k % 2 == 0 then AllNotesOff else ResetAllControllers, 0))
  {
    var prefix := PanicSends(out, n - 1);
    var pair := [Sent(out, ControlChange(n, AllNotesOff, 0)), Sent(out, ControlChange(n, ResetAllControllers, 0))];
    assert PanicSends(out, n) == prefix + pair;
    if k < 2 * (n - 1) {
      PanicSendsAt(out, n - 1, k);
      assert PanicSends(out, n)[k] == prefix[k];
    } else {
      assert k / 2 + 1 == n;
      assert PanicSends(out, n)[k] == pair[k - 2 * (n - 1)];
    }
  }

  /** A full panic: 32 messages to `out`, each a Control Change on channel k / 2 + 1 (status 0xB0 + k / 2), value 0. */
  lemma PanicShape(out: PortId)
    ensures |PanicSends(out, 16)| == 32
    ensures forall k :: 0 <= k < 32 ==>
      PanicSends(out, 16)[k] == Sent(out, [0xB0 + k / 2, if k % 2 == 0 then AllNotesOff else ResetAllControllers, 0])
  {
    forall k | 0 <= k < 32
      ensures PanicSends(out, 16)[k] == Sent(out, [0xB0 + k / 2, if k % 2 == 0 then AllNotesOff else ResetAllControllers, 0])
    {
      PanicSendsAt(out, 16, k);
      ControlChangeRoundTrip(k / 2 + 1);
    }
  }

  class Engine {
    /** The port directory (`WebMidi.inputs`, `WebMidi.outputs`); only the host changes it. */
    var inputs: seq<Port>
    var outputs: seq<Port>
    /** The saved preferences; the engine reads them and never writes them. */
    var saved: Prefs
    /** The listener lists of the input ports. */
    var listeners: ListenerMap
    /** How many engine callbacks are registered for WebMidi's "connected" and "disconnected" events. */
    var connectedHandlers: nat
    var disconnectedHandlers: nat
    /** Whether `window.triggerVisualFeedback` is a function. */
    var feedbackHook: bool

    var mainInput: Option<Port>
    var mainOutput: Option<Port>
    var mutedChannels: set<int>
    var soloedChannels: set<int>

    /** Every `output.send` in order, and every visual-feedback call (its channel). */
    var sent: seq<Sent>
    var feedback: seq<int>

    constructor(inputs: seq<Port>, outputs: seq<Port>, saved: Prefs, listeners: ListenerMap, feedbackHook: bool)
      ensures this.inputs == inputs && this.outputs == outputs && this.saved == saved
      ensures this.listeners == listeners && this.feedbackHook == feedbackHook
      ensures connectedHandlers == 0 && disconnectedHandlers == 0
      ensures mainInput == None && mainOutput == None
      ensures mutedChannels == {} && soloedChannels == {}
      ensures sent == [] && feedback == []
    {
      this.inputs, this.outputs, this.saved := inputs, outputs, saved;
      this.listeners, this.feedbackHook := listeners, feedbackHook;
      connectedHandlers, disconnectedHandlers := 0, 0;
      mainInput, mainOutput := None, None;
      mutedChannels, soloedChannels := {}, {};
      sent, feedback := [], [];
    }

    /** The one engine forwarder sits on the active input, and that input is in the directory. */
    ghost predicate Subscribed()
      reads this`listeners, this`inputs, this`mainInput
    {
      Applied(listeners, inputs, mainInput) && (mainInput.Some? ==> mainInput.value in inputs)
    }

    /** The outcome of `_updatePorts`, starting from the listener lists `before`. */
    ghost predicate Resolved(before: ListenerMap)
      reads this
    {
      && mainInput == Resolve(saved.input, inputs)
      && mainOutput == Resolve(saved.output, outputs)
      && listeners == Reapplied(before, inputs, mainInput)
    }

    /**
     * `init`: try access with sysex, fall back to basic access; on either
     * success set up routing, and when both are refused leave everything as it was.
     */
    method Start(sysexGranted: bool, basicGranted: bool)
      modifies this`connectedHandlers, this`disconnectedHandlers, this`mainInput, this`mainOutput, this`listeners
      ensures sysexGranted || basicGranted ==>
        && connectedHandlers == old(connectedHandlers) + 1
        && disconnectedHandlers == old(disconnectedHandlers) + 1
        && Resolved(old(listeners)) && Subscribed()
      ensures !(sysexGranted || basicGranted) ==> unchanged(this)
    {
      if sysexGranted {
        SetupRouting();
      } else if basicGranted {
        SetupRouting();
      }
    }

    /**
     * `_setupRouting`: registers one more callback for each topology event
     * (this version never removes earlier ones) and resolves the ports.
     */
    method SetupRouting()
      modifies this`connectedHandlers, this`disconnectedHandlers, this`mainInput, this`mainOutput, this`listeners
      ensures connectedHandlers == old(connectedHandlers) + 1
      ensures disconnectedHandlers == old(disconnectedHandlers) + 1
      ensures Resolved(old(listeners)) && Subscribed()
    {
      connectedHandlers := connectedHandlers + 1;
      disconnectedHandlers := disconnectedHandlers + 1;
      UpdatePorts();
    }

    /** `_updatePorts`: preference, else first port, else nothing, per side; then re-apply listeners. */
    method UpdatePorts()
      modifies this`mainInput, this`mainOutput, this`listeners
      ensures Resolved(old(listeners)) && Subscribed()
    {
      ghost var before := listeners;
      var input := Resolve(saved.input, inputs);
      mainInput := input;
      mainOutput := Resolve(saved.output, outputs);
      ApplyListeners();
      assert Applied(listeners, inputs, input) by {
        assert listeners == Reapplied(before, inputs, input);
      }
    }

    /** `_applyListeners`: strip every input's listeners, then attach one forwarder to the active input. */
    method ApplyListeners()
      modifies this`listeners
      ensures listeners == Reapplied(old(listeners), inputs, mainInput)
    {
      var i := 0;
      while i < |inputs|
        invariant 0 <= i <= |inputs|
        invariant listeners == Stripped(old(listeners), inputs[..i])
      {
        StrippedStep(old(listeners), inputs, i);
        listeners := listeners[inputs[i].id := []];
        i := i + 1;
      }
      assert inputs[..|inputs|] == inputs;
      if mainInput.Some? {
        listeners := listeners[mainInput.value.id := ListenersOf(listeners, mainInput.value.id) + [Thru]];
      }
    }

    /**
     * The host's ports changed and WebMidi fires "connected" or
     * "disconnected": each engine callback for that event runs `_updatePorts`.
     * Without a callback nothing is re-resolved.
     */
    method PortsChanged(inputs': seq<Port>, outputs': seq<Port>, connected: bool)
      modifies this`inputs, this`outputs, this`mainInput, this`mainOutput, this`listeners
      ensures inputs == inputs' && outputs == outputs'
      ensures (if connected then connectedHandlers else disconnectedHandlers) > 0 ==>
        Resolved(old(listeners)) && Subscribed()
      ensures (if connected then connectedHandlers else disconnectedHandlers) == 0 ==>
        mainInput == old(mainInput) && mainOutput == old(mainOutput) && listeners == old(listeners)
    {
      inputs, outputs := inputs', outputs';
      var handlers := if connected then connectedHandlers else disconnectedHandlers;
      for i := 0 to handlers
        invariant inputs == inputs' && outputs == outputs'
        invariant i > 0 ==> Resolved(old(listeners)) && Subscribed()
        invariant i == 0 ==> mainInput == old(mainInput) && mainOutput == old(mainOutput) && listeners == old(listeners)
      {
        UpdatePorts();
        if i > 0 {
          ReappliedIdempotent(old(listeners), inputs, mainInput);
        }
      }
    }

    /**
     * The host delivers a message on input `id`: every forwarder on that
     * input runs the handler once. When the engine is subscribed this means
     * once on the active input and never on another input of the directory.
     */
    method Receive(id: PortId, data: seq<Byte>)
      modifies this`sent, this`feedback
      ensures var r := React(data, mutedChannels, soloedChannels, mainOutput, feedbackHook);
              var n := ThruCount(ListenersOf(listeners, id));
              sent == old(sent) + Repeat(r.sends, n) && feedback == old(feedback) + Repeat(r.feedback, n)
      ensures Subscribed() && IsPort(mainInput, id) ==>
        var r := React(data, mutedChannels, soloedChannels, mainOutput, feedbackHook);
        sent == old(sent) + r.sends && feedback == old(feedback) + r.feedback
      ensures Subscribed() && id in IdsOf(inputs) && !IsPort(mainInput, id) ==>
        sent == old(sent) && feedback == old(feedback)
    {
      var r := React(data, mutedChannels, soloedChannels, mainOutput, feedbackHook);
      var ls := ListenersOf(listeners, id);
      Dispatch(ls, r);
      if Subscribed() && id in IdsOf(inputs) {
        AppliedThruCount(listeners, inputs, mainInput, id);
        RepeatOnceOrNever(r.sends, ThruCount(ls));
        RepeatOnceOrNever(r.feedback, ThruCount(ls));
      }
    }

    /** The input port runs its listeners in order; each engine forwarder performs the reaction `r`. */
    method Dispatch(ls: seq<Listener>, r: Reaction)
      modifies this`sent, this`feedback
      ensures sent == old(sent) + Repeat(r.sends, ThruCount(ls))
      ensures feedback == old(feedback) + Repeat(r.feedback, ThruCount(ls))
    {
      ghost var runs := 0;
      for i := 0 to |ls|
        invariant runs == ThruCount(ls[..i])
        invariant sent == old(sent) + Repeat(r.sends, runs)
        invariant feedback == old(feedback) + Repeat(r.feedback, runs)
      {
        ThruCountStep(ls, i);
        if ls[i] == Thru {
          feedback := feedback + r.feedback;
          sent := sent + r.sends;
          runs := runs + 1;
        }
      }
      assert ls[..|ls|] == ls;
    }

    /** `getRouting()`: a side without an active port reads as null, named "Nenhum". */
    function GetRouting(): (r: Routing)
      reads this
      ensures r.inId.Some? <==> mainInput.Some?
      ensures r.outId.Some? <==> mainOutput.Some?
      ensures mainInput.Some? ==> r.inId.value == mainInput.value.id && r.inName == mainInput.value.name
      ensures mainOutput.Some? ==> r.outId.value == mainOutput.value.id && r.outName == mainOutput.value.name
      ensures mainInput.None? ==> r.inName == NoDeviceName
      ensures mainOutput.None? ==> r.outName == NoDeviceName
    {
      Routing(
        if mainInput.Some? then Some(mainInput.value.id) else None,
        if mainOutput.Some? then Some(mainOutput.value.id) else None,
        if mainInput.Some? then mainInput.value.name else NoDeviceName,
        if mainOutput.Some? then mainOutput.value.name else NoDeviceName)
    }

    /**
     * `setRouting(inId, outId)`: each side independently becomes the port
     * with that id, or empty when the id does not resolve; listeners are
     * re-applied. Nothing is persisted and the filters are untouched.
     */
    method SetRouting(inId: Option<PortId>, outId: Option<PortId>)
      modifies this`mainInput, this`mainOutput, this`listeners
      ensures mainInput == FindById(inputs, inId) && mainOutput == FindById(outputs, outId)
      ensures listeners == Reapplied(old(listeners), inputs, mainInput) && Subscribed()
      ensures GetRouting().inId == if inId.Some? && HasId(inputs, inId.value) then inId else None
      ensures GetRouting().outId == if outId.Some? && HasId(outputs, outId.value) then outId else None
    {
      ghost var before := listeners;
      var input := FindById(inputs, inId);
      mainInput := input;
      mainOutput := FindById(outputs, outId);
      ApplyListeners();
      assert Applied(listeners, inputs, input) by {
        assert listeners == Reapplied(before, inputs, input);
      }
    }

    /** `sendControl`: one Control Change to the active output, nothing without one. */
    method SendControl(channel: int, controller: int, value: int) returns (result: ControlResult)
      modifies this`sent
      ensures mainOutput.None? ==> result == NoOutput && sent == old(sent)
      ensures mainOutput.Some? && !IsChannel(channel) ==> result == UndefinedChannel && sent == old(sent)
      ensures mainOutput.Some? && IsChannel(channel) ==>
        result == Delivered && sent == old(sent) + [Sent(mainOutput.value.id, ControlChange(channel, controller, value))]
    {
      if mainOutput.None? {
        return NoOutput;
      }
      if !IsChannel(channel) {
        return UndefinedChannel;
      }
      sent := sent + [Sent(mainOutput.value.id, ControlChange(channel, controller, value))];
      result := Delivered;
    }

    /** `mute(channel)`: flips the channel's membership in the muted set. */
    method Mute(channel: int)
      modifies this`mutedChannels
      ensures mutedChannels == Toggle(old(mutedChannels), channel)
    {
      mutedChannels := Toggle(mutedChannels, channel);
    }

    /** `solo(channel)`: flips the channel's membership in the soloed set. */
    method Solo(channel: int)
      modifies this`soloedChannels
      ensures soloedChannels == Toggle(old(soloedChannels), channel)
    {
      soloedChannels := Toggle(soloedChannels, channel);
    }

    /** `panic`: nothing without an active output; otherwise the 32 panic messages, to it alone. */
    method Panic()
      modifies this`sent
      ensures mainOutput.None? ==> sent == old(sent)
      ensures mainOutput.Some? ==> sent == old(sent) + PanicSends(mainOutput.value.id, 16)
    {
      if mainOutput.None? {
        return;
      }
      var out := mainOutput.value.id;
      for i := 1 to 17
        invariant sent == old(sent) + PanicSends(out, i - 1)
      {
        sent := sent + [Sent(out, ControlChange(i, AllNotesOff, 0))];
        sent := sent + [Sent(out, ControlChange(i, ResetAllControllers, 0))];
      }
    }
  }
}
