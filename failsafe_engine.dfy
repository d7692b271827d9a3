/**
 * The routing engine of `js/midi-engine.js` ("fail-safe initialisation"):
 * the same routing and forwarding as the Pro engine, but `init` reports
 * success as a boolean, `_setupRouting` replaces its topology callbacks
 * instead of adding more, no mute or solo is exported, and `panic` sends
 * only All Notes Off.
 */
module FailSafeEngine {
  import opened Midi
  import opened Ports
  import opened ChannelFilter
  import opened Thru

  /** `getRouting()`: `{inId: mainInput?.id, outId: mainOutput?.id}`. */
  datatype RoutingIds = RoutingIds(inId: Option<PortId>, outId: Option<PortId>)

  /** How `sendControl` ends (see ProEngine.ControlResult). */
  datatype ControlResult = Delivered | NoOutput | UndefinedChannel

  /** What `panic` sends on channels 1..n: CC 123 value 0, one per channel. */
  function AllNotesOffSends(out: PortId, n: nat): (r: seq<Sent>)
    ensures |r| == n
  {
    if n == 0 then [] else AllNotesOffSends(out, n - 1) + [Sent(out, ControlChange(n, AllNotesOff, 0))]
  }

  /** The k-th panic message is All Notes Off on channel k + 1, sent to `out`. */
  lemma {:induction false} AllNotesOffAt(out: PortId, n: nat, k: nat)
    requires k < n
    ensures AllNotesOffSends(out, n)[k] == Sent(out, ControlChange(k + 1, AllNotesOff, 0))
  {
    var prefix := AllNotesOffSends(out, n - 1);
    assert AllNotesOffSends(out, n) == prefix + [Sent(out, ControlChange(n, AllNotesOff, 0))];
    if k < n - 1 {
      AllNotesOffAt(out, n - 1, k);
      assert AllNotesOffSends(out, n)[k] == prefix[k];
    }
  }

  /** A full panic: 16 messages to `out`, the k-th being `[0xB0 + k, 123, 0]`. */
  lemma AllNotesOffShape(out: PortId)
    ensures |AllNotesOffSends(out, 16)| == 16
    ensures forall k :: 0 <= k < 16 ==> AllNotesOffSends(out, 16)[k] == Sent(out, [0xB0 + k, AllNotesOff, 0])
  {
    forall k | 0 <= k < 16
      ensures AllNotesOffSends(out, 16)[k] == Sent(out, [0xB0 + k, AllNotesOff, 0])
    {
      AllNotesOffAt(out, 16, k);
      ControlChangeRoundTrip(k + 1);
    }
  }

  class Engine {
    /** The port directory (`WebMidi.inputs`, `WebMidi.outputs`); only the host changes it. */
    var inputs: seq<Port>
    var outputs: seq<Port>
    /** The saved preferences; the engine reads them and never writes them. */
    var saved: Prefs
    /** The listener lists of the input ports. */
    var listeners: ListenerMap
    /** How many engine callbacks are registered for WebMidi's "connected" and "disconnected" events. */
    var connectedHandlers: nat
    var disconnectedHandlers: nat
    /** Whether `window.triggerVisualFeedback` is a function. */
    var feedbackHook: bool

    var mainInput: Option<Port>
    var mainOutput: Option<Port>
    /** Created empty; no operation of this engine adds to them. */
    const mutedChannels: set<int> := {}
    const soloedChannels: set<int> := {}

    /** Every `output.send` in order, and every visual-feedback call (its channel). */
    var sent: seq<Sent>
    var feedback: seq<int>

    constructor(inputs: seq<Port>, outputs: seq<Port>, saved: Prefs, listeners: ListenerMap, feedbackHook: bool)
      ensures this.inputs == inputs && this.outputs == outputs && this.saved == saved
      ensures this.listeners == listeners && this.feedbackHook == feedbackHook
      ensures connectedHandlers == 0 && disconnectedHandlers == 0
      ensures mainInput == None && mainOutput == None
      ensures sent == [] && feedback == []
    {
      this.inputs, this.outputs, this.saved := inputs, outputs, saved;
      this.listeners, this.feedbackHook := listeners, feedbackHook;
      connectedHandlers, disconnectedHandlers := 0, 0;
      mainInput, mainOutput := None, None;
      sent, feedback := [], [];
    }

    /** The one engine forwarder sits on the active input, and that input is in the directory. */
    ghost predicate Subscribed()
      reads this`listeners, this`inputs, this`mainInput
    {
      Applied(listeners, inputs, mainInput) && (mainInput.Some? ==> mainInput.value in inputs)
    }

    /** The outcome of `_updatePorts`, starting from the listener lists `before`. */
    ghost predicate Resolved(before: ListenerMap)
      reads this
    {
      && mainInput == Resolve(saved.input, inputs)
      && mainOutput == Resolve(saved.output, outputs)
      && listeners == Reapplied(before, inputs, mainInput)
    }

    /**
     * `init`: sysex access, else basic access; true when either is granted
     * (routing is then set up), false when both are refused (nothing changes).
     */
    method Start(sysexGranted: bool, basicGranted: bool) returns (started: bool)
      modifies this`connectedHandlers, this`disconnectedHandlers, this`mainInput, this`mainOutput, this`listeners
      ensures started <==> sysexGranted || basicGranted
      ensures started ==> connectedHandlers == 1 && disconnectedHandlers == 1 && Resolved(old(listeners)) && Subscribed()
      ensures !started ==> unchanged(this)
    {
      if !sysexGranted && !basicGranted {
        return false;
      }
      SetupRouting();
      started := true;
    }

    /**
     * `_setupRouting`: drops every earlier "connected"/"disconnected"
     * callback, registers one of each, and resolves the ports.
     */
    method SetupRouting()
      modifies this`connectedHandlers, this`disconnectedHandlers, this`mainInput, this`mainOutput, this`listeners
      ensures connectedHandlers == 1 && disconnectedHandlers == 1
      ensures Resolved(old(listeners)) && Subscribed()
    {
      connectedHandlers, disconnectedHandlers := 0, 0;
      connectedHandlers := connectedHandlers + 1;
      disconnectedHandlers := disconnectedHandlers + 1;
      UpdatePorts();
    }

    /** `_updatePorts`: preference, else first port, else nothing, per side; then re-apply listeners. */
    method UpdatePorts()
      modifies this`mainInput, this`mainOutput, this`listeners
      ensures Resolved(old(listeners)) && Subscribed()
    {
      ghost var before := listeners;
      var input := Resolve(saved.input, inputs);
      mainInput := input;
      mainOutput := Resolve(saved.output, outputs);
      ApplyListeners();
      assert Applied(listeners, inputs, input) by {
        assert listeners == Reapplied(before, inputs, input);
      }
    }

    /** `_applyListeners`: strip every input's listeners, then attach one forwarder to the active input. */
    method ApplyListeners()
      modifies this`listeners
      ensures listeners == Reapplied(old(listeners), inputs, mainInput)
    {
      var i := 0;
      while i < |inputs|
        invariant 0 <= i <= |inputs|
        invariant listeners == Stripped(old(listeners), inputs[..i])
      {
        StrippedStep(old(listeners), inputs, i);
        listeners := listeners[inputs[i].id := []];
        i := i + 1;
      }
      assert inputs[..|inputs|] == inputs;
      if mainInput.Some? {
        listeners := listeners[mainInput.value.id := ListenersOf(listeners, mainInput.value.id) + [Thru]];
      }
    }

    /**
     * The host's ports changed and WebMidi fires "connected" or
     * "disconnected": each engine callback for that event runs `_updatePorts`.
     */
    method PortsChanged(inputs': seq<Port>, outputs': seq<Port>, connected: bool)
      modifies this`inputs, this`outputs, this`mainInput, this`mainOutput, this`listeners
      ensures inputs == inputs' && outputs == outputs'
      ensures (if connected then connectedHandlers else disconnectedHandlers) > 0 ==>
        Resolved(old(listeners)) && Subscribed()
      ensures (if connected then connectedHandlers else disconnectedHandlers) == 0 ==>
        mainInput == old(mainInput) && mainOutput == old(mainOutput) && listeners == old(listeners)
    {
      inputs, outputs := inputs', outputs';
      var handlers := if connected then connectedHandlers else disconnectedHandlers;
      for i := 0 to handlers
        invariant inputs == inputs' && outputs == outputs'
        invariant i > 0 ==> Resolved(old(listeners)) && Subscribed()
        invariant i == 0 ==> mainInput == old(mainInput) && mainOutput == old(mainOutput) && listeners == old(listeners)
      {
        UpdatePorts();
        if i > 0 {
          ReappliedIdempotent(old(listeners), inputs, mainInput);
        }
      }
    }

    /**
     * The host delivers a message on input `id`. With no filter in this
     * engine, a subscribed engine forwards every message of the active input
     * once, unmodified, when an output exists, and nothing from other inputs.
     */
    method Receive(id: PortId, data: seq<Byte>)
      modifies this`sent, this`feedback
      ensures var r := React(data, mutedChannels, soloedChannels, mainOutput, feedbackHook);
              var n := ThruCount(ListenersOf(listeners, id));
              sent == old(sent) + Repeat(r.sends, n) && feedback == old(feedback) + Repeat(r.feedback, n)
      ensures Subscribed() && IsPort(mainInput, id) ==>
        sent == old(sent) + if mainOutput.Some? then [Sent(mainOutput.value.id, data)] else []
      ensures Subscribed() && id in IdsOf(inputs) && !IsPort(mainInput, id) ==>
        sent == old(sent) && feedback == old(feedback)
    {
      var r := React(data, mutedChannels, soloedChannels, mainOutput, feedbackHook);
      EverythingPassesUnfiltered(StatusByte(data) % 16 + 1);
      var ls := ListenersOf(listeners, id);
      Dispatch(ls, r);
      if Subscribed() && id in IdsOf(inputs) {
        AppliedThruCount(listeners, inputs, mainInput, id);
        RepeatOnceOrNever(r.sends, ThruCount(ls));
        RepeatOnceOrNever(r.feedback, ThruCount(ls));
      }
    }

    /** The input port runs its listeners in order; each engine forwarder performs the reaction `r`. */
    method Dispatch(ls: seq<Listener>, r: Reaction)
      modifies this`sent, this`feedback
      ensures sent == old(sent) + Repeat(r.sends, ThruCount(ls))
      ensures feedback == old(feedback) + Repeat(r.feedback, ThruCount(ls))
    {
      ghost var runs := 0;
      for i := 0 to |ls|
        invariant runs == ThruCount(ls[..i])
        invariant sent == old(sent) + Repeat(r.sends, runs)
        invariant feedback == old(feedback) + Repeat(r.feedback, runs)
      {
        ThruCountStep(ls, i);
        if ls[i] == Thru {
          feedback := feedback + r.feedback;
          sent := sent + r.sends;
          runs := runs + 1;
        }
      }
      assert ls[..|ls|] == ls;
    }

    /** `getRouting()`: the ids of the active ports, absent for an empty side; it never fails. */
    function GetRouting(): (r: RoutingIds)
      reads this
      ensures r.inId.Some? <==> mainInput.Some?
      ensures r.outId.Some? <==> mainOutput.Some?
      ensures mainInput.Some? ==> r.inId.value == mainInput.value.id
      ensures mainOutput.Some? ==> r.outId.value == mainOutput.value.id
    {
      RoutingIds(
        if mainInput.Some? then Some(mainInput.value.id) else None,
        if mainOutput.Some? then Some(mainOutput.value.id) else None)
    }

    /**
     * `setRouting(inId, outId)`: each side independently becomes the port
     * with that id, or empty when the id does not resolve; listeners are re-applied.
     */
    method SetRouting(inId: Option<PortId>, outId: Option<PortId>)
      modifies this`mainInput, this`mainOutput, this`listeners
      ensures mainInput == FindById(inputs, inId) && mainOutput == FindById(outputs, outId)
      ensures listeners == Reapplied(old(listeners), inputs, mainInput) && Subscribed()
      ensures GetRouting().inId == if inId.Some? && HasId(inputs, inId.value) then inId else None
      ensures GetRouting().outId == if outId.Some? && HasId(outputs, outId.value) then outId else None
    {
      ghost var before := listeners;
      var input := FindById(inputs, inId);
      mainInput := input;
      mainOutput := FindById(outputs, outId);
      ApplyListeners();
      assert Applied(listeners, inputs, input) by {
        assert listeners == Reapplied(before, inputs, input);
      }
    }

    /** `sendControl`: one Control Change to the active output, nothing without one. */
    method SendControl(channel: int, controller: int, value: int) returns (result: ControlResult)
      modifies this`sent
      ensures mainOutput.None? ==> result == NoOutput && sent == old(sent)
      ensures mainOutput.Some? && !(1 <= channel <= 16) ==> result == UndefinedChannel && sent == old(sent)
      ensures mainOutput.Some? && 1 <= channel <= 16 ==>
        result == Delivered && sent == old(sent) + [Sent(mainOutput.value.id, ControlChange(channel, controller, value))]
    {
      if mainOutput.None? {
        return NoOutput;
      }
      if !(1 <= channel <= 16) {
        return UndefinedChannel;
      }
      sent := sent + [Sent(mainOutput.value.id, ControlChange(channel, controller, value))];
      result := Delivered;
    }

    /** `panic`: nothing without an active output; otherwise All Notes Off on channels 1..16, to it alone. */
    method Panic()
      modifies this`sent
      ensures mainOutput.None? ==> sent == old(sent)
      ensures mainOutput.Some? ==> sent == old(sent) + AllNotesOffSends(mainOutput.value.id, 16)
    {
      if mainOutput.Some? {
        var out := mainOutput.value.id;
        for i := 1 to 17
          invariant sent == old(sent) + AllNotesOffSends(out, i - 1)
        {
          sent := sent + [Sent(out, ControlChange(i, AllNotesOff, 0))];
        }
      }
    }
  }
}
