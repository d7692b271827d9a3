/**
 * Client-side checks: what a caller of each engine can conclude from the
 * contracts alone, for the scenarios the routing engine is meant to meet.
 */
module Scenarios {
  import opened Midi
  import opened Ports
  import opened ChannelFilter
  import opened Thru
  import ProEngine
  import FailSafeEngine

  /** No preference, one controller and one synthesizer: start picks both. */
  method FirstAvailableOnStart() {
    var ctrl, synth := Port("i1", "CtrlA"), Port("o1", "SynthB");
    var e := new FailSafeEngine.Engine([ctrl], [synth], Prefs(None, None), map[], false);
    var ok := e.Start(true, false);
    assert ok;
    assert e.GetRouting() == FailSafeEngine.RoutingIds(Some("i1"), Some("o1"));
  }

  /** A saved input that is not present falls back to the first input. */
  method MissingPreferenceFallsBack() {
    var ctrl, synth := Port("i1", "CtrlA"), Port("o1", "SynthB");
    var e := new ProEngine.Engine([ctrl], [synth], Prefs(Some("i2"), Some("o1")), map[], false);
    e.Start(false, true);
    assert !HasId([ctrl], "i2") by {
      assert [ctrl][0].id != "i2";
    }
    assert e.mainInput == Some(ctrl);
  }

  /** A vanished input id clears the input side; the valid output is kept. */
  method StaleIdClearsInput() {
    var ctrl, synth := Port("i1", "CtrlA"), Port("o1", "SynthB");
    var e := new ProEngine.Engine([ctrl], [synth], Prefs(None, None), map[], false);
    assert [synth][0].id == "o1";
    e.SetRouting(Some("gone"), Some("o1"));
    assert !HasId([ctrl], "gone") by {
      assert [ctrl][0].id != "gone";
    }
    assert e.GetRouting().inId == None && e.GetRouting().outId == Some("o1");
  }

  /** Selecting the same input twice still forwards each message exactly once, byte for byte. */
  method SelectingTwiceForwardsOnce(e: FailSafeEngine.Engine, i: nat, o: nat, data: seq<Byte>)
    requires i < |e.inputs| && o < |e.outputs|
    modifies e
  {
    var inId, outId := e.inputs[i].id, e.outputs[o].id;
    assert HasId(e.inputs, inId) && HasId(e.outputs, outId);
    e.SetRouting(Some(inId), Some(outId));
    e.SetRouting(Some(inId), Some(outId));
    ForwardedOnce(e, inId, outId, data);
  }

  /** A subscribed engine with `inId` active delivers a message from it once to `outId`. */
  method ForwardedOnce(e: FailSafeEngine.Engine, inId: PortId, outId: PortId, data: seq<Byte>)
    requires e.Subscribed() && IsPort(e.mainInput, inId) && IsPort(e.mainOutput, outId)
    modifies e
  {
    ghost var before := e.sent;
    e.Receive(inId, data);
    assert e.sent == before + [Sent(outId, data)];
  }

  /** mute = {1}, solo = {2}: only a channel-2 message reaches the active output. */
  method SoloBeatsMute(e: ProEngine.Engine, data: seq<Byte>)
    requires e.Subscribed() && e.mainInput.Some? && e.mainOutput.Some?
    requires e.mutedChannels == {} && e.soloedChannels == {}
    modifies e
  {
    var inId, outId := e.mainInput.value.id, e.mainOutput.value.id;
    e.Mute(1);
    e.Solo(2);
    e.Receive(inId, data);
    assert e.sent == old(e.sent) + if StatusByte(data) % 16 == 1 then [Sent(outId, data)] else [];
  }

  /** With unique port ids, `setRouting` with the ids `getRouting` reports keeps the same ports. */
  method RoutingRoundTrip(e: ProEngine.Engine)
    requires e.mainInput.Some? ==> e.mainInput.value in e.inputs
    requires e.mainOutput.Some? ==> e.mainOutput.value in e.outputs
    requires forall j, k :: 0 <= j < k < |e.inputs| ==> e.inputs[j].id != e.inputs[k].id
    requires forall j, k :: 0 <= j < k < |e.outputs| ==> e.outputs[j].id != e.outputs[k].id
    modifies e
  {
    var input, output := e.mainInput, e.mainOutput;
    if input.Some? {
      FindOwnId(e.inputs, input.value);
    }
    if output.Some? {
      FindOwnId(e.outputs, output.value);
    }
    var routing := e.GetRouting();
    e.SetRouting(routing.inId, routing.outId);
    assert e.mainInput == input && e.mainOutput == output;
  }

  /** Muting channel 5 twice leaves it unmuted. */
  method MuteTwiceUnmutes() {
    var e := new ProEngine.Engine([], [], Prefs(None, None), map[], false);
    e.Mute(5);
    e.Mute(5);
    assert 5 !in e.mutedChannels;
  }

  /** With two outputs, panic reaches only the active one. */
  method PanicOnlyToActiveOutput(out: PortId, elsewhere: PortId) {
    var synth, other := Port(out, "SynthB"), Port(elsewhere, "Other");
    var e := new ProEngine.Engine([], [synth, other], Prefs(None, None), map[], false);
    e.Start(true, false);
    e.Panic();
    ProEngine.PanicShape(out);
    assert |e.sent| == 32;
    assert forall k :: 0 <= k < |e.sent| ==> e.sent[k].port == out;
  }
}
