/**
 * The engine's `midimessage` handler and the messages it sends: what one
 * inbound message causes (a visual-feedback event, a forwarded copy), and how
 * that repeats once per forwarder attached to the receiving port.
 */
module Thru {
  import opened Midi
  import opened Ports
  import opened ChannelFilter

  /** One `output.send(data)`: the output port's id and the numbers sent. */
  datatype Sent = Sent(port: PortId, data: seq<int>)

  /** What one run of the handler does: feedback events (channels) and sends. */
  datatype Reaction = Reaction(feedback: seq<int>, sends: seq<Sent>)

  /**
   * The handler for one inbound message: visual feedback on Note On or
   * Control Change when a feedback hook exists, then the message forwarded
   * unmodified to the active output when its channel is active.
   */
  function React(data: seq<Byte>, muted: set<int>, soloed: set<int>, output: Option<Port>, hook: bool): (r: Reaction)
    ensures |r.sends| <= 1 && |r.feedback| <= 1
    ensures r.sends != [] <==> output.Some? && IsChannelActive(muted, soloed, StatusByte(data) % 16 + 1)
    ensures r.sends != [] ==> r.sends[0] == Sent(output.value.id, data)
    ensures r.feedback != [] <==> hook && (StatusByte(data) / 16 == 9 || StatusByte(data) / 16 == 11)
    ensures r.feedback != [] ==> r.feedback[0] == StatusByte(data) % 16 + 1
  {
    var channel := ChannelOf(data);
    var kind := TypeOf(data);
    Reaction(
      if (kind == NoteOn || kind == ControlChangeType) && hook then [channel] else [],
      if IsChannelActive(muted, soloed, channel) && output.Some? then [Sent(output.value.id, data)] else [])
  }

  /** s repeated n times. */
  function Repeat<T>(s: seq<T>, n: nat): (r: seq<T>)
    ensures |r| == n * |s|
  {
    if n == 0 then [] else Repeat(s, n - 1) + s
  }

  lemma RepeatOnceOrNever<T>(s: seq<T>, n: nat)
    requires n <= 1
    ensures Repeat(s, n) == if n == 1 then s else []
  {
    if n == 1 {
      assert Repeat(s, 0) == [];
    }
  }
}
