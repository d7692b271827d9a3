/**
 * The port directory as the routing engine sees it: ports with ids and names,
 * lookups by id, the preference-then-first-port resolution, and the
 * listener lists attached to each input port (keyed by port id).
 */
module Ports {

  datatype Option<T> = None | Some(value: T)

  type PortId = string

  /** A MIDI input or output endpoint; the engine only ever refers to one by id. */
  datatype Port = Port(id: PortId, name: string)

  /** The saved `pref_midi_in` / `pref_midi_out` entries (None when the key is absent). */
  datatype Prefs = Prefs(input: Option<PortId>, output: Option<PortId>)

  predicate HasId(ports: seq<Port>, id: PortId)
  {
    exists k :: 0 <= k < |ports| && ports[k].id == id
  }

  /** `ports.find(matches)`: the first port the predicate accepts, or nothing. */
  function FindFirst(ports: seq<Port>, matches: Port -> bool): (r: Option<Port>)
    ensures r.None? <==> forall k :: 0 <= k < |ports| ==> !matches(ports[k])
    ensures r.Some? ==> exists k :: 0 <= k < |ports| && ports[k] == r.value && matches(r.value)
                                    && forall j :: 0 <= j < k ==> !matches(ports[j])
  {
    if |ports| == 0 then None
    else if matches(ports[0]) then Some(ports[0])
    else
      var r := FindFirst(ports[1..], matches);
      assert forall k :: 1 <= k < |ports| ==> ports[1..][k - 1] == ports[k];
      r
  }

  /** `getInputById(id)` / `getOutputById(id)`: the port with that id; an absent id finds nothing. */
  function FindById(ports: seq<Port>, id: Option<PortId>): (r: Option<Port>)
    ensures r.Some? <==> id.Some? && HasId(ports, id.value)
    ensures r.Some? ==> r.value in ports && r.value.id == id.value
  {
    if id.None? then None else FindFirst(ports, (p: Port) => p.id == id.value)
  }

  /**
   * `getXById(saved) || ports[0] || null`: the saved preference when that port
   * is present, else the first port of the direction, else nothing.
   */
  function Resolve(saved: Option<PortId>, ports: seq<Port>): (r: Option<Port>)
    ensures r.None? <==> |ports| == 0
    ensures r.Some? ==> r.value in ports
    ensures saved.Some? && HasId(ports, saved.value) ==> r.Some? && r.value.id == saved.value
    ensures !(saved.Some? && HasId(ports, saved.value)) && |ports| > 0 ==> r == Some(ports[0])
  {
    match FindById(ports, saved)
    case Some(p) => Some(p)
    case None => if |ports| > 0 then Some(ports[0]) else None
  }

  // ---------------------------------------------------------------------
  // Listeners attached to input ports
  // ---------------------------------------------------------------------

  /** The engine's `midimessage` forwarder, or a listener some other collaborator attached. */
  datatype Listener = Thru | Foreign(owner: nat)

  type ListenerMap = map<PortId, seq<Listener>>

  function ListenersOf(m: ListenerMap, id: PortId): seq<Listener>
  {
    if id in m then m[id] else []
  }

  function IdsOf(ports: seq<Port>): set<PortId>
  {
    set k | 0 <= k < |ports| :: ports[k].id
  }

  predicate IsPort(p: Option<Port>, id: PortId)
  {
    p.Some? && p.value.id == id
  }

  /** How many engine forwarders a listener list holds. */
  function ThruCount(ls: seq<Listener>): nat
  {
    if |ls| == 0 then 0 else ThruCount(ls[..|ls| - 1]) + (if ls[|ls| - 1] == Thru then 1 else 0)
  }

  /** `inputs.forEach(input => input.removeListener())`: every listed input loses all its listeners. */
  function Stripped(m: ListenerMap, inputs: seq<Port>): (r: ListenerMap)
    ensures r.Keys == m.Keys + IdsOf(inputs)
    ensures forall id :: id in IdsOf(inputs) ==> ListenersOf(r, id) == []
    ensures forall id :: id !in IdsOf(inputs) ==> ListenersOf(r, id) == ListenersOf(m, id)
  {
    if |inputs| == 0 then m
    else
      var init, last := inputs[..|inputs| - 1], inputs[|inputs| - 1];
      assert IdsOf(inputs) == IdsOf(init) + {last.id} by {
        assert inputs == init + [last];
      }
      Stripped(m, init)[last.id := []]
  }

  /**
   * `_applyListeners`: strip every input, then add one forwarder to the
   * active input. Afterwards each listed input holds exactly the forwarder
   * when it is the active one and nothing otherwise; ports outside the
   * directory keep what they had, except that the active port gains a forwarder.
   */
  function Reapplied(m: ListenerMap, inputs: seq<Port>, main: Option<Port>): (r: ListenerMap)
    ensures r.Keys == m.Keys + IdsOf(inputs) + if main.Some? then {main.value.id} else {}
    ensures Applied(r, inputs, main)
    ensures forall id :: id !in IdsOf(inputs) && !IsPort(main, id) ==> ListenersOf(r, id) == ListenersOf(m, id)
  {
    var s := Stripped(m, inputs);
    if main.Some? then s[main.value.id := ListenersOf(s, main.value.id) + [Thru]] else s
  }

  /** Every input of the directory holds one forwarder if it is the active input and no listener otherwise. */
  ghost predicate Applied(m: ListenerMap, inputs: seq<Port>, main: Option<Port>)
  {
    forall id :: id in IdsOf(inputs) ==> ListenersOf(m, id) == if IsPort(main, id) then [Thru] else []
  }

  /**
   * Re-applying with the active input drawn from the directory is idempotent:
   * however often `_applyListeners` runs, the active input keeps one forwarder.
   */
  lemma ReappliedIdempotent(m: ListenerMap, inputs: seq<Port>, main: Option<Port>)
    requires main.Some? ==> main.value in inputs
    ensures Reapplied(Reapplied(m, inputs, main), inputs, main) == Reapplied(m, inputs, main)
  {
    var once := Reapplied(m, inputs, main);
    var twice := Reapplied(once, inputs, main);
    var ids := IdsOf(inputs);
    var active := if main.Some? then {main.value.id} else {};
    if main.Some? {
      IdOfMember(inputs, main.value);
    }
    assert active <= ids;
    assert once.Keys == m.Keys + ids;
    assert twice.Keys == once.Keys;
    forall id | id in twice
      ensures twice[id] == once[id]
    {
      assert ListenersOf(twice, id) == ListenersOf(once, id);
    }
  }

  lemma IdOfMember(ports: seq<Port>, p: Port)
    requires p in ports
    ensures p.id in IdsOf(ports)
  {
    var k :| 0 <= k < |ports| && ports[k] == p;
  }

  /** Under an applied state, the active input holds one forwarder and every other listed input none. */
  lemma AppliedThruCount(m: ListenerMap, inputs: seq<Port>, main: Option<Port>, id: PortId)
    requires Applied(m, inputs, main) && id in IdsOf(inputs)
    ensures ThruCount(ListenersOf(m, id)) == if IsPort(main, id) then 1 else 0
  {
    assert [Thru][..0] == [];
  }

  lemma ThruCountStep(ls: seq<Listener>, i: nat)
    requires i < |ls|
    ensures ThruCount(ls[..i + 1]) == ThruCount(ls[..i]) + if ls[i] == Thru then 1 else 0
  {
    assert ls[..i + 1][..i] == ls[..i];
  }

  /** Stripping one more input is an update of that input's list to empty. */
  lemma StrippedStep(m: ListenerMap, inputs: seq<Port>, i: nat)
    requires i < |inputs|
    ensures Stripped(m, inputs[..i + 1]) == Stripped(m, inputs[..i])[inputs[i].id := []]
  {
    assert inputs[..i + 1][..i] == inputs[..i];
  }

  /** A port picked from a directory whose ids are unique is found again by its own id. */
  lemma FindOwnId(ports: seq<Port>, p: Port)
    requires p in ports
    requires forall j, k :: 0 <= j < k < |ports| ==> ports[j].id != ports[k].id
    ensures FindById(ports, Some(p.id)) == Some(p)
  {
    var r := FindById(ports, Some(p.id));
    var k :| 0 <= k < |ports| && ports[k] == r.value;
    var j :| 0 <= j < |ports| && ports[j] == p;
  }
}
