/**
 * Per-channel mute and solo. Both are plain sets of channel numbers that the
 * engine toggles; solo, when any channel is soloed, overrides mute.
 */
module ChannelFilter {

  /** `_isChannelActive`: with any channel soloed only soloed channels pass; otherwise unmuted ones do. */
  predicate IsChannelActive(muted: set<int>, soloed: set<int>, channel: int)
    ensures channel in soloed ==> IsChannelActive(muted, soloed, channel)
    ensures channel in muted && channel !in soloed ==> !IsChannelActive(muted, soloed, channel)
    ensures soloed == {} && channel !in muted ==> IsChannelActive(muted, soloed, channel)
  {
    if |soloed| > 0 then channel in soloed else channel !in muted
  }

  /** While some channel is soloed, the muted set has no say at all. */
  lemma SoloOverridesMute(muted: set<int>, muted': set<int>, soloed: set<int>, channel: int)
    requires soloed != {}
    ensures IsChannelActive(muted, soloed, channel) <==> channel in soloed
    ensures IsChannelActive(muted, soloed, channel) == IsChannelActive(muted', soloed, channel)
  {
  }

  /** With nothing soloed, a channel passes exactly when it is not muted. */
  lemma MuteDecidesWithoutSolo(muted: set<int>, channel: int)
    ensures IsChannelActive(muted, {}, channel) <==> channel !in muted
  {
  }

  /** With both sets empty (the engine that exports no mute or solo) every channel passes. */
  lemma EverythingPassesUnfiltered(channel: int)
    ensures IsChannelActive({}, {}, channel)
  {
  }

  /** `set.has(c) ? set.delete(c) : set.add(c)`: flips the membership of c and of nothing else. */
  function Toggle(s: set<int>, c: int): (r: set<int>)
    ensures c in r <==> c !in s
    ensures forall x :: x != c ==> (x in r <==> x in s)
  {
    if c in s then s - {c} else s + {c}
  }

  /** Toggling the same channel twice restores the set. */
  lemma ToggleTwice(s: set<int>, c: int)
    ensures Toggle(Toggle(s, c), c) == s
  {
  }
}
