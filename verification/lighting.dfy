/**
 The Hue side of the player. The `phue` bridge client is modelled as the
 ordered log of the `set_light` requests it is asked to send; `HuePlayer`
 issues them from two loops, one at start-up and one per band list.
 */
module Lighting {

  /** `65530/100` is an integer division in Python 2: 655. */
  const HueStep: int := 65530 / 100
  /** `255/100` is an integer division in Python 2: 2. */
  const SatStep: int := 255 / 100
  /** Transition time of every state change, in deciseconds. */
  const TransitionTime: int := 4

  /** The state dictionary `{bri, hue, sat, transitiontime}` sent for one band. */
  datatype LightState = LightState(bri: int, hue: int, sat: int, transitiontime: int)

  /** What follows the fixture id in a `set_light` call: one named parameter, or a state dictionary. */
  datatype Params =
    | Attribute(name: string, value: int)
    | State(state: LightState)

  /** One `set_light(light, params)` request. */
  datatype Command = Command(light: int, params: Params)

  /**
   The state `hue_callback` sends for a band of intensity `level`. Because of
   the integer divisions, hue is 655 and saturation 2 per intensity step.
   */
  function ColorFor(level: int): (state: LightState)
    ensures state == LightState(level, 655 * level, 2 * level, 4)
  {
    LightState(level, HueStep * level, SatStep * level, TransitionTime)
  }

  /** The requests `lights_init` sends for `n` lights. */
  function InitCommands(n: int): (cs: seq<Command>)
    ensures |cs| == if n <= 0 then 0 else n
    ensures forall i :: 0 <= i < |cs| ==> cs[i] == Command(i + 1, Attribute("transitiontime", 0))
  {
    if n <= 0 then [] else InitCommands(n - 1) + [Command(n, Attribute("transitiontime", 0))]
  }

  /** The requests `hue_callback` sends for a band list. */
  function CallbackCommands(bands: seq<int>): (cs: seq<Command>)
    ensures |cs| == |bands|
    ensures forall i :: 0 <= i < |cs| ==> cs[i] == Command(i + 1, State(ColorFor(bands[i])))
  {
    if bands == [] then []
    else CallbackCommands(bands[..|bands| - 1]) + [Command(|bands|, State(ColorFor(bands[|bands| - 1])))]
  }

  /** The bridge client; `sent` is every request made so far, oldest first. */
  class Bridge {
    var sent: seq<Command>

    constructor ()
      ensures sent == []
    {
      sent := [];
    }

    /** `set_light`: the request goes out after all earlier ones. */
    method SetLight(light: int, params: Params)
      modifies this
      ensures sent == old(sent) + [Command(light, params)]
    {
      sent := sent + [Command(light, params)];
    }
  }

  class HuePlayer {
    var lights: int
    var bridge: Bridge

    constructor (lights: int, bridge: Bridge)
      ensures this.lights == lights && this.bridge == bridge
    {
      this.lights := lights;
      this.bridge := bridge;
    }

    /** `lights_init`: one transition-time reset per light, fixtures 1 .. lights in order. */
    method LightsInit()
      modifies bridge
      ensures bridge.sent == old(bridge.sent) + InitCommands(lights)
    {
      var i := 0;
      while i < lights
        invariant 0 <= i && (i <= lights || i == 0)
        invariant bridge.sent == old(bridge.sent) + InitCommands(i)
      {
        bridge.SetLight(i + 1, Attribute("transitiontime", 0));
        i := i + 1;
      }
    }

    /** `hue_callback`: one state request per band, fixture band+1, in band order. */
    method HueCallback(bandList: seq<int>)
      modifies bridge
      ensures bridge.sent == old(bridge.sent) + CallbackCommands(bandList)
    {
      for band := 0 to |bandList|
        invariant bridge.sent == old(bridge.sent) + CallbackCommands(bandList[..band])
      {
        bridge.SetLight(band + 1, State(ColorFor(bandList[band])));
        assert bandList[..band + 1][..band] == bandList[..band];
      }
      assert bandList[..|bandList|] == bandList;
    }
  }

  // ---------------------------------------------------------------------
  // Properties of the colour mapping

  /** An intensity in [0, 100] gives hue in [0, 65500] and saturation in [0, 200]. */
  lemma ColorRange(level: int)
    requires 0 <= level <= 100
    ensures ColorFor(level).bri == level
    ensures 0 <= ColorFor(level).hue <= 65500
    ensures 0 <= ColorFor(level).sat <= 200
  {
  }

  /** Brightness, hue and saturation never decrease as the intensity grows. */
  lemma ColorMonotone(a: int, b: int)
    requires a <= b
    ensures ColorFor(a).bri <= ColorFor(b).bri
    ensures ColorFor(a).hue <= ColorFor(b).hue
    ensures ColorFor(a).sat <= ColorFor(b).sat
  {
  }

  /** `hue_callback` addresses fixtures 1, 2, ... in strictly increasing order. */
  lemma CallbackFixturesIncrease(bands: seq<int>, i: int, j: int)
    requires 0 <= i < j < |bands|
    ensures CallbackCommands(bands)[i].light < CallbackCommands(bands)[j].light
  {
  }
}
