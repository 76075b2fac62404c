/**
 One tick of `play_stream` wired to `HuePlayer.hue_callback`, and the start
 of `HuePlayer.play`: the band list of one snapshot becomes one request per
 light; a pass that raises sends nothing.
 */
module Playback {
  import opened Spectrum
  import opened Lighting

  /** The requests one tick sends after the band loop returned `r`. */
  function TickCommands(r: Result<seq<int>>): (cs: seq<Command>)
    ensures r.Err? ==> cs == []
    ensures r.Ok? ==> |cs| == |r.value|
    ensures r.Ok? ==> forall i :: 0 <= i < |cs| ==> cs[i].light == i + 1 && cs[i].params.State?
  {
    if r.Ok? then CallbackCommands(r.value) else []
  }

  /**
   The body of the `while True` loop of `play_stream` (hueplayer.py:58-78)
   with `callback` bound to `player.hue_callback`, for the snapshot `fft`
   that `BASS_ChannelGetData` delivered.
   */
  method PlayTick(player: HuePlayer, fft: seq<real>) returns (r: Result<seq<int>>)
    requires |fft| == FftBins
    modifies player.bridge
    ensures r == Analyze(fft, player.lights)
    ensures player.bridge.sent == old(player.bridge.sent) + TickCommands(r)
  {
    ghost var touched;
    r, touched := ExtractBands(fft, player.lights);
    if r.Ok? {
      player.HueCallback(r.value);
    }
  }

  /**
   `play` up to its first tick: the start-up requests of `lights_init`, then
   the requests of the first snapshot.
   */
  method Play(player: HuePlayer, fft: seq<real>) returns (r: Result<seq<int>>)
    requires |fft| == FftBins
    modifies player.bridge
    ensures r == Analyze(fft, player.lights)
    ensures player.bridge.sent
      == old(player.bridge.sent) + InitCommands(player.lights) + TickCommands(r)
  {
    player.LightsInit();
    r := PlayTick(player, fft);
  }

  /**
   With two to twelve lights a tick sends exactly one state request per
   light, to fixtures 1 .. lights in order, each with the colour of its band
   and within the bridge's ranges.
   */
  lemma TickCoversEveryLight(fft: seq<real>, lights: int, i: int)
    requires |fft| == FftBins && 2 <= lights <= 12 && 0 <= i < lights
    ensures |TickCommands(Analyze(fft, lights))| == lights
    ensures TickCommands(Analyze(fft, lights))[i].light == i + 1
    ensures TickCommands(Analyze(fft, lights))[i].params.State?
    ensures 0 <= TickCommands(Analyze(fft, lights))[i].params.state.bri <= 100
    ensures 0 <= TickCommands(Analyze(fft, lights))[i].params.state.hue <= 65500
    ensures 0 <= TickCommands(Analyze(fft, lights))[i].params.state.sat <= 200
  {
    AnalyzeOutcome(fft, lights);
    AnalyzeBands(fft, lights, i);
    ColorRange(Analyze(fft, lights).value[i]);
  }

  /** With one light, or thirteen and more, a tick raises and sends nothing. */
  lemma FaultyTickSendsNothing(fft: seq<real>, lights: int)
    requires |fft| == FftBins && (lights == 1 || lights >= 13)
    ensures TickCommands(Analyze(fft, lights)) == []
  {
    AnalyzeOutcome(fft, lights);
  }

  /** With 2 to 12 lights, a silent snapshot turns every light to brightness, hue and saturation 0. */
  lemma SilentTickDarkens(fft: seq<real>, lights: int, i: int)
    requires |fft| == FftBins && 2 <= lights <= 12 && 0 <= i < lights
    requires forall k :: 1 <= k < |fft| ==> fft[k] <= 0.0
    ensures |TickCommands(Analyze(fft, lights))| == lights
    ensures TickCommands(Analyze(fft, lights))[i] == Command(i + 1, State(LightState(0, 0, 0, 4)))
  {
    SilentSnapshot(fft, lights);
    var levels := Analyze(fft, lights).value;
    assert levels[i] == 0;
    assert TickCommands(Analyze(fft, lights)) == CallbackCommands(levels);
  }

  /** With 2 to 12 lights, a snapshot loud in every bin sends brightness 100, hue 65500 and saturation 200 to every light. */
  lemma LoudTickSaturates(fft: seq<real>, lights: int, i: int)
    requires |fft| == FftBins && 2 <= lights <= 12 && 0 <= i < lights
    requires forall k :: 1 <= k < |fft| ==> fft[k] >= 1.0 / 9.0
    ensures |TickCommands(Analyze(fft, lights))| == lights
    ensures TickCommands(Analyze(fft, lights))[i] == Command(i + 1, State(LightState(100, 65500, 200, 4)))
  {
    LoudSnapshot(fft, lights);
    var levels := Analyze(fft, lights).value;
    assert levels[i] == MaxLevel;
    assert TickCommands(Analyze(fft, lights)) == CallbackCommands(levels);
  }
}
