/** The sampling options sent with every chat request, and how the seed is chosen. */
module Sampling {

  /** The largest seed the random draw can produce (the draw is inclusive at both ends). */
  const SeedMax: int := 1000000000

  /** The "options" entry of the configuration. The real-valued parameters are only
      ever copied, never computed with. A negative seed asks for a fresh random one. */
  datatype Options = Options(
    temperature: real,
    numCtx: int,
    topK: int,
    topP: real,
    repeatPenalty: real,
    seed: int)

  /** The five values the sliders and the seed box write back. */
  datatype Controls = Controls(
    temperature: real,
    topK: int,
    topP: real,
    repeatPenalty: real,
    seed: int)

  function ControlsOf(o: Options): Controls
  {
    Controls(o.temperature, o.topK, o.topP, o.repeatPenalty, o.seed)
  }

  /** The options after the controls are written back: the controls read back as
      written and the context size is kept. */
  function WithControls(o: Options, c: Controls): (r: Options)
    ensures ControlsOf(r) == c
    ensures r.numCtx == o.numCtx
  {
    o.(temperature := c.temperature, topK := c.topK, topP := c.topP,
       repeatPenalty := c.repeatPenalty, seed := c.seed)
  }

  /** Writing the controls twice is the same as writing the second set once. */
  lemma WithControlsOverwrites(o: Options, c1: Controls, c2: Controls)
    ensures WithControls(WithControls(o, c1), c2) == WithControls(o, c2)
  {
  }

  /** Writing back the controls the options already hold changes nothing. */
  lemma WithOwnControls(o: Options)
    ensures WithControls(o, ControlsOf(o)) == o
  {
  }

  /** The seed put into a request: the configured one when it is not negative,
      otherwise the value drawn for this request. */
  function ResolveSeed(configured: int, drawn: int): (s: int)
    requires 0 <= drawn <= SeedMax
    ensures s >= 0
    ensures configured >= 0 ==> s == configured
    ensures configured < 0 ==> s == drawn
  {
    if configured >= 0 then configured else drawn
  }

  /** A uniform draw from [0, SeedMax]; only its range is modelled. */
  method RandomSeed() returns (s: int)
    ensures 0 <= s <= SeedMax
  {
    s :| 0 <= s <= SeedMax;
  }
}
