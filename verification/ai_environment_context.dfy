/**
  The AI environment context: a mode of four values, "normal" at first,
  and an intensity derived from the mode alone; a hook that hands out the
  context and fails outside its provider.
 */
module AIEnvironmentContext {
  import opened Js

  datatype Mode = Normal | Low | Critical | Fast

  /** The animation intensity of a mode. */
  function Intensity(mode: Mode): (i: real)
    ensures mode == Low ==> i == 0.4
    ensures mode == Critical ==> i == 2.0
    ensures mode == Fast ==> i == 1.8
    ensures mode == Normal ==> i == 1.0
  {
    if mode == Low then 0.4
    else if mode == Critical then 2.0
    else if mode == Fast then 1.8
    else 1.0
  }

  /** What the provider offers its children: the mode and its intensity
      (setMode is the Provider's SetMode). */
  datatype Environment = Environment(mode: Mode, intensity: real)

  /** The provider's state. */
  class Provider {
    var mode: Mode

    constructor ()
      ensures mode == Normal
    {
      mode := Normal;
    }

    method SetMode(m: Mode)
      modifies this
      ensures mode == m
    {
      mode := m;
    }

    /** The context value: the intensity always matches the current mode. */
    function Value(): (env: Environment)
      reads this
      ensures env.mode == mode && env.intensity == Intensity(mode)
    {
      Environment(mode, Intensity(mode))
    }
  }

  /** A fresh provider offers normal mode at intensity 1. */
  method InitialEnvironment() returns (env: Environment)
    ensures env == Environment(Normal, 1.0)
  {
    var p := new Provider();
    env := p.Value();
  }

  /** Every intensity is positive, and the modes rank
      low < normal < fast < critical. */
  lemma IntensityOrdered(a: Mode, b: Mode)
    ensures Intensity(a) > 0.0
    ensures Rank(a) < Rank(b) ==> Intensity(a) < Intensity(b)
    ensures Intensity(a) == Intensity(b) ==> a == b
  {
  }

  /** The modes' places in the intensity order. */
  function Rank(mode: Mode): nat
  {
    match mode
    case Low => 0
    case Normal => 1
    case Fast => 2
    case Critical => 3
  }

  const OutsideProvider: string := "useAIEnvironment must be used within AIEnvironmentProvider"

  datatype Outcome = Context(env: Environment) | Throws(message: string)

  /** useAIEnvironment: the nearest provider's value, or an error outside
      every provider. */
  function UseAIEnvironment(nearest: Option<Environment>): (r: Outcome)
    ensures r.Throws? <==> nearest.None?
    ensures r.Throws? ==> r.message == OutsideProvider
    ensures r.Context? ==> r.env == nearest.value
  {
    match nearest
    case None => Throws(OutsideProvider)
    case Some(env) => Context(env)
  }
}
