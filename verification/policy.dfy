/** How `run` resolves its per-call overrides against the configuration. */
module Policy {
  import opened Wrappers
  import opened Results

  /** The two configuration entries `run` reads. */
  datatype Config = Config(numWorkers: int, raiseOnError: bool)

  /** Python truthiness of an optional integer: neither `None` nor `0`. */
  predicate Truthy(x: Option<int>) {
    x.Some? && x.value != 0
  }

  /** `num_workers or self.config.num_workers`: an explicit count wins only
      when it is truthy, so `None` and `0` both fall back to the config. */
  function EffectiveWorkers(requested: Option<int>, configured: int): (n: int)
    ensures Truthy(requested) ==> n == requested.value
    ensures !Truthy(requested) ==> n == configured
  {
    if Truthy(requested) then requested.value else configured
  }

  /** The serial scheduler is used for exactly one worker, the pool otherwise. */
  function ChooseMode(numWorkers: int): (m: Mode)
    ensures m.Serial? <==> numWorkers == 1
    ensures m.Parallel? ==> m.numWorkers == numWorkers
  {
    if numWorkers == 1 then Serial else Parallel(numWorkers)
  }

  /** `raise_on_error if raise_on_error is not None else config.raise_on_error`:
      any explicit value wins, `False` included. */
  function EffectiveRaise(requested: Option<bool>, configured: bool): (b: bool)
    ensures requested.Some? ==> b == requested.value
    ensures requested.None? ==> b == configured
  {
    match requested
    case Some(v) => v
    case None => configured
  }

  /** A run is serial iff it asks for one worker, or asks for none (or zero)
      and the configuration says one. */
  lemma SerialIffOneWorker(requested: Option<int>, config: Config)
    ensures ChooseMode(EffectiveWorkers(requested, config.numWorkers)).Serial? <==>
      (requested == Some(1) || ((requested == None || requested == Some(0)) && config.numWorkers == 1))
  {
  }

  /** Raising is on iff it is asked for explicitly, or not mentioned and
      configured; an explicit `False` beats a configured `True`. */
  lemma RaiseIffRequestedOrConfigured(requested: Option<bool>, config: Config)
    ensures EffectiveRaise(requested, config.raiseOnError) <==>
      (requested == Some(true) || (requested == None && config.raiseOnError))
    ensures !EffectiveRaise(Some(false), config.raiseOnError)
  {
  }
}
